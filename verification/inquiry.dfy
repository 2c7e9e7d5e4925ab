/**
 * `sendViaWhatsApp` and `sendViaEmail`: validate the form, then either show the alert
 * listing the errors or hand the inquiry to WhatsApp or the mail client through a link.
 * `encodeURIComponent` is taken as a parameter and left uninterpreted.
 */
module Inquiry {
  import opened Text
  import opened Digits
  import opened ContactForm

  /** The business WhatsApp number, as written in the page's code. */
  const BusinessPhone: string := "+918825164657"
  /** The business mailbox. */
  const BusinessEmail: string := "TechilyFly@gmail.com"
  const EmailSubject: string := "New Project Inquiry - Techily Fly"
  const AlertHeader: string := "Please fix the following errors:\n\n"

  /** What a button press leads to: `alert(text)`, `window.open(url, target)`, or
      `window.location.href = url`. */
  datatype Action =
    | ShowAlert(text: string)
    | OpenWindow(url: string, target: string)
    | Navigate(url: string)

  /** The text of the alert that lists the errors, one per line. */
  function AlertText(errors: seq<string>): string {
    AlertHeader + Join(errors, "\n")
  }

  /** The WhatsApp message template, piece by piece: fixed labels around the seven values. */
  function WhatsAppPieces(f: FormData): seq<string> {
    [ "*New Project Inquiry - Techily Fly*\n\n*Full Name:* ", f.fullName,
      "\n*Email:* ", f.email,
      "\n*WhatsApp:* ", f.whatsapp,
      "\n*Company/Brand:* ", f.company,
      "\n*Service:* ", f.service,
      "\n*Budget Range:* ", f.budget,
      "\n*Project Description:* ", f.description,
      "\n\n--- Sent via Techily Fly Website ---" ]
  }

  function WhatsAppText(f: FormData): string {
    Concat(WhatsAppPieces(f))
  }

  /** `https://wa.me/<digits of the business number>?text=<encoded message>`. */
  function WhatsAppUrl(f: FormData, encode: string -> string): string {
    "https://wa.me/" + StripNonDigits(BusinessPhone) + "?text=" + encode(WhatsAppText(f))
  }

  /** The mail body template, piece by piece. */
  function EmailBodyPieces(f: FormData): seq<string> {
    [ "New Project Inquiry Details:\n\nFull Name: ", f.fullName,
      "\nEmail: ", f.email,
      "\nWhatsApp: ", f.whatsapp,
      "\nCompany/Brand: ", f.company,
      "\nService: ", f.service,
      "\nBudget Range: ", f.budget,
      "\n\nProject Description:\n", f.description,
      "\n\n--- Sent via Techily Fly Website ---" ]
  }

  function EmailBody(f: FormData): string {
    Concat(EmailBodyPieces(f))
  }

  /** `mailto:<business address>?subject=<encoded subject>&body=<encoded body>`. */
  function MailtoUrl(f: FormData, encode: string -> string): string {
    "mailto:" + BusinessEmail + "?subject=" + encode(EmailSubject) + "&body=" + encode(EmailBody(f))
  }

  /** The WhatsApp button: an invalid form shows the alert and goes nowhere; a valid one
      opens the WhatsApp link in a new tab. */
  method SendViaWhatsApp(f: FormData, encode: string -> string) returns (action: Action)
    ensures action.ShowAlert? <==> !IsAcceptable(f)
    ensures action.ShowAlert? ==> action.text == AlertText(Errors(f))
    ensures !action.ShowAlert? ==> action == OpenWindow(WhatsAppUrl(f, encode), "_blank")
  {
    var valid, errors := ValidateForm(f);
    if !valid {
      return ShowAlert(AlertText(errors));
    }
    var whatsappUrl := "https://wa.me/" + StripNonDigits(BusinessPhone) + "?text=" + encode(WhatsAppText(f));
    action := OpenWindow(whatsappUrl, "_blank");
  }

  /** The email button: an invalid form shows the alert and goes nowhere; a valid one
      navigates to the `mailto:` link. */
  method SendViaEmail(f: FormData, encode: string -> string) returns (action: Action)
    ensures action.ShowAlert? <==> !IsAcceptable(f)
    ensures action.ShowAlert? ==> action.text == AlertText(Errors(f))
    ensures !action.ShowAlert? ==> action == Navigate(MailtoUrl(f, encode))
  {
    var valid, errors := ValidateForm(f);
    if !valid {
      return ShowAlert(AlertText(errors));
    }
    var mailtoUrl := "mailto:" + BusinessEmail + "?subject=" + encode(EmailSubject)
      + "&body=" + encode(EmailBody(f));
    action := Navigate(mailtoUrl);
  }

  /** The alert names every error it was given. */
  lemma AlertListsEveryError(errors: seq<string>, k: nat)
    requires k < |errors|
    ensures IsInfix(errors[k], AlertText(errors))
  {
    var joined := Join(errors, "\n");
    PartIsInfixOfJoin(errors, "\n", k);
    var i :| OccursAt(errors[k], joined, i);
    var s := AlertText(errors);
    assert s[|AlertHeader| + i..|AlertHeader| + i + |errors[k]|] == joined[i..i + |errors[k]|];
    assert OccursAt(errors[k], s, |AlertHeader| + i);
  }

  /** The WhatsApp link always goes to `wa.me/918825164657`, whatever the form holds. */
  lemma WhatsAppUrlTarget(f: FormData, encode: string -> string)
    ensures WhatsAppUrl(f, encode) == "https://wa.me/" + "918825164657" + "?text=" + encode(WhatsAppText(f))
  {
    StripBusinessNumber();
  }

  /** Each of the seven values, the company included, appears verbatim in the WhatsApp
      message before it is encoded. */
  lemma WhatsAppTextCarriesEveryField(f: FormData)
    ensures IsInfix(f.fullName, WhatsAppText(f)) && IsInfix(f.email, WhatsAppText(f))
    ensures IsInfix(f.whatsapp, WhatsAppText(f)) && IsInfix(f.company, WhatsAppText(f))
    ensures IsInfix(f.service, WhatsAppText(f)) && IsInfix(f.budget, WhatsAppText(f))
    ensures IsInfix(f.description, WhatsAppText(f))
  {
    var p := WhatsAppPieces(f);
    PieceIsInfix(p, 1);
    PieceIsInfix(p, 3);
    PieceIsInfix(p, 5);
    PieceIsInfix(p, 7);
    PieceIsInfix(p, 9);
    PieceIsInfix(p, 11);
    PieceIsInfix(p, 13);
  }

  /** Each of the seven values appears verbatim in the mail body before it is encoded. */
  lemma EmailBodyCarriesEveryField(f: FormData)
    ensures IsInfix(f.fullName, EmailBody(f)) && IsInfix(f.email, EmailBody(f))
    ensures IsInfix(f.whatsapp, EmailBody(f)) && IsInfix(f.company, EmailBody(f))
    ensures IsInfix(f.service, EmailBody(f)) && IsInfix(f.budget, EmailBody(f))
    ensures IsInfix(f.description, EmailBody(f))
  {
    var p := EmailBodyPieces(f);
    PieceIsInfix(p, 1);
    PieceIsInfix(p, 3);
    PieceIsInfix(p, 5);
    PieceIsInfix(p, 7);
    PieceIsInfix(p, 9);
    PieceIsInfix(p, 11);
    PieceIsInfix(p, 13);
  }
}
