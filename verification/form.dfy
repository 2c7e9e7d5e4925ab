/** `validateForm`: the contact form's checks, run in a fixed order, one message per failure. */
module ContactForm {
  import opened EmailCheck
  import opened PhoneCheck

  /** The seven values `getFormData` reads: five text inputs trimmed, and the service and
      budget selections as they are. The model takes all seven as given strings. */
  datatype FormData = FormData(
    fullName: string,
    email: string,
    whatsapp: string,
    company: string,
    service: string,
    budget: string,
    description: string)

  /** The form's fields; every check concerns exactly one of them. `Company` is the one
      field no check inspects, so `FieldOf` never yields it. */
  datatype Field = FullName | Email | WhatsApp | Company | Service | Budget | Description

  /** The eight checks of the form, each of which can contribute one error message. */
  datatype Check =
    | FullNameRequired | EmailRequired | WhatsAppRequired
    | ServiceRequired | BudgetRequired | DescriptionRequired
    | EmailFormat | WhatsAppFormat

  /** The checks in the order the form runs them. */
  const CheckOrder: seq<Check> := [
    FullNameRequired, EmailRequired, WhatsAppRequired,
    ServiceRequired, BudgetRequired, DescriptionRequired,
    EmailFormat, WhatsAppFormat]

  /** Position of a check in `CheckOrder`. */
  function Rank(c: Check): nat {
    match c
    case FullNameRequired => 0
    case EmailRequired => 1
    case WhatsAppRequired => 2
    case ServiceRequired => 3
    case BudgetRequired => 4
    case DescriptionRequired => 5
    case EmailFormat => 6
    case WhatsAppFormat => 7
  }

  /** `Rank` numbers the checks by their position in `CheckOrder`. */
  lemma RankIsPosition()
    ensures forall i :: 0 <= i < |CheckOrder| ==> Rank(CheckOrder[i]) == i
  {
  }

  /** The field a check inspects. */
  function FieldOf(c: Check): Field {
    match c
    case FullNameRequired => FullName
    case EmailRequired => Email
    case WhatsAppRequired => WhatsApp
    case ServiceRequired => Service
    case BudgetRequired => Budget
    case DescriptionRequired => Description
    case EmailFormat => Email
    case WhatsAppFormat => WhatsApp
  }

  function Message(c: Check): string {
    match c
    case FullNameRequired => "Full name is required"
    case EmailRequired => "Email is required"
    case WhatsAppRequired => "WhatsApp number is required"
    case ServiceRequired => "Service selection is required"
    case BudgetRequired => "Budget range is required"
    case DescriptionRequired => "Project description is required"
    case EmailFormat => "Please enter a valid email address"
    case WhatsAppFormat => "Please enter a valid WhatsApp number"
  }

  /** A check fails on an empty field (a required check) or on a non-empty field whose
      contents the validator rejects (a format check). */
  predicate Fails(c: Check, f: FormData) {
    match c
    case FullNameRequired => f.fullName == ""
    case EmailRequired => f.email == ""
    case WhatsAppRequired => f.whatsapp == ""
    case ServiceRequired => f.service == ""
    case BudgetRequired => f.budget == ""
    case DescriptionRequired => f.description == ""
    case EmailFormat => f.email != "" && !IsValidEmail(f.email)
    case WhatsAppFormat => f.whatsapp != "" && !IsValidPhone(f.whatsapp)
  }

  /** The checks of `cs` that fail on `f`, in the order of `cs`. */
  function FailedIn(cs: seq<Check>, f: FormData): (r: seq<Check>)
    ensures |r| <= |cs|
  {
    if cs == [] then []
    else
      var last := cs[|cs| - 1];
      FailedIn(cs[..|cs| - 1], f) + (if Fails(last, f) then [last] else [])
  }

  /** The message of each check of `cs`, in the same order. */
  function Messages(cs: seq<Check>): seq<string> {
    seq(|cs|, k requires 0 <= k < |cs| => Message(cs[k]))
  }

  /** The failed checks of `f`, in the form's order. */
  function FailedChecks(f: FormData): seq<Check> {
    FailedIn(CheckOrder, f)
  }

  /** The error list `validateForm` collects. */
  function Errors(f: FormData): seq<string> {
    Messages(FailedChecks(f))
  }

  /** What the form demands, stated field by field: the six required fields are filled in,
      the email address is well formed and the WhatsApp number is acceptable. */
  predicate IsAcceptable(f: FormData) {
    && f.fullName != "" && f.email != "" && f.whatsapp != ""
    && f.service != "" && f.budget != "" && f.description != ""
    && IsValidEmail(f.email) && IsValidPhone(f.whatsapp)
  }

  /** What check `c` contributes to the error list: its message if it fails, else nothing. */
  function Reported(c: Check, f: FormData): seq<string> {
    if Fails(c, f) then [Message(c)] else []
  }

  /** `validateForm(formData)`: runs the checks in order, pushing one message per failed
      check, and reports success exactly when nothing was pushed. The `alert` that lists
      the messages is built by the caller from `errors` (see `Inquiry.AlertText`). */
  method ValidateForm(f: FormData) returns (valid: bool, errors: seq<string>)
    ensures errors == Errors(f)
    ensures valid <==> errors == []
    ensures valid <==> IsAcceptable(f)
  {
    errors := [];

    errors := PushIf(errors, f.fullName == "", FullNameRequired, f);
    errors := PushIf(errors, f.email == "", EmailRequired, f);
    errors := PushIf(errors, f.whatsapp == "", WhatsAppRequired, f);
    errors := PushIf(errors, f.service == "", ServiceRequired, f);
    errors := PushIf(errors, f.budget == "", BudgetRequired, f);
    errors := PushIf(errors, f.description == "", DescriptionRequired, f);

    // Email validation
    errors := PushIf(errors, f.email != "" && !IsValidEmail(f.email), EmailFormat, f);

    // WhatsApp validation
    errors := PushIf(errors, f.whatsapp != "" && !IsValidPhone(f.whatsapp), WhatsAppFormat, f);

    ErrorsSpelledOut(f);
    valid := |errors| == 0;
    AcceptableIffNoFailure(f);
  }

  /** `if (failed) errors.push(message)` for check `c`, whose guard in the form is `failed`. */
  method PushIf(errors: seq<string>, failed: bool, c: Check, f: FormData) returns (r: seq<string>)
    requires failed == Fails(c, f)
    ensures r == errors + Reported(c, f)
    ensures failed <==> |r| == |errors| + 1
  {
    r := errors;
    if failed {
      r := r + [Message(c)];
    }
  }

  /** The error list, check by check in the form's order. */
  lemma ErrorsSpelledOut(f: FormData)
    ensures Errors(f) ==
      [] + Reported(FullNameRequired, f) + Reported(EmailRequired, f) + Reported(WhatsAppRequired, f)
      + Reported(ServiceRequired, f) + Reported(BudgetRequired, f) + Reported(DescriptionRequired, f)
      + Reported(EmailFormat, f) + Reported(WhatsAppFormat, f)
  {
    FailedChecksSpelledOut(f);
    var p1, p2, p3, p4 := FailedIn([FullNameRequired], f), FailedIn([EmailRequired], f),
      FailedIn([WhatsAppRequired], f), FailedIn([ServiceRequired], f);
    var p5, p6, p7, p8 := FailedIn([BudgetRequired], f), FailedIn([DescriptionRequired], f),
      FailedIn([EmailFormat], f), FailedIn([WhatsAppFormat], f);
    MessagesConcat(p1 + p2 + p3 + p4 + p5 + p6 + p7, p8);
    MessagesConcat(p1 + p2 + p3 + p4 + p5 + p6, p7);
    MessagesConcat(p1 + p2 + p3 + p4 + p5, p6);
    MessagesConcat(p1 + p2 + p3 + p4, p5);
    MessagesConcat(p1 + p2 + p3, p4);
    MessagesConcat(p1 + p2, p3);
    MessagesConcat(p1, p2);
    ReportedIsMessagesOfFailed(FullNameRequired, f);
    ReportedIsMessagesOfFailed(EmailRequired, f);
    ReportedIsMessagesOfFailed(WhatsAppRequired, f);
    ReportedIsMessagesOfFailed(ServiceRequired, f);
    ReportedIsMessagesOfFailed(BudgetRequired, f);
    ReportedIsMessagesOfFailed(DescriptionRequired, f);
    ReportedIsMessagesOfFailed(EmailFormat, f);
    ReportedIsMessagesOfFailed(WhatsAppFormat, f);
    assert [] + Reported(FullNameRequired, f) == Reported(FullNameRequired, f);
  }

  lemma ReportedIsMessagesOfFailed(c: Check, f: FormData)
    ensures Messages(FailedIn([c], f)) == Reported(c, f)
  {
    FailedInSingle(c, f);
    assert [c][..0] == [];
  }

  lemma MessagesConcat(a: seq<Check>, b: seq<Check>)
    ensures Messages(a + b) == Messages(a) + Messages(b)
  {
  }

  /** A check is reported exactly when it is one of those run and it fails. */
  lemma {:induction false} FailedInMembership(cs: seq<Check>, f: FormData)
    ensures forall c :: c in FailedIn(cs, f) <==> c in cs && Fails(c, f)
  {
    if cs != [] {
      var init := cs[..|cs| - 1];
      FailedInMembership(init, f);
      assert cs == init + [cs[|cs| - 1]];
    }
  }

  lemma AcceptableIffNoFailure(f: FormData)
    ensures IsAcceptable(f) <==> FailedChecks(f) == []
  {
    var e := FailedChecks(f);
    FailedInMembership(CheckOrder, f);
    if e == [] {
      forall c | c in CheckOrder ensures !Fails(c, f) {
        assert c !in e;
      }
      assert !Fails(FullNameRequired, f) && !Fails(EmailRequired, f) && !Fails(WhatsAppRequired, f);
      assert !Fails(ServiceRequired, f) && !Fails(BudgetRequired, f) && !Fails(DescriptionRequired, f);
      assert !Fails(EmailFormat, f) && !Fails(WhatsAppFormat, f);
    } else {
      assert e[0] in e;
    }
  }

  /** Filtering distributes over concatenation of check lists. */
  lemma {:induction false} FailedInConcat(a: seq<Check>, b: seq<Check>, f: FormData)
    ensures FailedIn(a + b, f) == FailedIn(a, f) + FailedIn(b, f)
  {
    if b == [] {
      assert a + b == a;
    } else {
      var init := b[..|b| - 1];
      FailedInConcat(a, init, f);
      assert (a + b)[..|a + b| - 1] == a + init;
      assert (a + b)[|a + b| - 1] == b[|b| - 1];
    }
  }

  lemma FailedInSingle(c: Check, f: FormData)
    ensures FailedIn([c], f) == if Fails(c, f) then [c] else []
  {
    assert [c][..0] == [];
  }

  /** No two checks share a message. */
  lemma MessageInjective(a: Check, b: Check)
    requires Message(a) == Message(b)
    ensures a == b
  {
  }

  /** The reported failures follow the form's order: each failed check comes after every
      failed check that the form runs before it. */
  lemma {:induction false} FailedInKeepsOrder(cs: seq<Check>, f: FormData)
    requires forall i, j :: 0 <= i < j < |cs| ==> Rank(cs[i]) < Rank(cs[j])
    ensures forall i, j :: 0 <= i < j < |FailedIn(cs, f)| ==>
      Rank(FailedIn(cs, f)[i]) < Rank(FailedIn(cs, f)[j])
  {
    if cs != [] {
      var init, last := cs[..|cs| - 1], cs[|cs| - 1];
      FailedInKeepsOrder(init, f);
      FailedInMembership(init, f);
      var prefix := FailedIn(init, f);
      forall i | 0 <= i < |prefix| ensures Rank(prefix[i]) < Rank(last) {
        assert prefix[i] in init;
      }
    }
  }

  /** The error list holds one message per failed check, and the failed checks are listed
      in the order the form runs them: the required checks for full name, email, WhatsApp,
      service, budget and description, then the email format, then the WhatsApp format. */
  lemma ErrorsFollowCheckOrder(f: FormData)
    ensures |Errors(f)| == |FailedChecks(f)|
    ensures forall k :: 0 <= k < |Errors(f)| ==> Errors(f)[k] == Message(FailedChecks(f)[k])
    ensures forall i, j :: 0 <= i < j < |FailedChecks(f)| ==>
      Rank(FailedChecks(f)[i]) < Rank(FailedChecks(f)[j])
  {
    RankIsPosition();
    FailedInKeepsOrder(CheckOrder, f);
  }

  /** A check's message is in the error list exactly when the check fails. */
  lemma ErrorReportedIffFails(f: FormData, c: Check)
    ensures Message(c) in Errors(f) <==> Fails(c, f)
  {
    var e := FailedChecks(f);
    FailedInMembership(CheckOrder, f);
    if Message(c) in Errors(f) {
      var k :| 0 <= k < |Errors(f)| && Errors(f)[k] == Message(c);
      MessageInjective(c, e[k]);
      assert e[k] in e;
    }
    if Fails(c, f) {
      assert c in e;
      var k :| 0 <= k < |e| && e[k] == c;
      assert Errors(f)[k] == Message(c);
    }
  }

  /** The failed checks, check by check in the form's order. */
  lemma FailedChecksSpelledOut(f: FormData)
    ensures FailedChecks(f) ==
      FailedIn([FullNameRequired], f) + FailedIn([EmailRequired], f) + FailedIn([WhatsAppRequired], f)
      + FailedIn([ServiceRequired], f) + FailedIn([BudgetRequired], f) + FailedIn([DescriptionRequired], f)
      + FailedIn([EmailFormat], f) + FailedIn([WhatsAppFormat], f)
  {
    var c := CheckOrder;
    assert c == c[..7] + [c[7]];
    assert c[..7] == c[..6] + [c[6]];
    assert c[..6] == c[..5] + [c[5]];
    assert c[..5] == c[..4] + [c[4]];
    assert c[..4] == c[..3] + [c[3]];
    assert c[..3] == c[..2] + [c[2]];
    assert c[..2] == c[..1] + [c[1]];
    FailedInConcat(c[..7], [c[7]], f);
    FailedInConcat(c[..6], [c[6]], f);
    FailedInConcat(c[..5], [c[5]], f);
    FailedInConcat(c[..4], [c[4]], f);
    FailedInConcat(c[..3], [c[3]], f);
    FailedInConcat(c[..2], [c[2]], f);
    FailedInConcat(c[..1], [c[1]], f);
  }

  /** Two different checks of one field never fail together. */
  lemma SameFieldExclusive(a: Check, b: Check, f: FormData)
    requires a != b && Fails(a, f) && Fails(b, f)
    ensures FieldOf(a) != FieldOf(b)
  {
  }

  /** Required and format checks of the same field never both fail, since a format check
      runs only on a non-empty field: no field gets two messages. */
  lemma AtMostOneErrorPerField(f: FormData)
    ensures forall i, j :: 0 <= i < j < |FailedChecks(f)| ==>
      FieldOf(FailedChecks(f)[i]) != FieldOf(FailedChecks(f)[j])
  {
    var e := FailedChecks(f);
    RankIsPosition();
    FailedInKeepsOrder(CheckOrder, f);
    FailedInMembership(CheckOrder, f);
    forall i, j | 0 <= i < j < |e| ensures FieldOf(e[i]) != FieldOf(e[j]) {
      assert e[i] in e && e[j] in e;
      assert Fails(e[i], f) && Fails(e[j], f) && e[i] != e[j];
      SameFieldExclusive(e[i], e[j], f);
    }
  }

  /** Eight checks, but the two format checks exclude the matching required checks:
      never more than six messages. */
  lemma AtMostSixErrors(f: FormData)
    ensures |Errors(f)| <= 6
  {
    FailedChecksSpelledOut(f);
    FailedInSingle(FullNameRequired, f);
    FailedInSingle(EmailRequired, f);
    FailedInSingle(WhatsAppRequired, f);
    FailedInSingle(ServiceRequired, f);
    FailedInSingle(BudgetRequired, f);
    FailedInSingle(DescriptionRequired, f);
    FailedInSingle(EmailFormat, f);
    FailedInSingle(WhatsAppFormat, f);
  }

  /** A form left entirely blank (the company field aside) gets exactly the six
      "...is required" messages, in order, and no format message. */
  lemma BlankFormGetsSixRequiredMessages(company: string)
    ensures Errors(FormData("", "", "", company, "", "", "")) == [
      "Full name is required", "Email is required", "WhatsApp number is required",
      "Service selection is required", "Budget range is required",
      "Project description is required"]
  {
    var f := FormData("", "", "", company, "", "", "");
    FailedChecksSpelledOut(f);
    FailedInSingle(FullNameRequired, f);
    FailedInSingle(EmailRequired, f);
    FailedInSingle(WhatsAppRequired, f);
    FailedInSingle(ServiceRequired, f);
    FailedInSingle(BudgetRequired, f);
    FailedInSingle(DescriptionRequired, f);
    FailedInSingle(EmailFormat, f);
    FailedInSingle(WhatsAppFormat, f);
    var six := [FullNameRequired, EmailRequired, WhatsAppRequired,
                ServiceRequired, BudgetRequired, DescriptionRequired];
    assert FailedChecks(f) == six;
  }

  /** Checks that give the same verdicts produce the same error list. */
  lemma {:induction false} FailedInCongruent(cs: seq<Check>, f: FormData, g: FormData)
    requires forall c :: Fails(c, f) == Fails(c, g)
    ensures FailedIn(cs, f) == FailedIn(cs, g)
  {
    if cs != [] {
      FailedInCongruent(cs[..|cs| - 1], f, g);
    }
  }

  /** The company field is never inspected: whatever it holds, the error list, and hence
      the verdict, stay the same. */
  lemma CompanyNeverChecked(f: FormData, company: string)
    ensures Errors(f.(company := company)) == Errors(f)
    ensures IsAcceptable(f.(company := company)) == IsAcceptable(f)
  {
    FailedInCongruent(CheckOrder, f, f.(company := company));
  }
}
