# Techily Fly contact form — a Dafny model

The Techily Fly website lets a visitor send a project inquiry from a contact form,
either as a WhatsApp message or as an e-mail. Before anything is sent, `validateForm`
checks the form. It runs eight checks in a fixed order and collects one message for
each check that fails:

- six "is required" checks, for full name, email, WhatsApp number, service, budget and
  description;
- an e-mail format check (`isValidEmail`, a regular expression);
- a WhatsApp number check (`isValidPhone`, a character-class pattern plus "at least ten
  digits").

The form is accepted exactly when no message was collected. Otherwise an alert lists
the messages and nothing is sent. An accepted form becomes a `wa.me` link or a `mailto:`
link. The `wa.me` link carries the business number with everything but its digits
removed.

The model is split into these modules:

- `CharClasses` (`chars.dfy`): the regular-expression classes `\d` (ASCII digits, since
  the patterns have no `u` flag) and `\s` (the ECMAScript whitespace and line-terminator
  characters).
- `Text` (`text.dfy`): counting a character, "occurs as a contiguous piece", template
  concatenation and `Array.prototype.join`.
- `Digits` (`digits.dfy`): `replace(/\D/g, '')` as the recursive function
  `StripNonDigits`, with lemmas for its properties: only digits come out, order is kept,
  it is idempotent, the output length is the digit count, the multiset of kept
  characters is right, and what it does to the business number.
- `EmailCheck` (`email.dfy`): the pattern `/^[^\s@]+@[^\s@]+\.[^\s@]+$/` as the
  predicate `IsValidEmail`. It says the string splits into three `[^\s@]+` runs around
  an `@` and a `.`. A lemma proves, in both directions, that this is the same as
  "no whitespace, exactly one `@`, non-empty local part, and a `.` inside the domain".
- `PhoneCheck` (`phone.dfy`): `isValidPhone` and its characterization by the digit count.
- `ContactForm` (`form.dfy`): the form record, the eight checks (`Check`), the
  specification of the error list (`Errors`, the messages of the failed checks in
  order) and the method `ValidateForm`, which pushes messages one check at a time.
- `Inquiry` (`inquiry.dfy`): the two send handlers as methods that return the
  page action (`ShowAlert`, `OpenWindow` or `Navigate`), the two message templates, and
  the alert text.

## Model

| member | source | states |
|---|---|---|
| `Digits.StripNonDigits` | js/main.js:396 | removing non-digits never makes a string longer |
| `Digits.StripYieldsDigits` | js/main.js:396 | everything that comes out of the digit stripping is an ASCII digit |
| `Digits.StripConcat` | js/main.js:396 | stripping a concatenation is the concatenation of the stripped parts, so the digits of the first part come first |
| `Digits.StripAround` | js/main.js:396 | a character contributes itself if it is a digit and nothing otherwise, placed after the digits before it and before the digits after it (order is kept) |
| `Digits.StripKeepsDigits` | js/main.js:396 | a string of digits only passes through unchanged |
| `Digits.StripIdempotent` | js/main.js:396 | stripping twice gives the same as stripping once |
| `Digits.StripLength` | js/main.js:396 | the output length equals the number of digits in the input (counted by an independent right-to-left definition) |
| `Digits.StripMultiset` | js/main.js:396 | each digit occurs in the output as often as in the input, and no other character occurs |
| `Digits.StripDropsLeadingPlus` | js/main.js:323 | a number written as `+` followed by digits comes out as those digits |
| `Digits.StripBusinessNumber` | js/main.js:310-323 | the hard-coded `+918825164657` becomes `918825164657` in the `wa.me` link |
| `EmailCheck.ValidEmailCharacterization` | js/main.js:389-392 | the pattern matches exactly when the string has no whitespace, exactly one `@`, a non-empty part before it, and a `.` after it that is neither the first nor the last character of the domain |
| `EmailCheck.ValidEmailLength` | js/main.js:390 | an accepted address has at least five characters |
| `EmailCheck.BusinessAddressIsValid` | js/main.js:331 | the site's own address `TechilyFly@gmail.com` passes the e-mail check |
| `PhoneCheck.IsValidPhone` | js/main.js:394-397 | an accepted number is at least ten characters long |
| `PhoneCheck.ValidPhoneCharacterization` | js/main.js:394-397 | a number is accepted exactly when it is non-empty, every character is a digit, whitespace or one of `-+()`, and it has at least ten digits |
| `PhoneCheck.DigitStringAccepted` | js/main.js:395-396 | any string of ten or more digits is accepted |
| `PhoneCheck.BusinessNumberIsValid` | js/main.js:310 | the business number `+918825164657` passes the WhatsApp check |
| `ContactForm.ValidateForm` | js/main.js:361-387 | the collected messages are those of the failed checks in the form's order; the result is true exactly when none was collected, and exactly when all six required fields are filled, the e-mail is valid and the WhatsApp number is valid |
| `ContactForm.FailedInMembership` | js/main.js:364-379 | a check appears among the reported failures exactly when it is one of those run and it fails |
| `ContactForm.ErrorsFollowCheckOrder` | js/main.js:364-379 | the k-th message is the message of the k-th failed check, and the failed checks appear in strictly increasing position in the fixed check order |
| `ContactForm.ErrorReportedIffFails` | js/main.js:364-379 | a check's message is in the error list exactly when the check fails |
| `ContactForm.ErrorsSpelledOut` | js/main.js:364-379 | the error list is the concatenation, in check order, of what each of the eight checks reports |
| `ContactForm.AcceptableIffNoFailure` | js/main.js:381-386 | the form is acceptable exactly when no check fails |
| `ContactForm.AtMostOneErrorPerField` | js/main.js:365-379 | no two reported failures concern the same field, because a format check runs only on a non-empty field |
| `ContactForm.AtMostSixErrors` | js/main.js:364-379 | no form gets more than six messages |
| `ContactForm.BlankFormGetsSixRequiredMessages` | js/main.js:364-369 | a blank form (whatever the company field holds) gets exactly the six "…is required" messages in order, and no format message |
| `ContactForm.CompanyNeverChecked` | js/main.js:364-379 | changing the company field changes neither the error list nor the verdict |
| `Inquiry.SendViaWhatsApp` | js/main.js:306-325 | an invalid form shows the alert listing its errors and opens nothing; a valid form opens the `wa.me` link with the encoded message in a new tab |
| `Inquiry.SendViaEmail` | js/main.js:327-347 | an invalid form shows the alert listing its errors and navigates nowhere; a valid form navigates to the `mailto:` link with encoded subject and body |
| `Inquiry.AlertListsEveryError` | js/main.js:381-383 | every collected error message appears verbatim in the alert text |
| `Inquiry.WhatsAppUrlTarget` | js/main.js:310-323 | the WhatsApp link always reads `https://wa.me/918825164657?text=` followed by the encoded message |
| `Inquiry.WhatsAppTextCarriesEveryField` | js/main.js:311-320 | each of the seven form values, the company included, appears verbatim in the WhatsApp message before encoding |
| `Inquiry.EmailBodyCarriesEveryField` | js/main.js:333-343 | each of the seven form values appears verbatim in the e-mail body before encoding |

## Left out

- The particle background animation (js/main.js:48-216) is not modelled. It is floating-point motion driven by `Math.random` and canvas drawing in a frame loop.
- Template loading (js/main.js:20-45) is not modelled. It is asynchronous `fetch` with DOM injection.
- The mobile menu, back-to-top button, scroll effects, smooth scrolling and focus handlers (js/main.js:219-278, 400-468) are not modelled. They are DOM event wiring with no computation.
- `debounce`, `throttle`, the throttled scroll handler and the debounced resize handler built from them (js/main.js:471-505) are not modelled. They only schedule timers.
- `getFormData` (js/main.js:349-358) reads the DOM. It trims the five text inputs with `String.prototype.trim` and takes the service and budget selections as they are. The model takes all seven values as given strings (`FormData`).
- `encodeURIComponent` is a function parameter `encode` and is not interpreted.
- `initializeContactForm` (js/main.js:281-304) only attaches the two send handlers to their buttons; it is not modelled.
- `alert`, `window.open` and `window.location.href` are not performed. The send handlers return them as `Action` values.
- `ContactForm.ValidateForm`: in the code, `validateForm` itself calls `alert` with the joined messages. In the model it returns the messages, and the send methods turn them into `ShowAlert(AlertText(errors))`. The visible behaviour is the same.
- JavaScript strings are UTF-16 code units; Dafny characters are Unicode scalar values. Characters outside the Basic Multilingual Plane are neither whitespace, `@`, `.` nor phone characters. So both patterns give the same verdict on either representation, and an accepted phone number has only single-unit characters.
- The code reads seven values, of which the company is optional and never checked. It applies `encodeURIComponent` to each whole message, not to each value (js/main.js:311, 333); the model does the same.
