/** `isValidPhone`: the character-class pattern `/^[\d\s\-\+\(\)]+$/` plus a digit count. */
module PhoneCheck {
  import opened CharClasses
  import opened Digits

  /** `[\d\s\-\+\(\)]`. */
  predicate IsPhoneChar(c: char) {
    IsDigit(c) || IsSpace(c) || c == '-' || c == '+' || c == '(' || c == ')'
  }

  /** `/^[\d\s\-\+\(\)]+$/.test(s)`. */
  predicate MatchesPhonePattern(s: string) {
    |s| > 0 && forall k :: 0 <= k < |s| ==> IsPhoneChar(s[k])
  }

  /** Minimum number of digits a WhatsApp number must carry. */
  const MinDigits := 10

  /** `phoneRegex.test(s) && s.replace(/\D/g, '').length >= 10`. Whatever it accepts is
      at least ten characters long. */
  function IsValidPhone(s: string): (r: bool)
    ensures r ==> |s| >= MinDigits
  {
    MatchesPhonePattern(s) && |StripNonDigits(s)| >= MinDigits
  }

  /** Acceptance in terms of the input alone: non-empty, only digits, whitespace and
      `-+()`, and at least ten digits. */
  lemma ValidPhoneCharacterization(s: string)
    ensures IsValidPhone(s) <==>
      |s| > 0 && (forall k :: 0 <= k < |s| ==> IsPhoneChar(s[k])) && DigitCount(s) >= MinDigits
  {
    StripLength(s);
  }

  /** Ten or more bare digits are always accepted. */
  lemma DigitStringAccepted(s: string)
    requires |s| >= MinDigits && AllDigits(s)
    ensures IsValidPhone(s)
  {
    StripKeepsDigits(s);
  }

  /** The business number used in the WhatsApp link passes the check. */
  lemma BusinessNumberIsValid()
    ensures IsValidPhone("+918825164657")
  {
    StripBusinessNumber();
    BusinessNumberDigits();
    var s, digits := "+918825164657", "918825164657";
    assert s == ['+'] + digits;
    forall k | 0 <= k < |s| ensures IsPhoneChar(s[k]) {
      if k > 0 {
        assert s[k] == digits[k - 1];
      }
    }
  }
}
