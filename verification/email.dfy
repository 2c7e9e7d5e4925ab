/** `isValidEmail`: the regular expression `/^[^\s@]+@[^\s@]+\.[^\s@]+$/`. */
module EmailCheck {
  import opened CharClasses
  import opened Text

  /** `[^\s@]`: neither whitespace nor `@`. */
  predicate IsPlain(c: char) {
    !IsSpace(c) && c != '@'
  }

  /** `[^\s@]+` matching all of `s`. */
  predicate IsPlainRun(s: string) {
    |s| > 0 && forall k :: 0 <= k < |s| ==> IsPlain(s[k])
  }

  /** The pattern matches `s` with its `@` at index `at` and its `\.` at index `dot`:
      local part, `@`, host, `.`, top-level part, each part a `[^\s@]+` run. */
  predicate SplitsAsEmail(s: string, at: int, dot: int) {
    && 0 <= at < dot < |s|
    && s[at] == '@' && s[dot] == '.'
    && IsPlainRun(s[..at]) && IsPlainRun(s[at + 1..dot]) && IsPlainRun(s[dot + 1..])
  }

  /** `emailRegex.test(s)`: the anchored pattern matches for some choice of split points,
      as a backtracking matcher would find. */
  predicate IsValidEmail(s: string) {
    exists at, dot | 0 <= at < dot < |s| :: SplitsAsEmail(s, at, dot)
  }

  /** An `@` at `at` with a non-empty part before it, and a `.` at `dot` that is neither the
      first nor the last character of the part after the `@`. */
  predicate AtThenInnerDot(s: string, at: int, dot: int) {
    0 < at && at + 1 < dot < |s| - 1 && s[at] == '@' && s[dot] == '.'
  }

  predicate NoSpace(s: string) {
    forall k :: 0 <= k < |s| ==> !IsSpace(s[k])
  }

  lemma PlainRunHasNoAt(s: string)
    requires IsPlainRun(s)
    ensures Count(s, '@') == 0
  {
    CountZero(s, '@');
  }

  lemma CountAroundSplit(s: string, at: int, dot: int)
    requires SplitsAsEmail(s, at, dot)
    ensures Count(s, '@') == 1
  {
    var local, host, tld := s[..at], s[at + 1..dot], s[dot + 1..];
    assert s == local + ([s[at]] + (host + ([s[dot]] + tld)));
    PlainRunHasNoAt(local);
    PlainRunHasNoAt(host);
    PlainRunHasNoAt(tld);
    CountConcat([s[dot]], tld, '@');
    CountConcat(host, [s[dot]] + tld, '@');
    CountConcat([s[at]], host + ([s[dot]] + tld), '@');
    CountConcat(local, [s[at]] + (host + ([s[dot]] + tld)), '@');
    assert Count([s[at]], '@') == 1 by { assert [s[at]][1..] == ""; }
    assert Count([s[dot]], '@') == 0 by { assert [s[dot]][1..] == ""; }
  }

  lemma SplitHasNoSpace(s: string, at: int, dot: int)
    requires SplitsAsEmail(s, at, dot)
    ensures NoSpace(s)
  {
    forall k | 0 <= k < |s| ensures !IsSpace(s[k]) {
      if k < at {
        assert s[..at][k] == s[k];
      } else if at < k < dot {
        assert s[at + 1..dot][k - at - 1] == s[k];
      } else if dot < k {
        assert s[dot + 1..][k - dot - 1] == s[k];
      }
    }
  }

  /** A run between two indices that holds no whitespace and no `@` is plain. */
  lemma PlainBetween(s: string, lo: int, hi: int, at: int)
    requires 0 <= lo < hi <= |s| && 0 <= at < |s| && s[at] == '@'
    requires NoSpace(s) && Count(s, '@') == 1
    requires at < lo || hi <= at
    ensures IsPlainRun(s[lo..hi])
  {
    forall k | 0 <= k < hi - lo ensures IsPlain(s[lo..hi][k]) {
      assert s[lo..hi][k] == s[lo + k];
      if s[lo + k] == '@' {
        if at < lo + k { CountTwo(s, '@', at, lo + k); } else { CountTwo(s, '@', lo + k, at); }
      }
    }
  }

  /** The pattern accepts exactly the strings that hold no whitespace and exactly one `@`,
      have a non-empty part before the `@`, and have a `.` after the `@` that is neither
      the first nor the last character there. */
  lemma ValidEmailCharacterization(s: string)
    ensures IsValidEmail(s) <==>
      NoSpace(s) && Count(s, '@') == 1 && exists at, dot :: AtThenInnerDot(s, at, dot)
  {
    if IsValidEmail(s) {
      var at, dot :| SplitsAsEmail(s, at, dot);
      SplitHasNoSpace(s, at, dot);
      CountAroundSplit(s, at, dot);
      assert AtThenInnerDot(s, at, dot);
    }
    if NoSpace(s) && Count(s, '@') == 1 && exists at, dot :: AtThenInnerDot(s, at, dot) {
      var at, dot :| AtThenInnerDot(s, at, dot);
      PlainBetween(s, 0, at, at);
      PlainBetween(s, at + 1, dot, at);
      PlainBetween(s, dot + 1, |s|, at);
      assert s[0..at] == s[..at];
      assert SplitsAsEmail(s, at, dot);
    }
  }

  /** Any accepted address has at least five characters: `a@b.c`. */
  lemma ValidEmailLength(s: string)
    requires IsValidEmail(s)
    ensures |s| >= 5
  {
    var at, dot :| 0 <= at < dot < |s| && SplitsAsEmail(s, at, dot);
    assert IsPlainRun(s[dot + 1..]);
  }

  /** The site's own address, `TechilyFly@gmail.com`, passes the check. */
  lemma BusinessAddressIsValid()
    ensures IsValidEmail("TechilyFly@gmail.com")
  {
    var s := "TechilyFly@gmail.com";
    assert s[..10] == "TechilyFly" && s[11..16] == "gmail" && s[17..] == "com";
    assert SplitsAsEmail(s, 10, 16);
  }
}
