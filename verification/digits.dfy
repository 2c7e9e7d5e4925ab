/** `s.replace(/\D/g, '')`: removal of every character that is not an ASCII digit. */
module Digits {
  import opened CharClasses

  /** Keeps the ASCII digits of `s`, in their original order, and drops the rest; the
      result is never longer than the input. */
  function StripNonDigits(s: string): (r: string)
    ensures |r| <= |s|
  {
    if s == [] then ""
    else if IsDigit(s[0]) then [s[0]] + StripNonDigits(s[1..])
    else StripNonDigits(s[1..])
  }

  /** Number of digits in `s`, counted from the right end. */
  function DigitCount(s: string): nat {
    if s == [] then 0
    else DigitCount(s[..|s| - 1]) + (if IsDigit(s[|s| - 1]) then 1 else 0)
  }

  predicate AllDigits(s: string) {
    forall k :: 0 <= k < |s| ==> IsDigit(s[k])
  }

  /** Only digits come out. */
  lemma {:induction false} StripYieldsDigits(s: string)
    ensures AllDigits(StripNonDigits(s))
  {
    if s != [] {
      StripYieldsDigits(s[1..]);
    }
  }

  lemma StripSingle(c: char)
    ensures StripNonDigits([c]) == if IsDigit(c) then [c] else ""
  {
    assert [c][1..] == "";
  }

  /** Stripping works piecewise: the digits of `a` come out before the digits of `b`. */
  lemma {:induction false} StripConcat(a: string, b: string)
    ensures StripNonDigits(a + b) == StripNonDigits(a) + StripNonDigits(b)
  {
    if a == [] {
      assert a + b == b;
    } else {
      assert (a + b)[0] == a[0];
      assert (a + b)[1..] == a[1..] + b;
      StripConcat(a[1..], b);
    }
  }

  /** A character between `pre` and `post` contributes itself if it is a digit and nothing
      otherwise, after the digits of `pre` and before those of `post`. */
  lemma StripAround(pre: string, c: char, post: string)
    ensures StripNonDigits(pre + [c] + post) ==
      StripNonDigits(pre) + (if IsDigit(c) then [c] else "") + StripNonDigits(post)
  {
    StripConcat(pre + [c], post);
    StripConcat(pre, [c]);
    StripSingle(c);
  }

  /** A string made only of digits passes through unchanged. */
  lemma {:induction false} StripKeepsDigits(s: string)
    requires AllDigits(s)
    ensures StripNonDigits(s) == s
  {
    if s != [] {
      StripKeepsDigits(s[1..]);
    }
  }

  /** Stripping twice is stripping once. */
  lemma StripIdempotent(s: string)
    ensures StripNonDigits(StripNonDigits(s)) == StripNonDigits(s)
  {
    StripYieldsDigits(s);
    StripKeepsDigits(StripNonDigits(s));
  }

  /** The output is as long as the input has digits. */
  lemma {:induction false} StripLength(s: string)
    ensures |StripNonDigits(s)| == DigitCount(s)
  {
    if s != [] {
      var n := |s| - 1;
      assert s == s[..n] + [s[n]];
      StripConcat(s[..n], [s[n]]);
      StripLength(s[..n]);
    }
  }

  /** The output holds every digit of the input as often as the input does, and nothing else. */
  lemma {:induction false} StripMultiset(s: string)
    ensures forall c :: multiset(StripNonDigits(s))[c] == if IsDigit(c) then multiset(s)[c] else 0
  {
    if s != [] {
      StripMultiset(s[1..]);
      assert s == [s[0]] + s[1..];
      assert multiset(s) == multiset{s[0]} + multiset(s[1..]);
    }
  }

  /** An international number written `+` and digits comes out as its digits. */
  lemma StripDropsLeadingPlus(digits: string)
    requires AllDigits(digits)
    ensures StripNonDigits(['+'] + digits) == digits
  {
    StripConcat(['+'], digits);
    StripSingle('+');
    StripKeepsDigits(digits);
  }

  lemma BusinessNumberDigits()
    ensures AllDigits("918825164657")
  {
    var digits := "918825164657";
    forall k | 0 <= k < |digits| ensures IsDigit(digits[k]) {
      assert digits[k] in "0123456789";
    }
  }

  lemma BusinessNumberSplit()
    ensures "+918825164657" == ['+'] + "918825164657"
  {
  }

  /** The hard-coded business number of the WhatsApp link loses only its leading `+`. */
  lemma StripBusinessNumber()
    ensures StripNonDigits("+918825164657") == "918825164657"
  {
    BusinessNumberDigits();
    StripDropsLeadingPlus("918825164657");
    BusinessNumberSplit();
  }
}
