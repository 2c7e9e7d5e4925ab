/** Small facts about strings shared by the validators and the message builders. */
module Text {

  /** Number of occurrences of `c` in `s`. */
  function Count(s: string, c: char): nat {
    if s == [] then 0
    else (if s[0] == c then 1 else 0) + Count(s[1..], c)
  }

  /** `t` occurs as a contiguous piece of `s`. */
  ghost predicate IsInfix(t: string, s: string) {
    exists i :: OccursAt(t, s, i)
  }

  /** `t` occurs in `s` starting at index `i`. */
  predicate OccursAt(t: string, s: string, i: int) {
    0 <= i <= |s| - |t| && s[i..i + |t|] == t
  }

  /** Template concatenation: the pieces of a message laid end to end. */
  function Concat(pieces: seq<string>): string {
    if pieces == [] then "" else pieces[0] + Concat(pieces[1..])
  }

  /** `Array.prototype.join(sep)` on an array of strings. */
  function Join(parts: seq<string>, sep: string): string {
    if parts == [] then ""
    else if |parts| == 1 then parts[0]
    else parts[0] + sep + Join(parts[1..], sep)
  }

  lemma {:induction false} CountConcat(a: string, b: string, c: char)
    ensures Count(a + b, c) == Count(a, c) + Count(b, c)
  {
    if a == [] {
      assert a + b == b;
    } else {
      assert (a + b)[1..] == a[1..] + b;
      CountConcat(a[1..], b, c);
    }
  }

  /** `c` is absent from `s` exactly when it is counted zero times. */
  lemma {:induction false} CountZero(s: string, c: char)
    ensures Count(s, c) == 0 <==> forall k :: 0 <= k < |s| ==> s[k] != c
  {
    if s != [] {
      CountZero(s[1..], c);
      assert forall k :: 1 <= k < |s| ==> s[k] == s[1..][k - 1];
    }
  }

  /** Two distinct positions holding `c` make it occur at least twice. */
  lemma CountTwo(s: string, c: char, i: nat, j: nat)
    requires i < j < |s| && s[i] == c && s[j] == c
    ensures Count(s, c) >= 2
  {
    assert s == s[..j] + s[j..];
    CountConcat(s[..j], s[j..], c);
    assert s[..j][i] == c;
    CountZero(s[..j], c);
    assert s[j..][0] == c;
    CountZero(s[j..], c);
  }

  lemma InfixOfConcat(a: string, t: string, b: string)
    ensures IsInfix(t, a + t + b)
  {
    var s := a + t + b;
    assert OccursAt(t, s, |a|);
  }

  /** Every piece of a template shows up verbatim in the assembled text. */
  lemma {:induction false} PieceIsInfix(pieces: seq<string>, k: nat)
    requires k < |pieces|
    ensures IsInfix(pieces[k], Concat(pieces))
  {
    var rest := Concat(pieces[1..]);
    if k == 0 {
      InfixOfConcat("", pieces[0], rest);
      assert "" + pieces[0] + rest == Concat(pieces);
    } else {
      PieceIsInfix(pieces[1..], k - 1);
      var i :| OccursAt(pieces[k], rest, i);
      var s := Concat(pieces);
      assert s == pieces[0] + rest;
      assert s[|pieces[0]| + i..|pieces[0]| + i + |pieces[k]|] == rest[i..i + |pieces[k]|];
      assert OccursAt(pieces[k], s, |pieces[0]| + i);
    }
  }

  /** Every part of a join shows up verbatim in the joined text. */
  lemma {:induction false} PartIsInfixOfJoin(parts: seq<string>, sep: string, k: nat)
    requires k < |parts|
    ensures IsInfix(parts[k], Join(parts, sep))
  {
    if |parts| == 1 {
      InfixOfConcat("", parts[0], "");
      assert "" + parts[0] + "" == Join(parts, sep);
    } else {
      var rest := Join(parts[1..], sep);
      var s := Join(parts, sep);
      assert s == parts[0] + (sep + rest);
      if k == 0 {
        InfixOfConcat("", parts[0], sep + rest);
        assert "" + parts[0] + (sep + rest) == s;
      } else {
        PartIsInfixOfJoin(parts[1..], sep, k - 1);
        var i :| OccursAt(parts[k], rest, i);
        var off := |parts[0]| + |sep|;
        assert s == (parts[0] + sep) + rest;
        assert s[off + i..off + i + |parts[k]|] == rest[i..i + |parts[k]|];
        assert OccursAt(parts[k], s, off + i);
      }
    }
  }
}
