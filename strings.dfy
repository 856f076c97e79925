/** Text operations the router relies on: Python's `str.lower()` restricted to
    ASCII, and Python's substring test `w in s`. */
module Strings {

  predicate IsUpper(c: char) {
    'A' <= c <= 'Z'
  }

  /** ASCII lower-casing of one character. */
  function LowerChar(c: char): (d: char)
    ensures !IsUpper(d)
    ensures !IsUpper(c) ==> d == c
    ensures IsUpper(c) ==> 'a' <= d <= 'z' && d as int - c as int == 32
  {
    if IsUpper(c) then (c as int + 32) as char else c
  }

  /** `s.lower()`: every character lower-cased, the length kept. */
  function Lower(s: string): (t: string)
    ensures |t| == |s|
    ensures forall i :: 0 <= i < |s| ==> t[i] == LowerChar(s[i])
  {
    seq(|s|, i requires 0 <= i < |s| => LowerChar(s[i]))
  }

  lemma LowerConcat(a: string, b: string)
    ensures Lower(a + b) == Lower(a) + Lower(b)
  {
    assert forall i :: 0 <= i < |a + b| ==> Lower(a + b)[i] == (Lower(a) + Lower(b))[i];
  }

  /** `w` occurs in `s` starting at position `i`. */
  predicate OccursAt(s: string, w: string, i: nat) {
    i + |w| <= |s| && s[i..i + |w|] == w
  }

  /** Python's `w in s` on strings: `w` is a contiguous piece of `s`. */
  predicate Contains(s: string, w: string) {
    exists i | 0 <= i <= |s| - |w| :: OccursAt(s, w, i)
  }

  /** The empty word occurs in every text; a longer word occurs in a text
      only when the two are equal. */
  lemma ContainsEdges(s: string, w: string)
    ensures w == [] ==> Contains(s, w)
    ensures Contains(s, w) ==> |w| <= |s|
    ensures |w| == |s| ==> (Contains(s, w) <==> w == s)
  {
    assert OccursAt(s, w, 0) <==> |w| <= |s| && s[..|w|] == w;
  }

  /** Text around an occurrence never removes it. */
  lemma ContainsInContext(a: string, s: string, b: string, w: string)
    requires Contains(s, w)
    ensures Contains(a + s + b, w)
  {
    var i :| 0 <= i <= |s| - |w| && OccursAt(s, w, i);
    var t := a + s + b;
    assert t[|a| + i..|a| + i + |w|] == s[i..i + |w|];
    assert OccursAt(t, w, |a| + i);
  }

  /** Lower-casing keeps every occurrence, lower-cased. */
  lemma LowerKeepsOccurrence(s: string, w: string, i: nat)
    requires OccursAt(s, w, i)
    ensures OccursAt(Lower(s), Lower(w), i)
  {
    assert Lower(s)[i..i + |w|] == Lower(s[i..i + |w|]);
  }

  /** A text none of whose characters is `w[0]` does not contain `w`. */
  lemma {:induction false} AbsentFirstChar(s: string, w: string)
    requires |w| > 0
    requires forall k :: 0 <= k < |s| ==> s[k] != w[0]
    ensures !Contains(s, w)
  {
    forall i | 0 <= i <= |s| - |w|
      ensures !OccursAt(s, w, i)
    {
      assert s[i..i + |w|][0] == s[i] != w[0];
    }
  }
}
