/** Substring search, the String.Contains the client applies to response bodies. */
module Strings {

  /** `pat` occurs in `s` starting at index `i`. */
  ghost predicate OccursAt(s: string, pat: string, i: int)
  {
    0 <= i && i + |pat| <= |s| && s[i..i + |pat|] == pat
  }

  /** `pat` occurs in `s` as a contiguous substring. */
  ghost predicate Occurs(s: string, pat: string)
  {
    exists i :: OccursAt(s, pat, i)
  }

  /** Occurrences in `s[1..]` are the occurrences in `s` past index 0, shifted by one. */
  lemma OccursShift(s: string, pat: string)
    requires |s| > 0
    ensures Occurs(s[1..], pat) <==> exists i :: 1 <= i && OccursAt(s, pat, i)
  {
    if Occurs(s[1..], pat) {
      var i :| OccursAt(s[1..], pat, i);
      assert s[1..][i..i + |pat|] == s[i + 1..i + 1 + |pat|];
      assert OccursAt(s, pat, i + 1);
    }
    if i :| 1 <= i && OccursAt(s, pat, i) {
      assert s[1..][i - 1..i - 1 + |pat|] == s[i..i + |pat|];
      assert OccursAt(s[1..], pat, i - 1);
    }
  }

  /** Whether `pat` occurs in `s`, scanning start positions left to right. */
  function Contains(s: string, pat: string): (r: bool)
    ensures r <==> Occurs(s, pat)
    decreases |s|
  {
    if |s| < |pat| then
      assert forall i :: !OccursAt(s, pat, i);
      false
    else if s[..|pat|] == pat then
      assert OccursAt(s, pat, 0);
      true
    else
      assert !OccursAt(s, pat, 0);
      OccursShift(s, pat);
      Contains(s[1..], pat)
  }

  /** An occurrence survives any text added before or after it. */
  lemma OccursExtend(a: string, s: string, b: string, pat: string)
    requires Occurs(s, pat)
    ensures Occurs(a + s + b, pat)
  {
    var i :| OccursAt(s, pat, i);
    assert (a + s + b)[|a| + i..|a| + i + |pat|] == s[i..i + |pat|];
    assert OccursAt(a + s + b, pat, |a| + i);
  }

  /** A pattern can only occur where its last character does. */
  lemma OccursNeedsLast(s: string, pat: string)
    requires |pat| > 0
    requires pat[|pat| - 1] !in s
    ensures !Occurs(s, pat)
  {
    forall i | 0 <= i && i + |pat| <= |s|
      ensures !OccursAt(s, pat, i)
    {
      assert s[i..i + |pat|][|pat| - 1] == s[i + |pat| - 1];
      assert s[i + |pat| - 1] in s;
    }
  }
}
