/** The parts of java.lang.String that the activity relies on. */
module JavaString {

  /** `t` occurs in `s` as a contiguous block starting at index `i`. */
  ghost predicate OccursAt(s: string, t: string, i: int)
  {
    0 <= i && i + |t| <= |s| && s[i..i + |t|] == t
  }

  /** `t` is a substring of `s`. */
  ghost predicate OccursIn(s: string, t: string)
  {
    exists i :: OccursAt(s, t, i)
  }

  /** An occurrence in the tail of `s` is an occurrence in `s`, one index later, and back. */
  lemma OccursInTail(s: string, t: string)
    requires |s| > 0
    ensures OccursIn(s[1..], t) <==> exists i :: 1 <= i && OccursAt(s, t, i)
  {
    if OccursIn(s[1..], t) {
      var j :| OccursAt(s[1..], t, j);
      assert s[1..][j..j + |t|] == s[j + 1..j + 1 + |t|];
      assert OccursAt(s, t, j + 1);
    }
    if i :| 1 <= i && OccursAt(s, t, i) {
      assert s[1..][i - 1..i - 1 + |t|] == s[i..i + |t|];
      assert OccursAt(s[1..], t, i - 1);
    }
  }

  /** Java's `s.contains(t)`: true exactly when `t` is a substring of `s`
      (the empty string is a substring of every string). */
  function Contains(s: string, t: string): (r: bool)
    ensures r <==> OccursIn(s, t)
    decreases |s|
  {
    if t <= s then
      assert OccursAt(s, t, 0);
      true
    else if |s| <= |t| then
      false
    else
      OccursInTail(s, t);
      assert !OccursAt(s, t, 0);
      Contains(s[1..], t)
  }
}
