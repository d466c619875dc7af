/** JavaScript's `String.prototype.includes`, on which the text-anchor rule rests. */
module Substrings {

  /** `p` occurs in `s` starting at index `i`. */
  predicate OccursAt(s: string, p: string, i: int) {
    0 <= i && i + |p| <= |s| && s[i..i + |p|] == p
  }

  /** `s.includes(p)`: `p` occurs at some index of `s` (the empty string occurs everywhere). */
  predicate Contains(s: string, p: string): (b: bool)
    ensures p == [] ==> b
    ensures |p| > |s| ==> !b
    ensures b && |p| == |s| ==> p == s
  {
    assert p == [] ==> OccursAt(s, p, 0);
    exists i :: 0 <= i <= |s| - |p| && OccursAt(s, p, i)
  }

  /** An occurrence at a known index makes `p` contained in `s`. */
  lemma OccurrenceContained(s: string, p: string, i: int)
    requires OccursAt(s, p, i)
    ensures Contains(s, p)
  {
  }

  /** A pattern holding a character that `s` lacks is not contained in `s`. */
  lemma AbsentCharNotContained(s: string, p: string, c: char)
    requires c in p && c !in s
    ensures !Contains(s, p)
  {
  }
}
