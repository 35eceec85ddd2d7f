/** Substring search on Python strings. */
module Text {

  /** Python's `pat in s` for two strings: `pat` occurs in `s` as a
      contiguous run of characters. */
  predicate Contains(s: string, pat: string)
  {
    exists k :: 0 <= k <= |s| && pat <= s[k..]
  }

  /** A pattern whose first character never occurs in `s` does not occur in `s`. */
  lemma AbsentFirstChar(s: string, pat: string)
    requires |pat| > 0 && pat[0] !in s
    ensures !Contains(s, pat)
  {
  }

  /** `pat` is spelled by the window of `s` that starts at `k`. */
  predicate OccursAt(s: string, pat: string, k: int)
  {
    0 <= k && k + |pat| <= |s| && s[k..k + |pat|] == pat
  }

  /** `pat in s` holds exactly when some window of `s` spells `pat`. */
  lemma ContainsMeansOccurs(s: string, pat: string)
    ensures Contains(s, pat) <==> exists k :: OccursAt(s, pat, k)
  {
    if Contains(s, pat) {
      var k :| 0 <= k <= |s| && pat <= s[k..];
      assert OccursAt(s, pat, k);
    }
    if exists k :: OccursAt(s, pat, k) {
      var k :| OccursAt(s, pat, k);
      assert pat <= s[k..];
    }
  }

  /** A pattern placed between any two strings occurs in the result. */
  lemma ContainsOccurrence(before: string, pat: string, after: string)
    ensures Contains(before + pat + after, pat)
  {
    assert pat <= (before + pat + after)[|before|..];
  }
}
