/**
 * The registration form's e-mail test `/\S+@\S+\.\S+/.test(email)`: the
 * pattern is not anchored, so it asks whether SOME substring is a run of
 * non-space characters, `@`, another run, `.`, and a third run. `\S` matches
 * `@` and `.` themselves, so the runs may contain them.
 */
module EmailPattern {
  import opened Strings

  /** A match with its `@` at `p` and its `.` at `q`: one non-space character on each side suffices. */
  ghost predicate MatchAt(s: string, p: int, q: int) {
    && 1 <= p && p + 2 <= q && q + 1 < |s|
    && s[p] == '@' && s[q] == '.'
    && !IsWhitespace(s[p - 1]) && !IsWhitespace(s[q + 1])
    && forall k :: p < k < q ==> !IsWhitespace(s[k])
  }

  /** What `RegExp.prototype.test` answers for the pattern. */
  ghost predicate MatchesEmailPattern(s: string) {
    exists p, q :: MatchAt(s, p, q)
  }

  /** The end of the run of non-space characters starting at `i`. */
  function RunEnd(s: string, i: nat): (j: nat)
    requires i <= |s|
    ensures i <= j <= |s|
    ensures forall k :: i <= k < j ==> !IsWhitespace(s[k])
    ensures j < |s| ==> IsWhitespace(s[j])
    decreases |s| - i
  {
    if i == |s| || IsWhitespace(s[i]) then i else RunEnd(s, i + 1)
  }

  /** Whether `s[lo..hi]` holds a `.`. */
  function DotIn(s: string, lo: nat, hi: nat): (r: bool)
    requires hi <= |s|
    ensures r <==> exists q :: lo <= q < hi && s[q] == '.'
    decreases hi - lo
  {
    if lo >= hi then false else s[lo] == '.' || DotIn(s, lo + 1, hi)
  }

  /**
   * Whether a match has its `@` at `p`: the character before is not a
   * space, and the run after the `@` has a `.` that is neither its first
   * nor its last character.
   */
  predicate MatchesAt(s: string, p: nat)
    requires p < |s|
  {
    && 1 <= p && s[p] == '@' && !IsWhitespace(s[p - 1])
    && var e := RunEnd(s, p + 1);
       e >= 1 && DotIn(s, p + 2, e - 1)
  }

  lemma MatchesAtSound(s: string, p: nat)
    requires p < |s|
    ensures MatchesAt(s, p) <==> exists q :: MatchAt(s, p, q)
  {
    if MatchesAt(s, p) {
      var e := RunEnd(s, p + 1);
      var q :| p + 2 <= q < e - 1 && s[q] == '.';
      assert MatchAt(s, p, q);
    }
    if q :| MatchAt(s, p, q) {
      var e := RunEnd(s, p + 1);
      assert p + 2 <= q < e - 1 && s[q] == '.';
    }
  }

  /** Tries every position from `p` on for the `@` of a match. */
  function MatchFrom(s: string, p: nat): (r: bool)
    requires p <= |s|
    ensures r <==> exists a, q :: p <= a && MatchAt(s, a, q)
    decreases |s| - p
  {
    if p == |s| then false
    else
      MatchesAtSound(s, p);
      MatchesAt(s, p) || MatchFrom(s, p + 1)
  }

  /** The regular-expression test, decided by a scan over the candidate `@` positions. */
  function HasEmailMatch(s: string): (r: bool)
    ensures r <==> MatchesEmailPattern(s)
  {
    MatchFrom(s, 0)
  }
}
