/**
  The two operations of Go's `strings` package the client relies on: `HasPrefix`, and
  `Replace(s, old, new, 1)`, which replaces the leftmost occurrence of a non-empty pattern.
 */
module Strings {
  import opened Options

  /** `p` is a prefix of `s`: character by character, `s` starts with `p`. */
  function HasPrefix(s: string, p: string): (b: bool)
    ensures b <==> |p| <= |s| && forall k :: 0 <= k < |p| ==> s[k] == p[k]
  {
    |p| <= |s| && s[..|p|] == p
  }

  /** `pat` appears in `s` starting at index `i`. */
  predicate OccursAt(s: string, pat: string, i: int) {
    0 <= i && i + |pat| <= |s| && s[i..i + |pat|] == pat
  }

  /** `i` is the leftmost position at which `pat` appears in `s`. */
  predicate IsFirstOccurrence(s: string, pat: string, i: int) {
    OccursAt(s, pat, i) && forall j :: 0 <= j < i ==> !OccursAt(s, pat, j)
  }

  /** Occurrences in `s` at positions from 1 on are the occurrences in `s[1..]`, shifted by one. */
  lemma OccursAtShift(s: string, pat: string)
    requires |s| > 0
    ensures forall j :: 1 <= j ==> (OccursAt(s, pat, j) <==> OccursAt(s[1..], pat, j - 1))
  {
  }

  /** Go's `strings.Index`: the leftmost occurrence of `pat`, or none. */
  function Index(s: string, pat: string): (r: Option<nat>)
    requires |pat| > 0
    ensures r.Some? ==> IsFirstOccurrence(s, pat, r.value)
    ensures r.None? ==> forall j :: !OccursAt(s, pat, j)
    decreases |s|
  {
    if |s| < |pat| then None
    else if s[..|pat|] == pat then Some(0)
    else
      OccursAtShift(s, pat);
      match Index(s[1..], pat)
      case None => None
      case Some(i) => Some(i + 1)
  }

  /** There is at most one leftmost occurrence. */
  lemma FirstOccurrenceUnique(s: string, pat: string, i: int, k: int)
    requires IsFirstOccurrence(s, pat, i) && IsFirstOccurrence(s, pat, k)
    ensures i == k
  {
  }

  /** Go's `strings.Replace(s, pat, repl, 1)` for a non-empty `pat`. */
  function ReplaceFirst(s: string, pat: string, repl: string): (r: string)
    requires |pat| > 0
    ensures (forall j :: !OccursAt(s, pat, j)) ==> r == s
    ensures forall i :: IsFirstOccurrence(s, pat, i) ==> r == s[..i] + repl + s[i + |pat|..]
  {
    match Index(s, pat)
    case None => s
    case Some(k) =>
      assert forall i :: IsFirstOccurrence(s, pat, i) ==> i == k by {
        forall i | IsFirstOccurrence(s, pat, i) ensures i == k {
          FirstOccurrenceUnique(s, pat, i, k);
        }
      }
      s[..k] + repl + s[k + |pat|..]
  }
}
