/** Substring search on strings, as JavaScript's `String.prototype.indexOf` performs it. */
module Strings {

  /** `t` occurs in `s` starting at index `k`. */
  predicate OccursAt(s: string, t: string, k: int) {
    0 <= k && k + |t| <= |s| && s[k..k + |t|] == t
  }

  /** The first index at or after `from` where `t` occurs in `s`, or -1. */
  function IndexOfFrom(s: string, t: string, from: nat): (r: int)
    ensures r == -1 || (from <= r && OccursAt(s, t, r))
    ensures r == -1 ==> forall k :: from <= k ==> !OccursAt(s, t, k)
    ensures r != -1 ==> forall k :: from <= k < r ==> !OccursAt(s, t, k)
    decreases |s| - from
  {
    if from + |t| > |s| then -1
    else if s[from..from + |t|] == t then from
    else IndexOfFrom(s, t, from + 1)
  }

  /** `s.indexOf(t)`: the first index where `t` occurs, or -1. */
  function IndexOf(s: string, t: string): (r: int)
    ensures r == -1 || OccursAt(s, t, r)
    ensures r == -1 <==> forall k :: !OccursAt(s, t, k)
    ensures forall k :: k < r ==> !OccursAt(s, t, k)
  {
    IndexOfFrom(s, t, 0)
  }

  /** `s.indexOf(t) !== -1`. */
  function Contains(s: string, t: string): (b: bool)
    ensures b <==> exists k :: OccursAt(s, t, k)
  {
    IndexOf(s, t) != -1
  }

  /** A string whose first character never appears in `s` does not occur in `s`. */
  lemma AbsentFirstChar(s: string, t: string)
    requires |t| > 0 && t[0] !in s
    ensures !Contains(s, t)
  {
  }

  /** A string found at a known index occurs in `s`. */
  lemma FoundAt(s: string, t: string, k: nat)
    requires k + |t| <= |s| && forall j :: 0 <= j < |t| ==> s[k + j] == t[j]
    ensures Contains(s, t)
  {
    assert s[k..k + |t|] == t;
    assert OccursAt(s, t, k);
  }
}
