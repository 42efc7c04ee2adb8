/**
 * The three Python string operations the label codec relies on:
 * `str.startswith`, `str.find` and `str.split(sep)[-1]`.
 */
module Text {
  import opened Outcomes

  /** `s.startswith(prefix)` */
  predicate StartsWith(s: string, prefix: string) {
    |prefix| <= |s| && s[..|prefix|] == prefix
  }

  /** `s` ends with `suffix`. */
  predicate EndsWith(s: string, suffix: string) {
    |suffix| <= |s| && s[|s| - |suffix|..] == suffix
  }

  /** `sep` occurs in `s` starting at position `i`. */
  predicate OccursAt(s: string, sep: string, i: nat) {
    i + |sep| <= |s| && s[i..i + |sep|] == sep
  }

  /** `sep in s` */
  ghost predicate Contains(s: string, sep: string) {
    exists i: nat :: OccursAt(s, sep, i)
  }

  /** `s.find(sep, from)`: the first position at or after `from` where `sep` occurs. */
  function IndexFrom(s: string, sep: string, from: nat): (r: Option<nat>)
    ensures r.Some? ==> from <= r.value && OccursAt(s, sep, r.value)
    ensures r.Some? ==> forall j: nat :: from <= j < r.value ==> !OccursAt(s, sep, j)
    ensures r.None? ==> forall j: nat :: from <= j ==> !OccursAt(s, sep, j)
    decreases |s| - from
  {
    if |s| < from + |sep| then None
    else if OccursAt(s, sep, from) then Some(from)
    else IndexFrom(s, sep, from + 1)
  }

  /**
   * Where the last piece of `s[from..].split(sep)` starts: Python scans left
   * to right for non-overlapping occurrences of `sep`, and the last piece is
   * what follows the last one found.
   */
  function LastPieceStart(s: string, sep: string, from: nat): (p: nat)
    requires sep != [] && from <= |s|
    ensures from <= p <= |s|
    ensures forall j: nat :: p <= j ==> !OccursAt(s, sep, j)
    ensures p == from <==> forall j: nat :: from <= j ==> !OccursAt(s, sep, j)
    ensures p != from ==> from + |sep| <= p && OccursAt(s, sep, p - |sep|)
    decreases |s| - from
  {
    match IndexFrom(s, sep, from)
    case None => from
    case Some(i) => LastPieceStart(s, sep, i + |sep|)
  }

  /**
   * `s.split(sep)[-1]`: the text after the last occurrence of `sep` found
   * by the scan, or the whole of `s` when there is none. The contract pins
   * the result down only for a separator that cannot overlap itself, such as
   * `fresh` or `rotten`; for one that can (`"aaa".split("aa")[-1]` is `"a"`),
   * the body alone decides which suffix the scan leaves.
   */
  function SplitLast(s: string, sep: string): (r: string)
    requires sep != []
    ensures |r| <= |s| && EndsWith(s, r)
    ensures !Contains(r, sep)
    ensures r == s <==> !Contains(s, sep)
    ensures r != s ==> EndsWith(s[..|s| - |r|], sep)
  {
    var p := LastPieceStart(s, sep, 0);
    OccursInSuffix(s, sep, p);
    assert p > 0 ==> s[..p][p - |sep|..] == s[p - |sep|..p];
    s[p..]
  }

  /** An occurrence in a suffix is an occurrence in the whole string, shifted. */
  lemma OccursInSuffix(s: string, sep: string, p: nat)
    requires p <= |s|
    ensures forall j: nat :: OccursAt(s[p..], sep, j) <==> OccursAt(s, sep, p + j)
  {
    forall j: nat ensures OccursAt(s[p..], sep, j) <==> OccursAt(s, sep, p + j) {
      if p + j + |sep| <= |s| {
        assert s[p..][j..j + |sep|] == s[p + j..p + j + |sep|];
      }
    }
  }

  /** A separator found at the very start, and nowhere in the rest, leaves the rest as the last piece. */
  lemma {:induction false} SplitLastAfterLeadingSeparator(sep: string, rest: string)
    requires sep != [] && !Contains(rest, sep)
    ensures SplitLast(sep + rest, sep) == rest
  {
    var s := sep + rest;
    assert OccursAt(s, sep, 0) by { assert s[..|sep|] == sep; }
    assert s[|sep|..] == rest;
    OccursInSuffix(s, sep, |sep|);
    assert forall j: nat :: |sep| <= j ==> !OccursAt(s, sep, j) by {
      forall j: nat | |sep| <= j ensures !OccursAt(s, sep, j) {
        assert !OccursAt(rest, sep, j - |sep|);
      }
    }
    assert LastPieceStart(s, sep, |sep|) == |sep|;
  }
}
