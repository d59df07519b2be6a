/**
 * The string operations the job relies on: `toLowerCase`, `includes` and the
 * first-occurrence `replace` of JavaScript strings (ASCII only).
 */
module Strings {
  import opened Wrappers

  function LowerChar(c: char): char {
    if 'A' <= c <= 'Z' then (c as int + 32) as char else c
  }

  /** `s.toLowerCase()` restricted to ASCII letters. */
  function ToLower(s: string): (r: string)
    ensures |r| == |s|
    ensures forall i :: 0 <= i < |s| ==> r[i] == LowerChar(s[i])
  {
    if s == [] then [] else [LowerChar(s[0])] + ToLower(s[1..])
  }

  /** `pat` occurs in `s` starting at index `j`. */
  predicate MatchesAt(s: string, pat: string, j: int) {
    0 <= j && j + |pat| <= |s| && s[j..j + |pat|] == pat
  }

  /** The first index at or after `from` where `pat` occurs in `s`. */
  function IndexFrom(s: string, pat: string, from: nat): (r: Option<nat>)
    decreases |s| - from
    ensures r.Some? ==> from <= r.value && MatchesAt(s, pat, r.value)
    ensures r.Some? ==> forall j :: from <= j < r.value ==> !MatchesAt(s, pat, j)
    ensures r.None? ==> forall j :: from <= j ==> !MatchesAt(s, pat, j)
  {
    if from + |pat| > |s| then None
    else if s[from..from + |pat|] == pat then Some(from)
    else IndexFrom(s, pat, from + 1)
  }

  /** `s.indexOf(pat)`: the first occurrence of `pat` in `s`, if any. */
  function IndexOf(s: string, pat: string): Option<nat> {
    IndexFrom(s, pat, 0)
  }

  /** `s.includes(pat)`. */
  predicate Contains(s: string, pat: string) {
    IndexOf(s, pat).Some?
  }

  lemma ContainsIff(s: string, pat: string)
    ensures Contains(s, pat) <==> exists j :: MatchesAt(s, pat, j)
  {
  }

  /** `s.replace(pat, rep)` with a string pattern: only the first occurrence is replaced. */
  function ReplaceFirst(s: string, pat: string, rep: string): (r: string)
    ensures IndexOf(s, pat).None? ==> r == s
    ensures IndexOf(s, pat).Some? ==>
      var i := IndexOf(s, pat).value;
      |r| == |s| - |pat| + |rep| && r[..i] == s[..i] && r[i..i + |rep|] == rep &&
      r[i + |rep|..] == s[i + |pat|..]
  {
    match IndexOf(s, pat)
    case None => s
    case Some(i) => s[..i] + rep + s[i + |pat|..]
  }

  /** A pattern holding a character that `s` lacks does not occur in `s`. */
  lemma MissingCharNotFound(s: string, pat: string, c: char)
    requires c in pat && c !in s
    ensures IndexOf(s, pat).None?
  {
  }

  /** A pattern holding two adjacent characters that never stand side by side in `s` does not occur in `s`. */
  lemma MissingPairNotFound(s: string, pat: string, k: nat)
    requires k + 1 < |pat|
    requires forall j :: 0 <= j < |s| - 1 ==> s[j] != pat[k] || s[j + 1] != pat[k + 1]
    ensures IndexOf(s, pat).None?
  {
    forall j | 0 <= j
      ensures !MatchesAt(s, pat, j)
    {
      if j + |pat| <= |s| {
        assert s[j..j + |pat|][k] == s[j + k] && s[j..j + |pat|][k + 1] == s[j + k + 1];
      }
    }
  }

  /** Every string contains itself. */
  lemma ContainsSelf(s: string)
    ensures Contains(s, s)
  {
    assert s[0..|s|] == s;
  }

  /** Replacing a whole string by `rep` gives `rep`. */
  lemma ReplaceWhole(pat: string, rep: string)
    ensures ReplaceFirst(pat, pat, rep) == rep
  {
    assert pat[0..|pat|] == pat;
    assert (pat[..0] + rep + pat[|pat|..]) == rep;
  }
}
