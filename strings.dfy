/**
 * The two string operations the category screen uses: `String.prototype.includes`
 * and `String.prototype.replace` with a string pattern, which replaces only the
 * FIRST occurrence of the pattern.
 */
module Strings {
  import opened Options

  /** `pat` occurs in `s` starting at position `j`. */
  predicate OccursAt(s: string, pat: string, j: nat)
  {
    j + |pat| <= |s| && s[j..j + |pat|] == pat
  }

  /** `i` is the leftmost position at which `pat` occurs in `s`. */
  predicate FirstOccurrence(s: string, pat: string, i: nat)
  {
    OccursAt(s, pat, i) && forall j: nat | j < i :: !OccursAt(s, pat, j)
  }

  /** The leftmost occurrence of `pat` in `s` at or after position `from`. */
  function IndexFrom(s: string, pat: string, from: nat): (r: Option<nat>)
    requires from <= |s|
    ensures r.Some? ==> from <= r.value && OccursAt(s, pat, r.value)
    ensures r.Some? ==> forall j: nat | from <= j < r.value :: !OccursAt(s, pat, j)
    ensures r.None? ==> forall j: nat | from <= j :: !OccursAt(s, pat, j)
    decreases |s| - from
  {
    if OccursAt(s, pat, from) then Some(from)
    else if from == |s| then None
    else IndexFrom(s, pat, from + 1)
  }

  /** The leftmost occurrence of `pat` in `s` (JavaScript's `indexOf`, with `None` for -1). */
  function IndexOf(s: string, pat: string): (r: Option<nat>)
    ensures r.Some? <==> exists j: nat :: OccursAt(s, pat, j)
    ensures r.Some? ==> FirstOccurrence(s, pat, r.value)
    ensures forall i: nat :: FirstOccurrence(s, pat, i) ==> r == Some(i)
  {
    IndexFrom(s, pat, 0)
  }

  /** `s.includes(pat)`: `pat` occurs somewhere in `s`. */
  function Contains(s: string, pat: string): (r: bool)
    ensures r <==> exists j: nat :: OccursAt(s, pat, j)
  {
    IndexOf(s, pat).Some?
  }

  /**
   * `s.replace(pat, rep)` for a string `pat`: only the leftmost occurrence is
   * replaced. `rep` is taken literally; the `$&`, `$$`, `` $` `` and `$'`
   * patterns a JavaScript replacement string expands are not modelled.
   */
  function ReplaceFirst(s: string, pat: string, rep: string): (r: string)
    ensures !Contains(s, pat) ==> r == s
    ensures forall i: nat :: FirstOccurrence(s, pat, i) ==> r == s[..i] + rep + s[i + |pat|..]
  {
    match IndexOf(s, pat)
    case None => s
    case Some(i) => s[..i] + rep + s[i + |pat|..]
  }

  /** An occurrence of `pat` carries an occurrence of every piece of `pat`. */
  lemma PieceOccurs(s: string, pat: string, j: nat, from: nat, to: nat)
    requires OccursAt(s, pat, j) && from <= to <= |pat|
    ensures OccursAt(s, pat[from..to], j + from)
  {
    var window := s[j..j + |pat|];
    forall k | 0 <= k < to - from ensures s[j + from..j + to][k] == pat[from..to][k] {
      assert s[j + from..j + to][k] == s[j + from + k] == window[from + k];
    }
  }
}
