// The few JavaScript string operations the core relies on, stated over
// `seq<char>`: `length` in UTF-16 code units, `startsWith`, `indexOf` with a
// non-empty pattern, `replace` with a string pattern and a replacement free
// of `$` patterns, and the second piece of `split`.
module Strings {
  import opened Results

  /** `s.length`: JavaScript counts UTF-16 code units, so a character outside
      the Basic Multilingual Plane (code point 0x10000 or above) counts twice. */
  function Utf16Length(s: string): (n: nat)
    ensures |s| <= n <= 2 * |s|
    ensures (forall i :: 0 <= i < |s| ==> (s[i] as int) < 0x10000) ==> n == |s|
    ensures |s| == 1 ==> n == (if s[0] as int >= 0x10000 then 2 else 1)
  {
    if s == [] then 0 else (if s[0] as int >= 0x10000 then 2 else 1) + Utf16Length(s[1..])
  }

  /** The length of a concatenation is the sum of the lengths, so together
      with the one-character case the count of a text is its characters
      with every astral one counted twice. */
  lemma {:induction false} Utf16LengthAppend(a: string, b: string)
    ensures Utf16Length(a + b) == Utf16Length(a) + Utf16Length(b)
    decreases |a|
  {
    if a != [] {
      assert (a + b)[1..] == a[1..] + b;
      Utf16LengthAppend(a[1..], b);
    } else {
      assert a + b == b;
    }
  }

  predicate StartsWith(s: string, prefix: string) {
    |prefix| <= |s| && s[..|prefix|] == prefix
  }

  /** `pat` occurs in `s` starting at index `i`. */
  predicate OccursAt(s: string, pat: string, i: nat) {
    i + |pat| <= |s| && s[i..i + |pat|] == pat
  }

  /** `s.indexOf(pat, from)` for a non-empty `pat`: the first occurrence of
      `pat` at or after `from`. (For an empty `pat` JavaScript answers
      `min(from, s.length)`; the model never searches for one.) */
  function IndexOfFrom(s: string, pat: string, from: nat): (r: Option<nat>)
    ensures r.Some? ==> from <= r.value && OccursAt(s, pat, r.value)
    ensures r.Some? ==> forall j :: from <= j < r.value ==> !OccursAt(s, pat, j)
    ensures r.None? ==> forall j :: from <= j ==> !OccursAt(s, pat, j)
    decreases |s| - from
  {
    if from + |pat| > |s| then None
    else if OccursAt(s, pat, from) then Some(from)
    else IndexOfFrom(s, pat, from + 1)
  }

  /** `s.replace(pat, rep)` with a string pattern and a replacement without
      `$` patterns (`$&`, `$$`, ...): only the first occurrence is replaced,
      by `rep` taken literally. */
  function ReplaceFirst(s: string, pat: string, rep: string): (r: string)
    ensures (forall j: nat :: !OccursAt(s, pat, j)) ==> r == s
    ensures forall k: nat :: OccursAt(s, pat, k) && (forall j: nat :: j < k ==> !OccursAt(s, pat, j)) ==>
      r == s[..k] + rep + s[k + |pat|..]
  {
    match IndexOfFrom(s, pat, 0)
    case None => s
    case Some(k) => s[..k] + rep + s[k + |pat|..]
  }

  /** `k` is the first occurrence of `pat` in `s` at or after `from`. */
  predicate FirstFrom(s: string, pat: string, from: nat, k: nat) {
    from <= k && OccursAt(s, pat, k) && forall j: nat :: from <= j < k ==> !OccursAt(s, pat, j)
  }

  /** `pat` does not occur in `s` at or after `from`. */
  ghost predicate NoneFrom(s: string, pat: string, from: nat) {
    forall j: nat :: from <= j ==> !OccursAt(s, pat, j)
  }

  /** `k` is the first occurrence of `sep` after the one at `i`. */
  predicate NextAfter(s: string, sep: string, i: nat, k: nat) {
    FirstFrom(s, sep, i + |sep|, k)
  }

  /** `s.split(sep)[1]`: the text between the first and the second occurrence
      of `sep` (or the end of `s`), and `undefined` when `sep` does not occur. */
  function SplitSecond(s: string, sep: string): (r: Option<string>)
    requires |sep| > 0
    ensures r.None? <==> NoneFrom(s, sep, 0)
    ensures forall i: nat :: FirstFrom(s, sep, 0, i) ==>
      r.Some? &&
      (NoneFrom(s, sep, i + |sep|) ==> r.value == s[i + |sep|..]) &&
      (forall k: nat :: NextAfter(s, sep, i, k) ==> r.value == s[i + |sep|..k])
  {
    match IndexOfFrom(s, sep, 0)
    case None => None
    case Some(i) =>
      var start := i + |sep|;
      match IndexOfFrom(s, sep, start)
      case None => Some(s[start..])
      case Some(j) => Some(s[start..j])
  }
}
