/**
 * The string operations the gateway relies on, with Python's semantics:
 * `str.startswith`, `str.lower` (ASCII only), `str.rstrip(c)` and
 * `str.replace(old, new, 1)`.
 */
module Text {
  import opened Wrappers

  /** `s.startswith(p)`. */
  predicate StartsWith(s: string, p: string) {
    |p| <= |s| && s[..|p|] == p
  }

  predicate IsUpper(c: char) {
    'A' <= c <= 'Z'
  }

  /** ASCII lower-casing of one character. */
  function LowerChar(c: char): (r: char)
    ensures !IsUpper(r)
    ensures !IsUpper(c) ==> r == c
    ensures IsUpper(c) ==> 'a' <= r <= 'z' && r as int - 'a' as int == c as int - 'A' as int
  {
    if IsUpper(c) then (c as int + 32) as char else c
  }

  /** `s.lower()`, restricted to ASCII letters. */
  function Lower(s: string): (r: string)
    ensures |r| == |s|
    ensures forall i :: 0 <= i < |s| ==> r[i] == LowerChar(s[i])
  {
    seq(|s|, i requires 0 <= i < |s| => LowerChar(s[i]))
  }

  /**
   * `s.rstrip(c)`: every trailing `c` is removed, not only the last one.
   * The result is the longest prefix of `s` that does not end in `c`,
   * and what was cut off consists of `c` alone.
   */
  function RStrip(s: string, c: char): (r: string)
    ensures r <= s
    ensures r == [] || r[|r| - 1] != c
    ensures forall i :: |r| <= i < |s| ==> s[i] == c
  {
    if |s| > 0 && s[|s| - 1] == c then RStrip(s[..|s| - 1], c) else s
  }

  /** Stripping twice strips nothing more. */
  lemma RStripIdempotent(s: string, c: char)
    ensures RStrip(RStrip(s, c), c) == RStrip(s, c)
  {
  }

  /** `pat` occurs in `s` starting at index `j`. */
  predicate OccursAt(s: string, pat: string, j: nat) {
    j + |pat| <= |s| && s[j..j + |pat|] == pat
  }

  /**
   * The index of the first occurrence of `pat` in `s` at or after `from`,
   * as `str.find` computes it (an empty `pat` occurs at `from`).
   */
  function IndexOf(s: string, pat: string, from: nat): (r: Option<nat>)
    requires from <= |s|
    ensures r.Some? ==> from <= r.value && OccursAt(s, pat, r.value)
    ensures r.Some? ==> forall j: nat :: from <= j < r.value ==> !OccursAt(s, pat, j)
    ensures r.None? ==> forall j: nat :: from <= j ==> !OccursAt(s, pat, j)
    decreases |s| - from
  {
    if from + |pat| > |s| then None
    else if s[from..from + |pat|] == pat then Some(from)
    else IndexOf(s, pat, from + 1)
  }

  /** `s.replace(prefix, repl, 1)`: the first occurrence of `prefix` is replaced by `repl`. */
  function ReplaceFirst(s: string, prefix: string, repl: string): string {
    match IndexOf(s, prefix, 0)
    case Some(i) => s[..i] + repl + s[i + |prefix|..]
    case None => s
  }

  /**
   * When `prefix` is a prefix of `s`, its first occurrence is at index 0, so
   * `replace(prefix, repl, 1)` substitutes that prefix and nothing else.
   */
  lemma ReplaceFirstOfPrefix(s: string, prefix: string, repl: string)
    requires StartsWith(s, prefix)
    ensures ReplaceFirst(s, prefix, repl) == repl + s[|prefix|..]
  {
    assert IndexOf(s, prefix, 0) == Some(0);
  }
}
