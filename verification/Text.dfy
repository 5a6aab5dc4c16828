/**
 * Text as sequences of Unicode scalar values, with the few string primitives the DSML layer is built from.
 * Searches run over indices of one text instead of slices of it: `strip_prefix` becomes "occurs at, then advance".
 */
module Text {
  import opened Wrappers

  /** Index of the first `c` at or after `from`, or `|t|` when there is none. */
  function IndexFrom(t: string, c: char, from: nat): (i: nat)
    requires from <= |t|
    ensures from <= i <= |t|
    ensures i < |t| ==> t[i] == c
    ensures forall k :: from <= k < i ==> t[k] != c
    decreases |t| - from
  {
    if from == |t| || t[from] == c then from else IndexFrom(t, c, from + 1)
  }

  /** Whether `pat` occurs in `t` at index `i`. */
  predicate OccursAt(t: string, pat: string, i: nat) {
    i + |pat| <= |t| && forall k :: 0 <= k < |pat| ==> t[i + k] == pat[k]
  }

  /** Index of the first occurrence of `pat` at or after `from`. */
  function FindFrom(t: string, pat: string, from: nat): (r: Option<nat>)
    requires from <= |t|
    ensures r.Some? ==> from <= r.value && OccursAt(t, pat, r.value)
    ensures forall k :: from <= k < (if r.Some? then r.value else |t| + 1) ==> !OccursAt(t, pat, k)
    decreases |t| - from
  {
    if OccursAt(t, pat, from) then Some(from)
    else if from == |t| then None
    else FindFrom(t, pat, from + 1)
  }

  /** The Unicode White_Space property, which is what `trim_start` removes. */
  predicate IsWhitespace(c: char) {
    || '\U{0009}' <= c <= '\U{000D}' || c == ' ' || c == '\U{0085}' || c == '\U{00A0}' || c == '\U{1680}'
    || '\U{2000}' <= c <= '\U{200A}' || c == '\U{2028}' || c == '\U{2029}' || c == '\U{202F}'
    || c == '\U{205F}' || c == '\U{3000}'
  }

  /** Index of the first character at or after `from` that is not whitespace: `trim_start`. */
  function SkipWs(t: string, from: nat): (i: nat)
    requires from <= |t|
    ensures from <= i <= |t|
    ensures forall k :: from <= k < i ==> IsWhitespace(t[k])
    ensures i < |t| ==> !IsWhitespace(t[i])
    decreases |t| - from
  {
    if from == |t| || !IsWhitespace(t[from]) then from else SkipWs(t, from + 1)
  }

  /** `t` on `[i, e)` reads the same as `u` on `[i + d, e + d)`. */
  predicate Agree(t: string, u: string, i: int, e: int, d: int) {
    && 0 <= i <= e <= |t| && 0 <= i + d && e + d <= |u|
    && forall k :: i <= k < e ==> t[k] == u[k + d]
  }

  /** Length in UTF-8 of one character. */
  function Utf8Len(c: char): (n: nat)
    ensures 1 <= n <= 4
  {
    if c < '\U{0080}' then 1 else if c < '\U{0800}' then 2 else if c < '\U{10000}' then 3 else 4
  }

  /** Length in UTF-8 of a text: what Rust's `str::len` returns. */
  function Bytes(t: string): nat {
    if t == [] then 0 else Utf8Len(t[0]) + Bytes(t[1..])
  }

  lemma {:induction false} BytesConcat(a: string, b: string)
    ensures Bytes(a + b) == Bytes(a) + Bytes(b)
  {
    if a == [] {
      assert a + b == b;
    } else {
      assert (a + b)[1..] == a[1..] + b;
      BytesConcat(a[1..], b);
    }
  }

  lemma SkipWsLocal(t: string, u: string, i: nat, e: int, d: int)
    requires Agree(t, u, i, e, d) && SkipWs(t, i) < e
    ensures SkipWs(u, i + d) == SkipWs(t, i) + d
  {
    var j, j' := SkipWs(t, i), SkipWs(u, i + d);
    assert t[j] == u[j + d];
    assert forall k :: i + d <= k < e + d ==> u[k] == t[k - d];
  }

  lemma IndexFromLocal(t: string, u: string, c: char, i: nat, e: int, d: int)
    requires Agree(t, u, i, e, d) && IndexFrom(t, c, i) < e
    ensures IndexFrom(u, c, i + d) == IndexFrom(t, c, i) + d
  {
    var j, j' := IndexFrom(t, c, i), IndexFrom(u, c, i + d);
    assert t[j] == u[j + d];
    assert forall k :: i + d <= k < e + d ==> u[k] == t[k - d];
  }

  /** A pattern without the character `stop` occurs before a `stop` in both texts or in neither. */
  lemma OccursLocal(t: string, u: string, pat: string, i: nat, e: int, d: int, stop: char)
    requires Agree(t, u, i, e, d) && i < e && t[e - 1] == stop && stop !in pat
    ensures OccursAt(t, pat, i) <==> OccursAt(u, pat, i + d)
    ensures OccursAt(t, pat, i) ==> i + |pat| < e
  {
    var n := e - 1 - i;
    assert t[i + n] == u[i + n + d] == stop;
    if n < |pat| {
      assert pat[n] in pat;
    }
  }
}
