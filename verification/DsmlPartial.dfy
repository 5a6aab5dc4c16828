/**
 * Partial opening tags: how much of the end of a buffer the streaming accumulator holds back because it may still grow
 * into an outer opening tag. `HeldExactlyWhenBare` says for which tags that is enough.
 */
module DsmlPartial {
  import opened Wrappers
  import opened Text
  import opened DsmlTags

  /** The end of `t` from `i` on is a prefix of `pat`. */
  predicate EndIsPrefixOf(t: string, i: nat, pat: string) {
    i <= |t| <= i + |pat| && forall k :: i <= k < |t| ==> t[k] == pat[k - i]
  }

  /** The marker fits at `i`, and a partial outer name, or nothing, follows it and optional whitespace. */
  predicate PartialName(t: string, i: nat, marker: string) {
    && OccursAt(t, marker, i)
    && var after := SkipWs(t, i + |marker|);
       after == |t| || exists name :: name in TOOL_CALL_TAGS && EndIsPrefixOf(t, after, name)
  }

  /** `could_be_open_tag_prefix` on the end of `t` that starts at `i`. */
  predicate CouldBeOpenTagPrefix(t: string, i: nat) {
    && OccursAt(t, "<", i)
    && IndexFrom(t, '>', i + 1) == |t|
    && (|| (exists m :: m in MARKERS && EndIsPrefixOf(t, i + 1, m))
        || (exists m :: m in MARKERS && PartialName(t, i + 1, m)))
  }

  /** Whether the end of `t` from `i` on is short enough and shaped like a partial opening tag. */
  predicate Holdable(t: string, i: nat)
    requires i <= |t|
  {
    Bytes(t[i..]) <= MAX_TAG_LEN && CouldBeOpenTagPrefix(t, i)
  }

  /** Start of the longest end of `t`, from `i` on, that must be held back; `|t|` when nothing is. */
  function KeepFrom(t: string, i: nat): (k: nat)
    requires i <= |t|
    ensures i <= k <= |t|
    ensures k < |t| ==> Holdable(t, k)
    ensures forall j :: i <= j < k ==> !Holdable(t, j)
    decreases |t| - i
  {
    if i == |t| || Holdable(t, i) then i else KeepFrom(t, i + 1)
  }

  /** The byte length `longest_partial_open_tag_suffix` returns for `t`. */
  function HeldBytes(t: string): nat {
    Bytes(t[KeepFrom(t, 0)..])
  }

  /** The character at which the last `n` bytes of `t` start, if that is a character boundary. */
  function BoundaryFromEnd(t: string, n: nat, i: nat): (r: Option<nat>)
    requires i <= |t|
    ensures r.Some? ==> i <= r.value <= |t| && Bytes(t[r.value..]) == n
    ensures r.None? ==> forall j :: i <= j <= |t| ==> Bytes(t[j..]) != n
    decreases |t| - i
  {
    if Bytes(t[i..]) == n then Some(i) else if i == |t| then None else BoundaryFromEnd(t, n, i + 1)
  }

  lemma BytesShrink(t: string, i: nat, j: nat)
    requires i <= j <= |t|
    ensures Bytes(t[j..]) <= Bytes(t[i..])
    ensures i < j ==> Bytes(t[j..]) < Bytes(t[i..])
  {
    assert t[i..] == t[i..j] + t[j..];
    BytesConcat(t[i..j], t[j..]);
  }

  /** The descending byte scan of the source, with its skip of positions inside a character. */
  method LongestPartialOpenTagSuffix(buf: string) returns (n: nat)
    ensures n == HeldBytes(buf)
  {
    hide CouldBeOpenTagPrefix;
    n := if Bytes(buf) < MAX_TAG_LEN then Bytes(buf) else MAX_TAG_LEN;
    forall j | 0 <= j <= |buf|
      ensures Bytes(buf[j..]) <= Bytes(buf)
    {
      assert buf[0..] == buf;
      BytesShrink(buf, 0, j);
    }
    while n > 0
      invariant n <= MAX_TAG_LEN
      invariant forall j :: 0 <= j <= |buf| && Bytes(buf[j..]) > n ==> !Holdable(buf, j)
    {
      var start := BoundaryFromEnd(buf, n, 0);
      if start.Some? && CouldBeOpenTagPrefix(buf, start.value) {
        KeepIs(buf, start.value);
        return;
      }
      forall j | 0 <= j <= |buf| && Bytes(buf[j..]) == n
        ensures !Holdable(buf, j)
      {
        if start.value < j {
          BytesShrink(buf, start.value, j);
        } else if j < start.value {
          BytesShrink(buf, j, start.value);
        }
      }
      n := n - 1;
    }
    KeepIs(buf, |buf|);
  }

  lemma KeepIs(t: string, k: nat)
    requires k <= |t| && (k < |t| ==> Holdable(t, k))
    requires forall j :: 0 <= j <= |t| && Bytes(t[j..]) > Bytes(t[k..]) ==> !Holdable(t, j)
    ensures KeepFrom(t, 0) == k
  {
    hide CouldBeOpenTagPrefix;
    var k' := KeepFrom(t, 0);
    if k' < k {
      BytesShrink(t, k', k);
    }
  }

  /** The held byte count points back at the character the held end starts with. */
  lemma HeldBytesBoundary(t: string)
    ensures BoundaryFromEnd(t, HeldBytes(t), 0) == Some(KeepFrom(t, 0))
  {
    hide Holdable;
    var k := KeepFrom(t, 0);
    var b := BoundaryFromEnd(t, HeldBytes(t), 0);
    if b.Some? && b.value < k {
      BytesShrink(t, b.value, k);
    } else if b.Some? && k < b.value {
      BytesShrink(t, k, b.value);
    }
  }

  // ---------- Bare tags ----------

  /** The outer opening tag from `p` to `q` has neither whitespace nor attributes after its name. */
  predicate IsBare(t: string, p: nat, q: nat) {
    && SkipMarker(t, p + 1).Some?
    && exists name :: name in TOOL_CALL_TAGS && OccursAt(t, name, SkipMarker(t, p + 1).value)
                      && SkipMarker(t, p + 1).value + |name| + 1 == q
  }

  /** Bare, and at most 64 bytes before its '>'. */
  predicate ShortBare(t: string, p: nat, q: nat) {
    p < q <= |t| && IsBare(t, p, q) && Bytes(t[p..q - 1]) <= MAX_TAG_LEN
  }

  lemma BareIsPlain(t: string, p: nat, q: nat)
    requires p < q && IsBare(t, p, q)
    ensures q <= |t| + 1 && forall k :: p < k < q - 1 ==> t[k] != '<' && t[k] != '>'
  {
    hide SkipMarker, OccursAt;
    OuterNamesArePlain();
    SkipMarkerPlain(t, p + 1);
    var i := SkipMarker(t, p + 1).value;
    var name :| name in TOOL_CALL_TAGS && OccursAt(t, name, i) && i + |name| + 1 == q;
    assert Plain(name);
    OccursPlain(t, name, i);
  }

  /** The marker that `SkipMarker` skips. */
  lemma MarkerOf(t: string, i: nat) returns (m: string)
    requires SkipMarker(t, i).Some?
    ensures m in MARKERS && OccursAt(t, m, i) && SkipMarker(t, i).value == SkipWs(t, i + |m|)
  {
    m := SkipFirstForm(t, i, MARKERS);
  }

  lemma {:induction false} SkipFirstForm(t: string, i: nat, forms: seq<string>) returns (m: string)
    requires SkipFirst(t, i, forms).Some?
    ensures m in forms && OccursAt(t, m, i) && SkipFirst(t, i, forms).value == i + |m|
    decreases |forms|
  {
    if OccursAt(t, forms[0], i) {
      m := forms[0];
    } else {
      m := SkipFirstForm(t, i, forms[1..]);
    }
  }

  /** A prefix that stops inside the marker is a prefix of the marker. */
  lemma EndInsidePattern(t: string, u: string, i: nat, pat: string)
    requires t <= u && i <= |t| <= i + |pat| && OccursAt(u, pat, i)
    ensures EndIsPrefixOf(t, i, pat)
  {
    forall k | i <= k < |t|
      ensures t[k] == pat[k - i]
    {
      assert u[i + (k - i)] == pat[k - i];
    }
  }

  lemma SkipWsInPrefix(t: string, u: string, i: nat)
    requires t <= u && i <= |t|
    ensures SkipWs(t, i) == if SkipWs(u, i) < |t| then SkipWs(u, i) else |t|
  {
    assert forall k :: 0 <= k < |t| ==> t[k] == u[k];
  }

  lemma OccursInPrefix(t: string, u: string, pat: string, i: nat)
    requires t <= u && i + |pat| <= |t| && OccursAt(u, pat, i)
    ensures OccursAt(t, pat, i)
  {
    assert forall k :: 0 <= k < |t| ==> t[k] == u[k];
  }

  /** A prefix that stops after the marker of a bare tag shows a partial name. */
  lemma PartialNameInPrefix(t: string, u: string, i: nat, marker: string, name: string)
    requires t <= u && i + |marker| <= |t| && OccursAt(u, marker, i) && name in TOOL_CALL_TAGS
    requires var after := SkipWs(u, i + |marker|); OccursAt(u, name, after) && |t| <= after + |name|
    ensures PartialName(t, i, marker)
  {
    hide EndIsPrefixOf, TOOL_CALL_TAGS, IsWhitespace, OccursAt;
    OccursInPrefix(t, u, marker, i);
    SkipWsInPrefix(t, u, i + |marker|);
    var after := SkipWs(u, i + |marker|);
    if after < |t| {
      EndInsidePattern(t, u, after, name);
    }
  }

  /** Every proper prefix of a bare opening tag looks like a partial tag: nothing of it is let go too early. */
  lemma PrefixOfBareIsPartial(t: string, u: string, p: nat, q: nat)
    requires t <= u && p < |t| < q && u[p] == '<' && IsBare(u, p, q)
    ensures CouldBeOpenTagPrefix(t, p)
  {
    hide EndIsPrefixOf, PartialName, SkipMarker, MARKERS, TOOL_CALL_TAGS, OccursAt;
    BracketAlone(t, u, p, q);
    var m := MarkerOf(u, p + 1);
    var i := SkipMarker(u, p + 1).value;
    var name :| name in TOOL_CALL_TAGS && OccursAt(u, name, i) && i + |name| + 1 == q;
    if |t| <= p + 1 + |m| {
      EndInsidePattern(t, u, p + 1, m);
    } else {
      PartialNameInPrefix(t, u, p + 1, m, name);
    }
  }

  /** The part of a bare tag that has arrived: a '<', and no '>' yet. */
  lemma BracketAlone(t: string, u: string, p: nat, q: nat)
    requires t <= u && p < |t| < q && u[p] == '<' && IsBare(u, p, q)
    ensures OccursAt(t, "<", p) && IndexFrom(t, '>', p + 1) == |t|
  {
    hide SkipMarker, MARKERS, TOOL_CALL_TAGS, IsBare;
    BareIsPlain(u, p, q);
    assert forall k :: 0 <= k < |t| ==> t[k] == u[k];
  }

  /** What the accumulator keeps starts no later than a short bare tag that is still arriving. */
  lemma {:induction false} BareTagIsHeld(t: string, u: string, p: nat, q: nat)
    requires t <= u && p < |t| < q && u[p] == '<' && ShortBare(u, p, q)
    ensures Holdable(t, p) && KeepFrom(t, 0) <= p
  {
    hide CouldBeOpenTagPrefix, IsBare;
    PrefixOfBareIsPartial(t, u, p, q);
    assert u[p..q - 1] == t[p..] + u[|t|..q - 1];
    BytesConcat(t[p..], u[|t|..q - 1]);
  }

  // ---------- Partial tags in parts of a text ----------

  lemma SkipWsShift(t: string, u: string, i: nat, d: nat)
    requires d <= |u| && u[d..] == t && i <= |t|
    ensures SkipWs(u, i + d) == SkipWs(t, i) + d
  {
    hide IsWhitespace;
    var j := SkipWs(u, i + d);
    assert forall k :: 0 <= k < |t| ==> t[k] == u[k + d];
    assert j < |u| ==> t[j - d] == u[j];
  }

  lemma EndShift(t: string, u: string, i: nat, d: nat, pat: string)
    requires d <= |u| && u[d..] == t
    ensures EndIsPrefixOf(u, i + d, pat) <==> EndIsPrefixOf(t, i, pat)
    ensures OccursAt(u, pat, i + d) <==> OccursAt(t, pat, i)
  {
    assert forall k :: 0 <= k < |t| ==> t[k] == u[k + d];
    assert forall k :: d <= k < |u| ==> u[k] == t[k - d];
  }

  lemma PartialNameShift(t: string, u: string, i: nat, d: nat, marker: string)
    requires d <= |u| && u[d..] == t
    ensures PartialName(u, i + d, marker) <==> PartialName(t, i, marker)
  {
    hide TOOL_CALL_TAGS, EndIsPrefixOf, OccursAt, IsWhitespace;
    EndShift(t, u, i, d, marker);
    if OccursAt(t, marker, i) {
      OccursEnds(t, i, marker);
      SkipWsShift(t, u, i + |marker|, d);
      forall name | name in TOOL_CALL_TAGS
        ensures EndIsPrefixOf(u, SkipWs(t, i + |marker|) + d, name) <==> EndIsPrefixOf(t, SkipWs(t, i + |marker|), name)
      {
        EndShift(t, u, SkipWs(t, i + |marker|), d, name);
      }
    }
  }

  /** What is held depends only on the text from its start on. */
  lemma HoldableShift(t: string, u: string, i: nat, d: nat)
    requires d <= |u| && u[d..] == t && i <= |t|
    ensures Holdable(u, i + d) <==> Holdable(t, i)
  {
    hide PartialName, MARKERS, EndIsPrefixOf, OccursAt;
    assert u[i + d..] == t[i..];
    EndShift(t, u, i, d, "<");
    if OccursAt(t, "<", i) {
      OccursEnds(t, i, "<");
      NoGtShift(t, u, i + 1, d);
    }
    forall m | m in MARKERS
      ensures EndIsPrefixOf(u, i + 1 + d, m) <==> EndIsPrefixOf(t, i + 1, m)
      ensures PartialName(u, i + 1 + d, m) <==> PartialName(t, i + 1, m)
    {
      EndShift(t, u, i + 1, d, m);
      PartialNameShift(t, u, i + 1, d, m);
    }
  }

  lemma NoGtShift(t: string, u: string, i: nat, d: nat)
    requires d <= |u| && u[d..] == t && i <= |t|
    ensures IndexFrom(u, '>', i + d) == |u| <==> IndexFrom(t, '>', i) == |t|
  {
    assert forall k :: 0 <= k < |t| ==> t[k] == u[k + d];
    assert forall k :: d <= k < |u| ==> u[k] == t[k - d];
  }

  /** What is held of a text was held of every part of it that had arrived. */
  lemma HoldableInPrefix(t: string, u: string, i: nat)
    requires t <= u && i < |t| && Holdable(u, i)
    ensures Holdable(t, i)
  {
    hide PartialName, MARKERS, EndIsPrefixOf;
    assert u[i..] == t[i..] + u[|t|..];
    BytesConcat(t[i..], u[|t|..]);
    assert t[i] == u[i] && u[i + 0] == "<"[0];
    assert OccursAt(t, "<", i);
    assert forall k :: 0 <= k < |t| ==> t[k] == u[k];
    if m :| m in MARKERS && EndIsPrefixOf(u, i + 1, m) {
      EndInPrefix(t, u, i + 1, m);
    } else {
      var m :| m in MARKERS && PartialName(u, i + 1, m);
      PartialNameCut(t, u, i + 1, m);
    }
  }

  lemma EndInPrefix(t: string, u: string, i: nat, pat: string)
    requires t <= u && i <= |t| && EndIsPrefixOf(u, i, pat)
    ensures EndIsPrefixOf(t, i, pat)
  {
    assert forall k :: 0 <= k < |t| ==> t[k] == u[k];
  }

  lemma PartialNameCut(t: string, u: string, i: nat, marker: string)
    requires t <= u && i <= |t| && PartialName(u, i, marker)
    ensures EndIsPrefixOf(t, i, marker) || PartialName(t, i, marker)
  {
    hide TOOL_CALL_TAGS, EndIsPrefixOf, OccursAt, IsWhitespace;
    OccursEnds(u, i, marker);
    if |t| <= i + |marker| {
      EndInsidePattern(t, u, i, marker);
    } else {
      OccursInPrefix(t, u, marker, i);
      SkipWsInPrefix(t, u, i + |marker|);
      var after := SkipWs(u, i + |marker|);
      if after < |t| {
        var name :| name in TOOL_CALL_TAGS && EndIsPrefixOf(u, after, name);
        EndInPrefix(t, u, after, name);
      }
    }
  }

  /** What has been let go of stays let go of, and what is held is held alone just as in the whole text. */
  lemma KeepContinues(a: string, d: string)
    ensures var h := KeepFrom(a, 0);
            KeepFrom(a + d, 0) == h + KeepFrom((a + d)[h..], 0)
  {
    hide Holdable;
    var h := KeepFrom(a, 0);
    var u := a + d;
    var y := u[h..];
    var k, k' := KeepFrom(u, 0), KeepFrom(y, 0);
    if k < h {
      HoldableInPrefix(a, u, k);
      assert false;
    }
    if k < |u| {
      HoldableShift(y, u, k - h, h);
    }
    if k' < |y| {
      HoldableShift(y, u, k', h);
    }
  }

  // ---------- For which tags this is enough ----------

  /** Marker characters are neither whitespace nor the first letter of an outer name; names hold no whitespace. */
  lemma MarkerCharsAreForeign(m: string, name: string)
    requires m in MARKERS && name in TOOL_CALL_TAGS
    ensures name != "" && forall c :: c in name ==> !IsWhitespace(c)
    ensures forall c :: c in m ==> !IsWhitespace(c) && c != name[0]
  {
    hide IsWhitespace;
    OuterNamesArePlain();
    assert Plain(name);
    MarkerChars(m);
    NameChars(name);
  }

  predicate BarOrCapital(c: char) {
    c == '\U{FF5C}' || c == 'D' || c == 'S' || c == 'M' || c == 'L'
  }

  lemma MarkerChars(m: string)
    requires m in MARKERS
    ensures forall c :: c in m ==> BarOrCapital(c) && !IsWhitespace(c)
  {
  }

  lemma NameChars(name: string)
    requires name in TOOL_CALL_TAGS
    ensures forall c :: c in name ==> ('a' <= c <= 'z' || c == '_') && !IsWhitespace(c)
  {
  }

  /** `u` is one outer opening tag and nothing else. */
  predicate IsOuterTag(u: string) {
    MatchTagAt(u, 0, TOOL_CALL_TAGS, false) == Some(|u|)
  }

  /** Proper prefix of a bare outer opening tag. */
  ghost predicate GrowsIntoTag(t: string) {
    exists u :: t < u && IsOuterTag(u) && IsBare(u, 0, |u|)
  }

  /** Name and position after the marker of an outer opening tag. */
  lemma TagParts(u: string) returns (m: string, i: nat, name: string)
    requires IsOuterTag(u)
    ensures m in MARKERS && OccursAt(u, m, 1) && i == SkipWs(u, 1 + |m|)
    ensures SkipMarker(u, 1) == Some(i) && u[0] == '<'
    ensures name in TOOL_CALL_TAGS && OccursAt(u, name, i) && OpenTail(u, i + |name|) == Some(|u|)
    ensures IndexFrom(u, '>', 0) == |u| - 1 && i + |name| < |u|
  {
    hide SkipMarker, MatchName, TOOL_CALL_TAGS, MARKERS, OpenTail;
    OuterNamesArePlain();
    MatchEndsAtGt(u, 0, TOOL_CALL_TAGS, false);
    m := MarkerOf(u, 1);
    i := SkipMarker(u, 1).value;
    name := NameOf(u, i, TOOL_CALL_TAGS);
  }

  lemma {:induction false} NameOf(t: string, i: nat, names: seq<string>) returns (name: string)
    requires MatchName(t, i, names, false).Some?
    ensures name in names && OccursAt(t, name, i) && OpenTail(t, i + |name|) == MatchName(t, i, names, false)
    decreases |names|
  {
    hide OpenTail;
    if OccursAt(t, names[0], i) && OpenTail(t, i + |names[0]|).Some? {
      name := names[0];
    } else {
      name := NameOf(t, i, names[1..]);
    }
  }

  lemma EndCharIn(t: string, i: nat, pat: string, k: nat)
    requires EndIsPrefixOf(t, i, pat) && i <= k < |t|
    ensures k - i < |pat| && t[k] == pat[k - i] && t[k] in pat
  {
  }

  lemma OccursCharIn(t: string, i: nat, pat: string, k: nat)
    requires OccursAt(t, pat, i) && i <= k < i + |pat|
    ensures k < |t| && t[k] == pat[k - i] && t[k] in pat
  {
    assert t[i + (k - i)] == pat[k - i];
  }

  /** The tag without its '>' goes past its marker, so it is no prefix of one. */
  lemma NotInsideMarker(u: string, t: string, i: nat, name: string, m: string)
    requires t <= u && name in TOOL_CALL_TAGS && OccursAt(u, name, i) && 1 <= i < |t| && m in MARKERS
    ensures !EndIsPrefixOf(t, 1, m)
  {
    hide TOOL_CALL_TAGS, MARKERS, EndIsPrefixOf, OccursAt;
    MarkerCharsAreForeign(m, name);
    OccursCharIn(u, i, name, i);
    assert t[i] == u[i];
    if EndIsPrefixOf(t, 1, m) {
      EndCharIn(t, 1, m, i);
    }
  }

  /** A partial name that starts right after a character that is no whitespace starts with that character. */
  lemma PartialNameStart(t: string, k: nat, name: string)
    requires k < |t| && !IsWhitespace(t[k])
    requires SkipWs(t, k) < |t| ==> EndIsPrefixOf(t, SkipWs(t, k), name)
    ensures name != "" && t[k] == name[0]
  {
    assert SkipWs(t, k) == k;
  }

  lemma NameStart(u: string, k: nat, name: string)
    requires k < |u| && !IsWhitespace(u[k]) && OccursAt(u, name, SkipWs(u, k)) && name != ""
    ensures u[k] == name[0]
  {
    assert SkipWs(u, k) == k;
    assert u[k + 0] == name[0];
  }

  /** Any marker that fits in the tag is the one that was skipped, if a partial name follows it. */
  lemma {:induction false} SameMarker(u: string, t: string, m: string, i: nat, name: string, m': string, name': string)
    requires t <= u && m in MARKERS && OccursAt(u, m, 1) && i == SkipWs(u, 1 + |m|)
    requires name in TOOL_CALL_TAGS && OccursAt(u, name, i) && i + |name| <= |t|
    requires m' in MARKERS && OccursAt(t, m', 1) && name' in TOOL_CALL_TAGS
    requires SkipWs(t, 1 + |m'|) < |t| ==> EndIsPrefixOf(t, SkipWs(t, 1 + |m'|), name')
    ensures |m'| == |m|
  {
    hide TOOL_CALL_TAGS, MARKERS, IsWhitespace, EndIsPrefixOf, OccursAt;
    MarkerCharsAreForeign(m, name);
    MarkerCharsAreForeign(m', name);
    MarkerCharsAreForeign(m, name');
    if |m'| < |m| {
      var k := 1 + |m'|;
      OccursCharIn(u, 1, m, k);
      assert t[k] == u[k];
      PartialNameStart(t, k, name');
    } else if |m'| > |m| {
      var k := 1 + |m|;
      OccursCharIn(t, 1, m', k);
      assert t[k] == u[k];
      NameStart(u, k, name);
    }
  }

  /** A tag all of whose prefixes are held is bare: after its name comes the '>'. */
  lemma HeldTagIsBare(u: string)
    requires IsOuterTag(u) && CouldBeOpenTagPrefix(u[..|u| - 1], 0)
    ensures IsBare(u, 0, |u|)
  {
    hide TOOL_CALL_TAGS, MARKERS, IsWhitespace, SkipMarker, EndIsPrefixOf, OccursAt, MatchTagAt;
    var t := u[..|u| - 1];
    var m, i, name := TagParts(u);
    NameNotEmpty(name);
    OccursEnds(u, 1, m);
    OccursEnds(u, i, name);
    forall m' | m' in MARKERS
      ensures !EndIsPrefixOf(t, 1, m')
    {
      NotInsideMarker(u, t, i, name, m');
    }
    if CouldBeOpenTagPrefix(t, 0) {
      var m' :| m' in MARKERS && PartialName(t, 1, m');
      PartialNameOfTag(u, t, m, i, name, m');
    }
  }

  lemma NameNotEmpty(name: string)
    requires name in TOOL_CALL_TAGS
    ensures name != ""
  {
  }

  lemma OccursEnds(t: string, i: nat, pat: string)
    requires OccursAt(t, pat, i)
    ensures i + |pat| <= |t|
  {
  }

  lemma {:induction false} PartialNameOfTag(u: string, t: string, m: string, i: nat, name: string, m': string)
    requires u != "" && t == u[..|u| - 1] && IndexFrom(u, '>', 0) == |u| - 1
    requires m in MARKERS && OccursAt(u, m, 1) && i == SkipWs(u, 1 + |m|) && SkipMarker(u, 1) == Some(i)
    requires name in TOOL_CALL_TAGS && OccursAt(u, name, i) && OpenTail(u, i + |name|) == Some(|u|) && i + |name| < |u|
    requires m' in MARKERS && PartialName(t, 1, m')
    ensures IsBare(u, 0, |u|)
  {
    hide TOOL_CALL_TAGS, MARKERS, IsWhitespace, SkipMarker, EndIsPrefixOf, OccursAt;
    MarkerCharsAreForeign(m, name);
    var after := SkipWs(t, 1 + |m'|);
    SkipWsInPrefix(t, u, 1 + |m'|);
    if after < |t| {
      var name' :| name' in TOOL_CALL_TAGS && EndIsPrefixOf(t, after, name');
      SameMarker(u, t, m, i, name, m', name');
      NameReachesEnd(u, t, i, name, name');
    } else {
      MarkerCharsAreForeign(m', name);
      SameMarker(u, t, m, i, name, m', name);
    }
  }

  lemma NameReachesEnd(u: string, t: string, i: nat, name: string, name': string)
    requires u != "" && t == u[..|u| - 1] && IndexFrom(u, '>', 0) == |u| - 1
    requires name in TOOL_CALL_TAGS && OccursAt(u, name, i) && OpenTail(u, i + |name|) == Some(|u|) && i + |name| < |u|
    requires name' in TOOL_CALL_TAGS && EndIsPrefixOf(t, i, name')
    ensures i + |name| == |t|
  {
    hide TOOL_CALL_TAGS, IsWhitespace, EndIsPrefixOf;
    NamesHaveNoWs(name');
    var k := i + |name|;
    if k < |t| {
      assert t[k] == u[k];
      EndCharIn(t, i, name', k);
    }
  }

  lemma NamesHaveNoWs(name: string)
    requires name in TOOL_CALL_TAGS
    ensures forall c :: c in name ==> !IsWhitespace(c)
  {
    hide IsWhitespace;
    NameChars(name);
  }

  /**
   * The accumulator holds back every proper prefix of an outer opening tag, wherever a delta may end, if and only if
   * the tag is bare and at most 64 bytes long before its '>'.
   */
  lemma HeldExactlyWhenBare(u: string)
    requires IsOuterTag(u)
    ensures (forall n :: 1 <= n < |u| ==> Holdable(u[..n], 0)) <==> ShortBare(u, 0, |u|)
  {
    hide CouldBeOpenTagPrefix, MatchTagAt, IsBare;
    var m, i, name := TagParts(u);
    var n := |u| - 1;
    assert u[..n][0..] == u[..n] == u[0..n];
    if Holdable(u[..n], 0) {
      HeldTagIsBare(u);
    }
    if ShortBare(u, 0, |u|) {
      forall n | 1 <= n < |u|
        ensures Holdable(u[..n], 0)
      {
        BareTagIsHeld(u[..n], u, 0, |u|);
      }
    }
  }
}
