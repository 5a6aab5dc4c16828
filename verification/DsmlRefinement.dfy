/**
 * The accumulator against the batch parser: for every way of cutting a text into deltas, the stream hands out the calls
 * of the whole text, and its emitted, lost and dropped pieces together are the cleaned text.
 */
module DsmlRefinement {
  import opened Wrappers
  import opened Text
  import opened DsmlTags
  import opened DsmlPartial
  import opened DsmlParse
  import opened DsmlStream

  /**
   * Every outer opening tag the batch parser meets outside a block is bare and at most 64 bytes before its '>'; with
   * `yielding`, moreover, every closed block holds at least one call.
   */
  predicate ShortBareTags(t: string, yielding: bool)
    decreases |t|
  {
    var open := FindOpen(t, 0, TOOL_CALL_TAGS);
    open.Some? ==>
      && ShortBare(t, open.value.0, open.value.1)
      && var close := FindClose(t, open.value.1, TOOL_CALL_TAGS);
         close.Some? ==>
           && (yielding ==> ParseInvokes(t[open.value.1..close.value.0]) != [])
           && ShortBareTags(t[close.value.1..], yielding)
  }

  // ---------- Moving searches along a text ----------

  /** A search may start anywhere up to the tag it finds. */
  lemma {:induction false} FindFromLater(t: string, from: nat, to: nat, names: seq<string>, closing: bool)
    requires from <= to <= |t|
    requires FindTagFrom(t, from, names, closing).None? || to <= FindTagFrom(t, from, names, closing).value.0
    ensures FindTagFrom(t, to, names, closing) == FindTagFrom(t, from, names, closing)
    decreases |t| - from
  {
    hide MatchTagAt;
    if from < to {
      FindFromLater(t, from + 1, to, names, closing);
    }
  }

  /** Bareness is decided inside the tag, so it moves along with the text. */
  lemma BareShift(t: string, u: string, p: nat, q: nat, d: nat)
    requires d <= |u| && u[d..] == t && p + 1 < q <= |t| && t[q - 1] == '>'
    ensures ShortBare(u, p + d, q + d) == ShortBare(t, p, q)
  {
    hide SkipMarker, OccursAt, TOOL_CALL_TAGS, Plain;
    OuterNamesArePlain();
    assert Agree(t, u, p + 1, q, d);
    SkipMarkerLocal(t, u, p + 1, q, d);
    assert u[p + d..q + d - 1] == t[p..q - 1];
    if SkipMarker(t, p + 1).Some? {
      var i := SkipMarker(t, p + 1).value;
      forall name | name in TOOL_CALL_TAGS
        ensures OccursAt(t, name, i) <==> OccursAt(u, name, i + d)
      {
        NameLocal(t, u, name, i, q, d);
      }
    }
  }

  lemma NameLocal(t: string, u: string, name: string, i: nat, e: int, d: int)
    requires Agree(t, u, i, e, d) && i < e && t[e - 1] == '>' && name in TOOL_CALL_TAGS
    ensures OccursAt(t, name, i) <==> OccursAt(u, name, i + d)
  {
    OuterNamesArePlain();
    assert Plain(name);
    OccursLocal(t, u, name, i, e, d, '>');
  }

  lemma OpenSpan(t: string, p: nat)
    requires MatchTagAt(t, p, TOOL_CALL_TAGS, false).Some?
    ensures var q := MatchTagAt(t, p, TOOL_CALL_TAGS, false).value;
            p + 1 < q <= |t| && t[q - 1] == '>' && t[p] == '<' && IndexFrom(t, '>', p) == q - 1
  {
    hide SkipMarker, MatchName, TOOL_CALL_TAGS;
    OuterNamesArePlain();
    MatchEndsAtGt(t, p, TOOL_CALL_TAGS, false);
  }

  /** The searches of the batch parser's first round, in a text and in the text with `a` in front. */
  lemma SearchShift(a: string, y: string)
    requires var open := FindOpen(a + y, 0, TOOL_CALL_TAGS); open.None? || |a| <= open.value.0
    ensures FindOpen(a + y, 0, TOOL_CALL_TAGS) == Shift(FindOpen(y, 0, TOOL_CALL_TAGS), |a|)
    ensures FindOpen(y, 0, TOOL_CALL_TAGS).Some? ==>
              var (p, q) := FindOpen(y, 0, TOOL_CALL_TAGS).value;
              && ShortBare(a + y, p + |a|, q + |a|) == ShortBare(y, p, q)
              && FindClose(a + y, q + |a|, TOOL_CALL_TAGS) == Shift(FindClose(y, q, TOOL_CALL_TAGS), |a|)
  {
    hide FindTagFrom, MatchTagAt, TOOL_CALL_TAGS, ShortBare, AllPlain;
    OuterNamesArePlain();
    var t, d := a + y, |a|;
    assert t[d..] == y;
    FindFromLater(t, 0, d, TOOL_CALL_TAGS, false);
    FindShift(y, t, 0, d, TOOL_CALL_TAGS, false);
    if FindOpen(y, 0, TOOL_CALL_TAGS).Some? {
      var (p, q) := FindOpen(y, 0, TOOL_CALL_TAGS).value;
      OpenTagEnds(y);
      BareShift(y, t, p, q, d);
      FindShift(y, t, q, d, TOOL_CALL_TAGS, true);
    }
  }

  lemma SliceShift(a: string, y: string, i: nat, j: nat)
    requires i <= j <= |y|
    ensures (a + y)[i + |a|..j + |a|] == y[i..j]
    ensures (a + y)[i + |a|..] == y[i..]
    ensures (a + y)[..i + |a|] == a + y[..i]
  {
  }

  lemma TagsShift(a: string, y: string, yielding: bool)
    requires var open := FindOpen(a + y, 0, TOOL_CALL_TAGS); open.None? || |a| <= open.value.0
    ensures ShortBareTags(a + y, yielding) == ShortBareTags(y, yielding)
  {
    hide FindOpen, FindClose, TOOL_CALL_TAGS, ShortBare;
    SearchShift(a, y);
    var open := FindOpen(y, 0, TOOL_CALL_TAGS);
    if open.Some? {
      var close := FindClose(y, open.value.1, TOOL_CALL_TAGS);
      if close.Some? {
        SliceShift(a, y, close.value.1, |y|);
        SliceShift(a, y, open.value.1, close.value.0);
      }
    }
  }

  /** Text in front of the first opening tag passes through the batch parser unchanged. */
  lemma ExtractShift(a: string, y: string)
    requires var open := FindOpen(a + y, 0, TOOL_CALL_TAGS); open.None? || |a| <= open.value.0
    ensures Extract(a + y).text == a + Extract(y).text
    ensures Extract(a + y).calls == Extract(y).calls
  {
    hide FindOpen, FindClose, TOOL_CALL_TAGS, ShortBare, Extract;
    SearchShift(a, y);
    var open := FindOpen(y, 0, TOOL_CALL_TAGS);
    if open.Some? {
      var close := FindClose(y, open.value.1, TOOL_CALL_TAGS);
      if close.Some? {
        ExtractBlockShifted(a, y, open.value.0, open.value.1, close.value.0, close.value.1);
      } else {
        ExtractUnfinished(y);
        ExtractUnfinished(a + y);
      }
    } else {
      ExtractUnfinished(y);
      ExtractUnfinished(a + y);
    }
  }

  lemma {:induction false} ExtractBlockShifted(a: string, y: string, p: nat, q: nat, c: nat, e: nat)
    requires FindOpen(y, 0, TOOL_CALL_TAGS) == Some((p, q)) && q <= |y|
    requires FindClose(y, q, TOOL_CALL_TAGS) == Some((c, e))
    requires FindOpen(a + y, 0, TOOL_CALL_TAGS) == Some((p + |a|, q + |a|))
    requires FindClose(a + y, q + |a|, TOOL_CALL_TAGS) == Some((c + |a|, e + |a|))
    ensures Extract(a + y).text == a + Extract(y).text
    ensures Extract(a + y).calls == Extract(y).calls
  {
    hide FindOpen, FindClose, TOOL_CALL_TAGS, ParseInvokes, Extract, Untouched;
    ExtractBlock(y, p, q, c, e);
    ExtractBlock(a + y, p + |a|, q + |a|, c + |a|, e + |a|);
    SliceShift(a, y, q, c);
    SliceShift(a, y, p, e);
    SliceShift(a, y, e, e);
    Regroup(a, y[..p], Untouched(ParseInvokes(y[q..c]), y[p..e]), Extract(y[e..]).text);
  }

  lemma Regroup(a: string, b: string, c: string, d: string)
    ensures a + (b + c + d) == (a + b) + c + d
  {
  }

  lemma OpenTagEnds(t: string)
    requires FindOpen(t, 0, TOOL_CALL_TAGS).Some?
    ensures var (p, q) := FindOpen(t, 0, TOOL_CALL_TAGS).value;
            p + 1 < q <= |t| && t[q - 1] == '>' && t[p] == '<' && MatchTagAt(t, p, TOOL_CALL_TAGS, false) == Some(q)
  {
    hide FindTagFrom, MatchTagAt, TOOL_CALL_TAGS;
    OpenSpan(t, FindOpen(t, 0, TOOL_CALL_TAGS).value.0);
  }

  // ---------- One ingest ----------

  /** Nothing of the text that is let go outside a block belongs to an opening tag completed later. */
  lemma NothingLetGoTooEarly(buf: string, x: string, yielding: bool)
    requires FindOpen(buf, 0, TOOL_CALL_TAGS).None? && ShortBareTags(buf + x, yielding)
    ensures var open := FindOpen(buf + x, 0, TOOL_CALL_TAGS); open.None? || KeepFrom(buf, 0) <= open.value.0
  {
    hide MatchTagAt, TOOL_CALL_TAGS, ShortBare, AllPlain, Holdable;
    OuterNamesArePlain();
    var t := buf + x;
    var open := FindOpen(t, 0, TOOL_CALL_TAGS);
    if open.Some? {
      var (p, q) := open.value;
      OpenTagEnds(t);
      if q <= |buf| {
        FindWithin(buf, t, 0, TOOL_CALL_TAGS, false);
      } else if p < |buf| {
        BareTagIsHeld(buf, t, p, q);
      }
    }
  }

  /** `buf` starts with a short bare outer opening tag. */
  predicate StartsBare(buf: string) {
    var open := FindOpen(buf, 0, TOOL_CALL_TAGS);
    open.Some? && open.value.0 == 0 && ShortBare(buf, 0, open.value.1)
  }

  /** A bare opening tag holds no closing tag, so searching from its start or its end is the same. */
  lemma CloseAfterBare(t: string)
    requires StartsBare(t)
    ensures FindClose(t, 0, TOOL_CALL_TAGS) == FindClose(t, FindOpen(t, 0, TOOL_CALL_TAGS).value.1, TOOL_CALL_TAGS)
  {
    hide TOOL_CALL_TAGS, OccursAt, MatchName, SkipMarker;
    var q := FindOpen(t, 0, TOOL_CALL_TAGS).value.1;
    OpenTagEnds(t);
    BareIsPlain(t, 0, q);
    NoCloseAtBareOpen(t, q);
    var close := FindClose(t, 0, TOOL_CALL_TAGS);
    if close.Some? {
      assert t[close.value.0] == '<';
    }
    FindFromLater(t, 0, q, TOOL_CALL_TAGS, true);
  }

  lemma NoCloseAtBareOpen(t: string, q: nat)
    requires ShortBare(t, 0, q)
    ensures MatchTagAt(t, 0, TOOL_CALL_TAGS, true).None?
  {
    hide TOOL_CALL_TAGS, MatchName, SkipMarker;
    MarkersArePlain();
    var m := MarkerOf(t, 1);
    assert Plain(m);
    assert t[1 + 0] == m[0] && m[0] in m;
    var bracket := "</";
    assert bracket[1] == '/';
  }

  /** Opening and closing tag of a closed block, in every text that starts with the block. */
  lemma BlockSearches(block: string, t: string, q: nat, c: nat)
    requires block <= t && q <= |block|
    requires FindOpen(block, 0, TOOL_CALL_TAGS) == Some((0, q)) && FindClose(block, q, TOOL_CALL_TAGS) == Some((c, |block|))
    ensures FindOpen(t, 0, TOOL_CALL_TAGS) == Some((0, q)) && FindClose(t, q, TOOL_CALL_TAGS) == Some((c, |block|))
  {
    hide FindTagFrom, TOOL_CALL_TAGS, AllPlain;
    OuterNamesArePlain();
    FindStable(block, t, 0, TOOL_CALL_TAGS, false);
    FindStable(block, t, q, TOOL_CALL_TAGS, true);
  }

  /** A closed block cut off at its end. */
  lemma CutBlock(buf: string, q: nat, c: nat, e: nat)
    requires StartsBare(buf) && FindOpen(buf, 0, TOOL_CALL_TAGS) == Some((0, q))
    requires FindClose(buf, 0, TOOL_CALL_TAGS) == Some((c, e))
    ensures q <= c < e <= |buf| && FindClose(buf, q, TOOL_CALL_TAGS) == Some((c, e))
    ensures FindOpen(buf[..e], 0, TOOL_CALL_TAGS) == Some((0, q))
    ensures FindClose(buf[..e], q, TOOL_CALL_TAGS) == Some((c, e))
  {
    hide FindTagFrom, TOOL_CALL_TAGS, AllPlain, ShortBare;
    OuterNamesArePlain();
    CloseAfterBare(buf);
    FindWithin(buf[..e], buf, 0, TOOL_CALL_TAGS, false);
    FindWithin(buf[..e], buf, q, TOOL_CALL_TAGS, true);
  }

  /** The block alone: its calls are the calls of its body. */
  lemma BlockAlone(block: string, q: nat, c: nat)
    requires q <= |block|
    requires FindOpen(block, 0, TOOL_CALL_TAGS) == Some((0, q)) && FindClose(block, q, TOOL_CALL_TAGS) == Some((c, |block|))
    ensures q <= c <= |block| && Extract(block).calls == ParseInvokes(block[q..c])
  {
    hide FindOpen, FindClose, TOOL_CALL_TAGS, Extract, ParseInvokes, Untouched;
    ExtractBlock(block, 0, q, c, |block|);
    assert block[|block|..] == "";
    ExtractNothing();
  }

  /** The calls of a closed block are those the batch parser finds in it. */
  lemma ClosedBlock(buf: string, x: string, yielding: bool)
    requires StartsBare(buf) && FindClose(buf, 0, TOOL_CALL_TAGS).Some? && ShortBareTags(buf + x, yielding)
    ensures var e := FindClose(buf, 0, TOOL_CALL_TAGS).value.1;
            var calls := Extract(buf[..e]).calls;
            && Extract(buf + x).text == Untouched(calls, buf[..e]) + Extract(buf[e..] + x).text
            && Extract(buf + x).calls == calls + Extract(buf[e..] + x).calls
            && ShortBareTags(buf[e..] + x, yielding)
            && (yielding ==> calls != [])
  {
    hide FindOpen, FindClose, TOOL_CALL_TAGS, ParseInvokes, ShortBare, Extract, Untouched;
    var q := FindOpen(buf, 0, TOOL_CALL_TAGS).value.1;
    var (c, e) := FindClose(buf, 0, TOOL_CALL_TAGS).value;
    CutBlock(buf, q, c, e);
    var block, t := buf[..e], buf + x;
    BlockAlone(block, q, c);
    BlockSearches(block, t, q, c);
    PrefixSlices(block, t, q, c);
    assert t[e..] == buf[e..] + x;
    ExtractBlock(t, 0, q, c, e);
  }

  lemma PrefixSlices(block: string, t: string, q: nat, c: nat)
    requires block <= t && q <= c <= |block|
    ensures t[q..c] == block[q..c] && t[0..|block|] == block && t[..0] == "" && forall u: string :: "" + u == u
  {
  }

  lemma ExtractNothing()
    ensures Extract("") == Extracted("", [])
  {
  }

  /** An open block keeps its text for later. */
  lemma OpenBlockWaits(buf: string)
    requires StartsBare(buf) && FindClose(buf, 0, TOOL_CALL_TAGS).None?
    ensures Extract(buf) == Extracted(buf, [])
  {
    hide FindTagFrom, TOOL_CALL_TAGS, ShortBare;
    CloseAfterBare(buf);
  }

  /** State of the accumulator between two deltas, when the tags of the stream are short and bare. */
  predicate Waiting(s: Buffer) {
    if s.inDsml then StartsBare(s.buf) && FindClose(s.buf, 0, TOOL_CALL_TAGS).None?
    else FindOpen(s.buf, 0, TOOL_CALL_TAGS).None?
  }

  /** What one settled buffer owes to the rest of the stream. */
  predicate Settled(o: Outcome, t: string, x: string, yielding: bool) {
    && Extract(t).calls == o.calls + Extract(o.state.buf + x).calls
    && Extract(t).text == AllText(o.pieces) + Extract(o.state.buf + x).text
    && ShortBareTags(o.state.buf + x, yielding)
    && Waiting(o.state)
    && (yielding ==> NoDropped(o.pieces))
  }

  predicate NoDropped(pieces: seq<Piece>) {
    forall p :: p in pieces ==> !p.Dropped?
  }

  lemma {:induction false} SettleRefines(buf: string, x: string, yielding: bool)
    requires ShortBareTags(buf + x, yielding)
    ensures Settled(Settle(buf, false), buf + x, x, yielding)
    decreases |buf|, 1
  {
    hide FindOpen, TOOL_CALL_TAGS, ShortBareTags, Extract, SettleBlock, StartsBare, Holdable;
    if FindOpen(buf, 0, TOOL_CALL_TAGS).None? {
      SettleWaits(buf, x, yielding);
    } else {
      var p := FindOpen(buf, 0, TOOL_CALL_TAGS).value.0;
      var a, b := buf[..p], buf[p..];
      assert buf == a + b;
      OpensBare(a, b, x, yielding);
      SettleBlockRefines(a, b, x, yielding);
      assert buf + x == a + (b + x);
      ExtractShift(a, b + x);
    }
  }

  /** The text from the first opening tag on starts with a short bare tag. */
  lemma OpensBare(a: string, b: string, x: string, yielding: bool)
    requires var open := FindOpen(a + b, 0, TOOL_CALL_TAGS); open.Some? && open.value.0 == |a|
    requires ShortBareTags(a + b + x, yielding)
    ensures StartsBare(b) && ShortBareTags(b + x, yielding)
    ensures var open := FindOpen(a + (b + x), 0, TOOL_CALL_TAGS); open.Some? && open.value.0 == |a|
  {
    hide FindTagFrom, MatchTagAt, TOOL_CALL_TAGS, ShortBare, AllPlain;
    OuterNamesArePlain();
    assert a + b + x == a + (b + x);
    FindStable(a + b, a + (b + x), 0, TOOL_CALL_TAGS, false);
    TagsShift(a, b + x, yielding);
    SearchShift(a, b);
    SearchShift(a, b + x);
    var q := FindOpen(b, 0, TOOL_CALL_TAGS).value.1;
    OpenTagEnds(b);
    BareInPrefix(b, b + x, q);
  }

  lemma BareInPrefix(t: string, u: string, q: nat)
    requires t <= u && 1 < q <= |t| && t[q - 1] == '>'
    ensures ShortBare(u, 0, q) == ShortBare(t, 0, q)
  {
    hide SkipMarker, OccursAt, TOOL_CALL_TAGS, Plain;
    assert Agree(t, u, 1, q, 0);
    SkipMarkerLocal(t, u, 1, q, 0);
    assert u[0..q - 1] == t[0..q - 1];
    if SkipMarker(t, 1).Some? {
      var i := SkipMarker(t, 1).value;
      forall name | name in TOOL_CALL_TAGS
        ensures OccursAt(t, name, i) <==> OccursAt(u, name, i)
      {
        NameLocal(t, u, name, i, q, 0);
      }
    }
  }

  /** Outside a block without an opening tag: emit all but the held end. */
  lemma SettleWaits(buf: string, x: string, yielding: bool)
    requires FindOpen(buf, 0, TOOL_CALL_TAGS).None? && ShortBareTags(buf + x, yielding)
    ensures Settled(Settle(buf, false), buf + x, x, yielding)
  {
    hide FindOpen, FindClose, TOOL_CALL_TAGS, KeepFrom, Extract, ShortBareTags, StartsBare, Settle, AllText, NoDropped;
    var keep := KeepFrom(buf, 0);
    var a, b := buf[..keep], buf[keep..];
    SettleOutsideText(buf);
    assert buf + x == a + (b + x) && buf == a + b;
    NothingLetGoTooEarly(buf, x, yielding);
    ExtractShift(a, b + x);
    TagsShift(a, b + x, yielding);
    SearchShift(a, b);
    assert [] + Extract(b + x).calls == Extract(b + x).calls;
  }

  /** All text of a buffer without an opening tag: everything but the held end. */
  lemma SettleOutsideText(buf: string)
    requires FindOpen(buf, 0, TOOL_CALL_TAGS).None?
    ensures var o := Settle(buf, false);
            var keep := KeepFrom(buf, 0);
            && o.state == Buffer(buf[keep..], false)
            && AllText(o.pieces) == buf[..keep]
            && o.calls == []
            && NoDropped(o.pieces)
  {
    hide FindOpen, TOOL_CALL_TAGS, KeepFrom, SettleBlock;
    PieceTexts(buf[..KeepFrom(buf, 0)]);
  }

  lemma Glue(a: string, b: string, c: string, d: string)
    ensures a + (b + (c + d)) == (a + b + c) + d
  {
  }

  /** All text of a settled block: what stood in front, the block itself if it had no calls, then the rest. */
  lemma SettleBlockText(prefix: string, buf: string)
    ensures var close := FindClose(buf, 0, TOOL_CALL_TAGS);
            var o := SettleBlock(prefix, buf);
            if close.None? then o.state == Buffer(buf, true) && AllText(o.pieces) == prefix && o.calls == []
                                && NoDropped(o.pieces)
            else
              var calls := Extract(buf[..close.value.1]).calls;
              var rest := Settle(buf[close.value.1..], false);
              && o.state == rest.state
              && AllText(o.pieces) == prefix + Untouched(calls, buf[..close.value.1]) + AllText(rest.pieces)
              && o.calls == calls + rest.calls
              && (calls != [] && NoDropped(rest.pieces) ==> NoDropped(o.pieces))
  {
    hide FindOpen, FindClose, TOOL_CALL_TAGS, Extract, Settle, AllText, PieceOf;
    PieceTexts(prefix);
    var close := FindClose(buf, 0, TOOL_CALL_TAGS);
    if close.Some? {
      var e := close.value.1;
      var calls := Extract(buf[..e]).calls;
      var dropped := if calls == [] then [Dropped(buf[..e])] else [];
      AllTextOne(buf[..e]);
      AllTextConcat(PieceOf(Emitted(prefix)) + dropped, Settle(buf[e..], false).pieces);
      AllTextConcat(PieceOf(Emitted(prefix)), dropped);
    }
  }

  lemma AllTextOne(text: string)
    ensures AllText([Dropped(text)]) == text && AllText([]) == ""
  {
    assert text + "" == text;
  }

  lemma {:induction false} SettleBlockRefines(prefix: string, buf: string, x: string, yielding: bool)
    requires StartsBare(buf) && ShortBareTags(buf + x, yielding)
    ensures var o := SettleBlock(prefix, buf);
            && Extract(buf + x).calls == o.calls + Extract(o.state.buf + x).calls
            && prefix + Extract(buf + x).text == AllText(o.pieces) + Extract(o.state.buf + x).text
            && ShortBareTags(o.state.buf + x, yielding)
            && Waiting(o.state)
            && (yielding ==> NoDropped(o.pieces))
    decreases |buf|, 0
  {
    hide FindOpen, FindClose, TOOL_CALL_TAGS, Extract, Settle, SettleBlock, ShortBareTags, StartsBare, AllText,
      Untouched, NoDropped;
    SettleBlockText(prefix, buf);
    var close := FindClose(buf, 0, TOOL_CALL_TAGS);
    if close.Some? {
      var e := close.value.1;
      ClosedBlock(buf, x, yielding);
      SettleRefines(buf[e..], x, yielding);
      var rest := Settle(buf[e..], false);
      Glue(prefix, Untouched(Extract(buf[..e]).calls, buf[..e]), AllText(rest.pieces), Extract(rest.state.buf + x).text);
    }
  }
}
