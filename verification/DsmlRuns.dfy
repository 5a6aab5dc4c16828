/**
 * Whole streams. For every cutting of a text into deltas: the calls are those of the batch parser, the visible text
 * misses exactly the lost and dropped pieces, and single-character deltas lose nothing. For every stream at all: what
 * the accumulator keeps between two deltas.
 */
module DsmlRuns {
  import opened Wrappers
  import opened Text
  import opened DsmlTags
  import opened DsmlPartial
  import opened DsmlParse
  import opened DsmlStream
  import opened DsmlRefinement
  import opened DsmlCuts
  import DsmlPrint

  // ---------- Streams against the batch parser ----------

  lemma FeedRefines(s: Buffer, delta: string, x: string, yielding: bool)
    requires Waiting(s) && ShortBareTags(s.buf + delta + x, yielding)
    ensures Settled(Feed(s, delta), s.buf + delta + x, x, yielding)
  {
    hide FindTagFrom, MatchTagAt, TOOL_CALL_TAGS, ShortBareTags, Extract, ShortBare, AllPlain, SettleBlock;
    var buf := s.buf + delta;
    if s.inDsml {
      OuterNamesArePlain();
      FindStable(s.buf, buf, 0, TOOL_CALL_TAGS, false);
      OpenTagEnds(s.buf);
      BareInPrefix(s.buf, buf, FindOpen(s.buf, 0, TOOL_CALL_TAGS).value.1);
      SettleBlockRefines("", buf, x, yielding);
      assert "" + Extract(buf + x).text == Extract(buf + x).text;
    } else {
      SettleRefines(buf, x, yielding);
    }
  }

  /** What a waiting buffer holds is owed as text, never as calls. */
  lemma WaitingHoldsText(s: Buffer)
    requires Waiting(s)
    ensures Extract(s.buf) == Extracted(s.buf, [])
  {
    hide FindOpen, FindClose, TOOL_CALL_TAGS, Extract;
    if s.inDsml {
      OpenBlockWaits(s.buf);
    } else {
      ExtractUnfinished(s.buf);
    }
  }

  lemma NoPieces(t: string)
    ensures AllText([]) + t == t && NoDropped([])
  {
  }

  /** A stream is its first delta and the stream of the others. */
  lemma {:induction false} RunStep(s: Buffer, deltas: seq<string>)
    requires deltas != []
    ensures var first := Feed(s, deltas[0]);
            var rest := Run(first.state, deltas[1..]);
            var o := Run(s, deltas);
            && o.state == rest.state
            && o.calls == first.calls + rest.calls
            && AllText(o.pieces) + o.state.buf == AllText(first.pieces) + (AllText(rest.pieces) + rest.state.buf)
            && (NoDropped(first.pieces) && NoDropped(rest.pieces) ==> NoDropped(o.pieces))
  {
    hide Feed;
    var first := Feed(s, deltas[0]);
    AllTextConcat(first.pieces, Run(first.state, deltas[1..]).pieces);
  }

  lemma {:induction false} RunRefines(s: Buffer, deltas: seq<string>, yielding: bool)
    requires Waiting(s) && ShortBareTags(s.buf + Concat(deltas), yielding)
    ensures var o := Run(s, deltas);
            && Extract(s.buf + Concat(deltas)).calls == o.calls
            && Extract(s.buf + Concat(deltas)).text == AllText(o.pieces) + o.state.buf
            && Waiting(o.state)
            && (yielding ==> NoDropped(o.pieces))
    decreases |deltas|
  {
    hide Extract, ShortBareTags, Waiting, Feed, AllText, NoDropped;
    if deltas == [] {
      assert s.buf + "" == s.buf;
      WaitingHoldsText(s);
      NoPieces(s.buf);
    } else {
      var x := Concat(deltas[1..]);
      assert s.buf + Concat(deltas) == s.buf + deltas[0] + x;
      FeedRefines(s, deltas[0], x, yielding);
      var first := Feed(s, deltas[0]);
      RunRefines(first.state, deltas[1..], yielding);
      RunStep(s, deltas);
    }
  }

  lemma EmptyWaits()
    ensures Waiting(EMPTY)
  {
  }

  /** The stream hands out the calls of the whole text, and its pieces and the flushed rest are the cleaned text. */
  lemma StreamRefinesBatch(deltas: seq<string>, yielding: bool)
    requires ShortBareTags(Concat(deltas), yielding)
    ensures Run(EMPTY, deltas).calls == Extract(Concat(deltas)).calls
    ensures AllText(Run(EMPTY, deltas).pieces) + Run(EMPTY, deltas).state.buf == Extract(Concat(deltas)).text
    ensures yielding ==> NoDropped(Run(EMPTY, deltas).pieces)
  {
    hide Extract, ShortBareTags, Waiting, Run;
    EmptyWaits();
    assert EMPTY.buf + Concat(deltas) == Concat(deltas);
    RunRefines(EMPTY, deltas, yielding);
  }

  /** How a text is cut does not matter for the calls. */
  lemma CuttingIsIrrelevant(a: seq<string>, b: seq<string>)
    requires Concat(a) == Concat(b) && ShortBareTags(Concat(a), false)
    ensures Run(EMPTY, a).calls == Run(EMPTY, b).calls
  {
    hide Extract, ShortBareTags, Run, Concat;
    StreamRefinesBatch(a, false);
    StreamRefinesBatch(b, false);
  }

  // ---------- Visible text ----------

  predicate AllEmitted(pieces: seq<Piece>) {
    forall p :: p in pieces ==> p.Emitted?
  }

  predicate NoLoss(pieces: seq<Piece>) {
    forall p :: p in pieces ==> !p.Lost?
  }

  predicate NoEmpty(pieces: seq<Piece>) {
    forall p :: p in pieces ==> p.text != ""
  }

  lemma {:induction false} VisibleIsAll(pieces: seq<Piece>)
    requires NoEmpty(pieces)
    ensures |Visible(pieces)| <= |AllText(pieces)|
    ensures Visible(pieces) == AllText(pieces) <==> AllEmitted(pieces)
    decreases |pieces|
  {
    if pieces != [] {
      var rest := pieces[1..];
      VisibleIsAll(rest);
      assert pieces == [pieces[0]] + rest;
      assert AllEmitted(pieces) <==> pieces[0].Emitted? && AllEmitted(rest);
      if pieces[0].Emitted? {
        var t := pieces[0].text;
        assert (t + Visible(rest))[|t|..] == Visible(rest) && (t + AllText(rest))[|t|..] == AllText(rest);
      } else {
        assert "" + Visible(rest) == Visible(rest);
        assert pieces[0].text != "";
      }
    }
  }

  lemma {:induction false} BlockPiecesNotEmpty(prefix: string, buf: string)
    ensures NoEmpty(SettleBlock(prefix, buf).pieces)
    decreases |buf|
  {
    hide FindTagFrom, TOOL_CALL_TAGS, KeepFrom, Extract;
    var close := FindClose(buf, 0, TOOL_CALL_TAGS);
    if close.Some? {
      var rest := buf[close.value.1..];
      var open := FindOpen(rest, 0, TOOL_CALL_TAGS);
      if open.Some? {
        BlockPiecesNotEmpty(rest[..open.value.0], rest[open.value.0..]);
      }
    }
  }

  lemma SettlePiecesNotEmpty(buf: string, inDsml: bool)
    ensures NoEmpty(Settle(buf, inDsml).pieces)
  {
    hide FindTagFrom, TOOL_CALL_TAGS, KeepFrom, SettleBlock;
    var open := FindOpen(buf, 0, TOOL_CALL_TAGS);
    if inDsml {
      BlockPiecesNotEmpty("", buf);
    } else if open.Some? {
      BlockPiecesNotEmpty(buf[..open.value.0], buf[open.value.0..]);
    }
  }

  lemma {:induction false} RunPiecesNotEmpty(s: Buffer, deltas: seq<string>)
    ensures NoEmpty(Run(s, deltas).pieces)
    decreases |deltas|
  {
    hide Settle;
    if deltas != [] {
      SettlePiecesNotEmpty(s.buf + deltas[0], s.inDsml);
      RunPiecesNotEmpty(Feed(s, deltas[0]).state, deltas[1..]);
    }
  }

  /** The visible text is the cleaned text exactly when every piece was emitted. */
  lemma VisibleIsAllEmitted(deltas: seq<string>)
    requires ShortBareTags(Concat(deltas), false)
    ensures var o := Run(EMPTY, deltas);
            Visible(o.pieces) + o.state.buf == Extract(Concat(deltas)).text <==> AllEmitted(o.pieces)
  {
    hide Extract, ShortBareTags, Run, Visible, AllText;
    StreamRefinesBatch(deltas, false);
    RunPiecesNotEmpty(EMPTY, deltas);
    var o := Run(EMPTY, deltas);
    VisibleIsAll(o.pieces);
    CancelSuffix(Visible(o.pieces), AllText(o.pieces), o.state.buf);
  }

  /** A block is dropped, for one cutting and for every other, exactly when the text has a closed block without a call. */
  lemma NothingDroppedIff(deltas: seq<string>)
    requires ShortBareTags(Concat(deltas), false)
    ensures NoDropped(Run(EMPTY, deltas).pieces) <==> ShortBareTags(Concat(deltas), true)
  {
    hide ShortBareTags, Run, EmptyBlocks, TextsOf;
    StreamTold(deltas);
    NoTexts(Run(EMPTY, deltas).pieces, true);
    YieldingMeans(Concat(deltas));
  }

  /** The `k`-th delta of a stream loses text, told from the text before it and with it. */
  predicate LosesAt(a: string, deltas: seq<string>, k: nat)
    requires k < |deltas|
  {
    LostAt(a + Concat(deltas[..k]), deltas[k]) != ""
  }

  /** Text is lost exactly when some cut falls so that a delta loses text. */
  lemma {:induction false} NothingLostIff(deltas: seq<string>)
    requires ShortBareTags(Concat(deltas), false)
    ensures NoLoss(Run(EMPTY, deltas).pieces) <==> forall k :: 0 <= k < |deltas| ==> !LosesAt("", deltas, k)
  {
    hide ShortBareTags, Run, LostRuns, TextsOf, LosesAt;
    StreamTold(deltas);
    NoTexts(Run(EMPTY, deltas).pieces, false);
    LosesNothing("", deltas);
  }

  lemma LosesAtShift(a: string, deltas: seq<string>, k: nat)
    requires k + 1 < |deltas|
    ensures LosesAt(a, deltas, k + 1) == LosesAt(a + deltas[0], deltas[1..], k)
  {
    hide LostAt;
    var d, rest := deltas[0], deltas[1..];
    assert deltas[..k + 1][0] == d && deltas[..k + 1][1..] == rest[..k];
    assert a + Concat(deltas[..k + 1]) == a + d + Concat(rest[..k]);
  }

  lemma {:induction false} LosesNothing(a: string, deltas: seq<string>)
    ensures LostRuns(a, deltas) == [] <==> forall k :: 0 <= k < |deltas| ==> !LosesAt(a, deltas, k)
    decreases |deltas|
  {
    hide LostAt, LosesAt;
    if deltas != [] {
      var d, rest := deltas[0], deltas[1..];
      LosesNothing(a + d, rest);
      FirstLosesAt(a, deltas);
      forall k | 0 <= k < |rest| ensures LosesAt(a, deltas, k + 1) == LosesAt(a + d, rest, k) {
        LosesAtShift(a, deltas, k);
      }
      assert forall k :: 1 <= k < |deltas| ==> LosesAt(a, deltas, k) == LosesAt(a + d, rest, k - 1);
    }
  }

  lemma FirstLosesAt(a: string, deltas: seq<string>)
    requires deltas != []
    ensures LosesAt(a, deltas, 0) <==> LostAt(a, deltas[0]) != ""
  {
    hide LostAt;
    assert a + Concat(deltas[..0]) == a;
  }

  /**
   * The user sees the cleaned text if and only if every closed block of the text holds a call and no cut falls so that
   * a delta loses text.
   */
  lemma VisibleIsCleaned(deltas: seq<string>)
    requires ShortBareTags(Concat(deltas), false)
    ensures var o := Run(EMPTY, deltas);
            Visible(o.pieces) + o.state.buf == Extract(Concat(deltas)).text
            <==> ShortBareTags(Concat(deltas), true) && forall k :: 0 <= k < |deltas| ==> !LosesAt("", deltas, k)
  {
    hide Extract, ShortBareTags, Run, Visible, LosesAt;
    VisibleIsAllEmitted(deltas);
    NothingDroppedIff(deltas);
    NothingLostIff(deltas);
    EmittedOrNot(Run(EMPTY, deltas).pieces);
  }

  lemma EmittedOrNot(pieces: seq<Piece>)
    ensures AllEmitted(pieces) <==> NoLoss(pieces) && NoDropped(pieces)
  {
  }

  lemma CancelSuffix(a: string, b: string, c: string)
    ensures a + c == b + c <==> a == b
  {
    if a + c == b + c {
      assert |a| == |b|;
      assert (a + c)[..|a|] == a && (b + c)[..|b|] == b;
    }
  }

  // ---------- When a run of text is lost ----------

  /**
   * Text is lost in one ingest exactly when, after the blocks that close in this buffer, an opening tag follows some
   * text and its block does not close in this buffer.
   */
  predicate LosesText(buf: string)
    decreases |buf|
  {
    var open := FindOpen(buf, 0, TOOL_CALL_TAGS);
    open.Some? && BlockLosesText(open.value.0, buf[open.value.0..])
  }

  predicate BlockLosesText(before: nat, buf: string)
    decreases |buf|, 0
  {
    var close := FindClose(buf, 0, TOOL_CALL_TAGS);
    if close.None? then before > 0 else LosesText(buf[close.value.1..])
  }

  lemma {:induction false} LossExactly(buf: string)
    ensures !NoLoss(Settle(buf, false).pieces) <==> LosesText(buf)
    decreases |buf|, 1
  {
    hide FindTagFrom, TOOL_CALL_TAGS, KeepFrom, SettleBlock;
    var open := FindOpen(buf, 0, TOOL_CALL_TAGS);
    if open.Some? {
      BlockLossExactly(buf[..open.value.0], buf[open.value.0..]);
    }
  }

  lemma {:induction false} BlockLossExactly(prefix: string, buf: string)
    ensures !NoLoss(SettleBlock(prefix, buf).pieces) <==> BlockLosesText(|prefix|, buf)
    decreases |buf|, 0
  {
    hide FindTagFrom, TOOL_CALL_TAGS, Settle, Extract;
    var close := FindClose(buf, 0, TOOL_CALL_TAGS);
    if close.Some? {
      LossExactly(buf[close.value.1..]);
    } else if prefix != "" {
      assert Lost(prefix) in PieceOf(Lost(prefix));
    }
  }

  /** The buffer the next delta is settled in. */
  predicate BufferLoses(s: Buffer, delta: string) {
    if s.inDsml then BlockLosesText(0, s.buf + delta) else LosesText(s.buf + delta)
  }

  predicate NeverLoses(s: Buffer, deltas: seq<string>)
    decreases |deltas|
  {
    deltas == [] || (!BufferLoses(s, deltas[0]) && NeverLoses(Feed(s, deltas[0]).state, deltas[1..]))
  }

  /** Over whole streams, whatever their tags look like: text is lost exactly when one of the buffers loses text. */
  lemma {:induction false} RunLossExactly(s: Buffer, deltas: seq<string>)
    ensures NoLoss(Run(s, deltas).pieces) <==> NeverLoses(s, deltas)
    decreases |deltas|
  {
    hide Settle, SettleBlock, LosesText, BlockLosesText;
    if deltas != [] {
      var buf := s.buf + deltas[0];
      if s.inDsml {
        SettleInBlock(buf);
        BlockLossExactly("", buf);
      } else {
        LossExactly(buf);
      }
      var rest := Run(Feed(s, deltas[0]).state, deltas[1..]);
      RunLossExactly(Feed(s, deltas[0]).state, deltas[1..]);
      assert NoLoss(Feed(s, deltas[0]).pieces + rest.pieces) <==> NoLoss(Feed(s, deltas[0]).pieces) && NoLoss(rest.pieces);
    }
  }

  // ---------- What the accumulator keeps between two deltas ----------

  /**
   * Outside a block: nothing, or a short partial opening tag. Inside: an opening tag first, and no closing tag.
   * This holds for every stream, whatever its tags look like.
   */
  predicate Kept(s: Buffer) {
    if s.inDsml then MatchTagAt(s.buf, 0, TOOL_CALL_TAGS, false).Some? && FindClose(s.buf, 0, TOOL_CALL_TAGS).None?
    else FindOpen(s.buf, 0, TOOL_CALL_TAGS).None? && (s.buf == "" || Holdable(s.buf, 0))
  }

  /** After its first character a held end contains neither bracket. */
  lemma HoldableIsPlain(t: string)
    requires t != "" && Holdable(t, 0)
    ensures t[0] == '<' && forall k :: 1 <= k < |t| ==> t[k] != '<' && t[k] != '>'
  {
    hide PartialName, MARKERS;
    MarkersArePlain();
    assert t[0 + 0] == "<"[0];
    if m :| m in MARKERS && EndIsPrefixOf(t, 1, m) {
      assert Plain(m);
      assert forall k :: 1 <= k < |t| ==> t[k] == m[k - 1] && m[k - 1] in m;
    } else {
      var m :| m in MARKERS && PartialName(t, 1, m);
      assert Plain(m);
      PartialNameIsPlain(t, 1, m);
    }
  }

  lemma PartialNameIsPlain(t: string, i: nat, marker: string)
    requires PartialName(t, i, marker) && Plain(marker)
    ensures forall k :: i <= k < |t| ==> t[k] != '<' && t[k] != '>'
  {
    hide TOOL_CALL_TAGS, OccursAt;
    OuterNamesArePlain();
    OccursPlain(t, marker, i);
    var after := SkipWs(t, i + |marker|);
    if after < |t| {
      var name :| name in TOOL_CALL_TAGS && EndIsPrefixOf(t, after, name);
      assert Plain(name);
      assert forall k :: after <= k < |t| ==> t[k] == name[k - after] && name[k - after] in name;
    }
  }

  lemma {:induction false} SettleKeeps(buf: string)
    ensures Kept(Settle(buf, false).state)
    decreases |buf|, 1
  {
    hide MatchTagAt, TOOL_CALL_TAGS, SettleBlock, AllPlain, Holdable;
    OuterNamesArePlain();
    var open := FindOpen(buf, 0, TOOL_CALL_TAGS);
    if open.Some? {
      var p := open.value.0;
      MatchShift(buf[p..], buf, 0, p, TOOL_CALL_TAGS, false);
      BlockKeeps(buf[..p], buf[p..]);
    } else {
      var keep := KeepFrom(buf, 0);
      FindFromLater(buf, 0, keep, TOOL_CALL_TAGS, false);
      FindShift(buf[keep..], buf, 0, keep, TOOL_CALL_TAGS, false);
      if keep < |buf| {
        HoldableShift(buf[keep..], buf, 0, keep);
      }
    }
  }

  lemma {:induction false} BlockKeeps(prefix: string, buf: string)
    requires MatchTagAt(buf, 0, TOOL_CALL_TAGS, false).Some?
    ensures Kept(SettleBlock(prefix, buf).state)
    decreases |buf|, 0
  {
    hide MatchTagAt, FindTagFrom, TOOL_CALL_TAGS, Settle, Extract, Holdable;
    var close := FindClose(buf, 0, TOOL_CALL_TAGS);
    if close.Some? {
      SettleKeeps(buf[close.value.1..]);
    }
  }

  lemma FeedKeeps(s: Buffer, delta: string)
    requires Kept(s)
    ensures Kept(Feed(s, delta).state)
  {
    hide MatchTagAt, FindTagFrom, TOOL_CALL_TAGS, SettleBlock, AllPlain, Holdable;
    if s.inDsml {
      OuterNamesArePlain();
      MatchEndsAtGt(s.buf, 0, TOOL_CALL_TAGS, false);
      MatchInPrefix(s.buf, s.buf + delta, 0, TOOL_CALL_TAGS, false);
      BlockKeeps("", s.buf + delta);
    } else {
      SettleKeeps(s.buf + delta);
    }
  }

  /** What the invariant says: a kept end outside a block is a proper prefix of a bare outer tag, at most 64 bytes long. */
  lemma KeptMeans(s: Buffer)
    ensures Kept(s)
            <==> if s.inDsml
                   then MatchTagAt(s.buf, 0, TOOL_CALL_TAGS, false).Some? && FindClose(s.buf, 0, TOOL_CALL_TAGS).None?
                 else s.buf == "" || (GrowsIntoTag(s.buf) && Bytes(s.buf) <= MAX_TAG_LEN)
  {
    hide MatchTagAt, FindTagFrom, TOOL_CALL_TAGS, CouldBeOpenTagPrefix, GrowsIntoTag;
    assert s.buf[0..] == s.buf;
    if s.buf != "" {
      DsmlPrint.PartialIffGrows(s.buf);
      if CouldBeOpenTagPrefix(s.buf, 0) {
        PartialHoldsNoTag(s.buf);
      }
    } else {
      NothingIsNoTag();
    }
  }

  lemma NothingIsNoTag()
    ensures FindOpen("", 0, TOOL_CALL_TAGS).None?
  {
  }

  lemma PartialHoldsNoTag(t: string)
    requires t != "" && CouldBeOpenTagPrefix(t, 0)
    ensures FindOpen(t, 0, TOOL_CALL_TAGS).None?
  {
    hide TOOL_CALL_TAGS, MARKERS, EndIsPrefixOf, PartialName;
    assert t[0 + 0] == "<"[0];
    if FindOpen(t, 0, TOOL_CALL_TAGS).Some? {
      OpenTagEnds(t);
    }
  }

  /** Over every run: the invariant of the buffer. */
  lemma {:induction false} KeptByRun(s: Buffer, deltas: seq<string>)
    requires Kept(s)
    ensures Kept(Run(s, deltas).state)
    decreases |deltas|
  {
    hide Kept, Feed;
    if deltas != [] {
      FeedKeeps(s, deltas[0]);
      KeptByRun(Feed(s, deltas[0]).state, deltas[1..]);
    }
  }

  /**
   * Over every run, whatever the tags look like: outside a block the buffer is empty or a proper prefix of a bare outer
   * opening tag, at most 64 bytes long; inside one it starts with an outer opening tag and holds no closing tag.
   */
  lemma RunKeeps(deltas: seq<string>)
    ensures var s := Run(EMPTY, deltas).state;
            if s.inDsml
              then MatchTagAt(s.buf, 0, TOOL_CALL_TAGS, false).Some? && FindClose(s.buf, 0, TOOL_CALL_TAGS).None?
            else s.buf == "" || (GrowsIntoTag(s.buf) && Bytes(s.buf) <= MAX_TAG_LEN)
  {
    hide Kept, Run, MatchTagAt, FindTagFrom, TOOL_CALL_TAGS, GrowsIntoTag;
    EmptyIsKept();
    KeptByRun(EMPTY, deltas);
    KeptMeans(Run(EMPTY, deltas).state);
  }

  // ---------- Single characters ----------

  /** A block that ends with the last character of the buffer loses nothing. */
  lemma {:induction false} BlockEndsWithBuffer(buf: string)
    requires var close := FindClose(buf, 0, TOOL_CALL_TAGS); close.Some? ==> close.value.1 == |buf|
    ensures NoLoss(SettleBlock("", buf).pieces)
  {
    hide FindTagFrom, TOOL_CALL_TAGS, Settle, Extract;
    SettleEmpty();
    assert buf[|buf|..] == "";
  }

  lemma OneCharFeed(s: Buffer, c: char)
    requires Kept(s)
    ensures NoLoss(Feed(s, [c]).pieces)
  {
    hide MatchTagAt, TOOL_CALL_TAGS, SettleBlock, AllPlain, Holdable;
    OuterNamesArePlain();
    var buf := s.buf + [c];
    var open := FindOpen(buf, 0, TOOL_CALL_TAGS);
    var close := FindClose(buf, 0, TOOL_CALL_TAGS);
    if close.Some? {
      MatchEndsAtGt(buf, close.value.0, TOOL_CALL_TAGS, true);
    }
    if s.inDsml {
      if close.Some? && close.value.1 <= |s.buf| {
        FindWithin(s.buf, buf, 0, TOOL_CALL_TAGS, true);
      }
      BlockEndsWithBuffer(buf);
    } else if open.Some? {
      OpenTagEnds(buf);
      if open.value.1 <= |s.buf| {
        FindWithin(s.buf, buf, 0, TOOL_CALL_TAGS, false);
      }
      HoldableIsPlain(s.buf);
      assert open.value.0 == 0;
      assert buf[..0] == "" && buf[0..] == buf;
      BlockEndsWithBuffer(buf);
    }
  }

  /** One character at a time, no text is ever lost, for every text and every shape of tag. */
  lemma {:induction false} OneCharNeverLoses(s: Buffer, deltas: seq<string>)
    requires Kept(s) && forall d :: d in deltas ==> |d| == 1
    ensures NoLoss(Run(s, deltas).pieces)
    decreases |deltas|
  {
    hide Kept, Feed;
    if deltas != [] {
      assert deltas[0] in deltas && deltas[0] == [deltas[0][0]];
      OneCharFeed(s, deltas[0][0]);
      FeedKeeps(s, deltas[0]);
      OneCharNeverLoses(Feed(s, deltas[0]).state, deltas[1..]);
    }
  }

  /** Character by character the user sees exactly the cleaned text, if and only if every closed block holds a call. */
  lemma OneCharVisible(deltas: seq<string>)
    requires ShortBareTags(Concat(deltas), false) && forall d :: d in deltas ==> |d| == 1
    ensures Visible(Run(EMPTY, deltas).pieces) + Run(EMPTY, deltas).state.buf == Extract(Concat(deltas)).text
            <==> ShortBareTags(Concat(deltas), true)
  {
    hide Extract, ShortBareTags, Run, Visible, Kept;
    EmptyIsKept();
    OneCharNeverLoses(EMPTY, deltas);
    VisibleIsAllEmitted(deltas);
    NothingDroppedIff(deltas);
    EmittedOrNot(Run(EMPTY, deltas).pieces);
  }

  lemma EmptyIsKept()
    ensures Kept(EMPTY)
  {
  }

  // ---------- The accumulator driven over a whole stream ----------

  /** Feed every delta to a new accumulator, then flush it. */
  method StreamAll(deltas: seq<string>) returns (shown: string, calls: seq<Call>)
    ensures shown == Visible(Run(EMPTY, deltas).pieces) + Run(EMPTY, deltas).state.buf
    ensures calls == Run(EMPTY, deltas).calls
    ensures ShortBareTags(Concat(deltas), false) ==> calls == Extract(Concat(deltas)).calls
  {
    hide Feed, Extract, ShortBareTags, Visible;
    var acc := new DsmlAccumulator();
    shown, calls := "", [];
    var i := 0;
    NoneVisible(Visible(Run(EMPTY, deltas).pieces));
    assert deltas[0..] == deltas;
    while i < |deltas|
      invariant i <= |deltas|
      invariant Run(EMPTY, deltas).state == Run(acc.State(), deltas[i..]).state
      invariant Run(EMPTY, deltas).calls == calls + Run(acc.State(), deltas[i..]).calls
      invariant Visible(Run(EMPTY, deltas).pieces) == shown + Visible(Run(acc.State(), deltas[i..]).pieces)
    {
      StreamStep(shown, calls, acc.State(), deltas[i..]);
      assert deltas[i..][1..] == deltas[i + 1..];
      var content, more := acc.Ingest(deltas[i]);
      shown := shown + (if content.Some? then content.value else "");
      calls := calls + more;
      i := i + 1;
    }
    NoneVisible("");
    var rest := acc.Flush();
    shown := shown + (if rest.Some? then rest.value else "");
    if ShortBareTags(Concat(deltas), false) {
      StreamRefinesBatch(deltas, false);
    }
  }

  lemma NoneVisible(t: string)
    ensures "" + t == t && Visible([]) == ""
  {
  }

  lemma {:induction false} StreamStep(shown: string, calls: seq<Call>, s: Buffer, deltas: seq<string>)
    requires deltas != []
    ensures var first := Feed(s, deltas[0]);
            var rest := Run(first.state, deltas[1..]);
            && Run(s, deltas).state == rest.state
            && calls + Run(s, deltas).calls == calls + first.calls + rest.calls
            && shown + Visible(Run(s, deltas).pieces) == shown + Visible(first.pieces) + Visible(rest.pieces)
  {
    hide Feed;
    var first := Feed(s, deltas[0]);
    VisibleConcat(first.pieces, Run(first.state, deltas[1..]).pieces);
  }

  // ---------- A tag cut in two ----------

  lemma {:induction false} SettleShrinks(buf: string, inDsml: bool)
    ensures |Settle(buf, inDsml).state.buf| <= |buf|
    decreases |buf|, 1
  {
    hide FindOpen, KeepFrom, SettleBlock, TOOL_CALL_TAGS;
    var open := FindOpen(buf, 0, TOOL_CALL_TAGS);
    if inDsml {
      BlockShrinks("", buf);
    } else if open.Some? {
      BlockShrinks(buf[..open.value.0], buf[open.value.0..]);
    }
  }

  lemma {:induction false} BlockShrinks(prefix: string, buf: string)
    ensures |SettleBlock(prefix, buf).state.buf| <= |buf|
    decreases |buf|, 0
  {
    hide FindClose, Settle, Extract, TOOL_CALL_TAGS;
    var close := FindClose(buf, 0, TOOL_CALL_TAGS);
    if close.Some? {
      SettleShrinks(buf[close.value.1..], false);
    }
  }

  /** Without its last character a tag is no tag, and nothing else in it is one. */
  lemma CutTagIsNoTag(u: string)
    requires IsOuterTag(u)
    ensures |u| > 1 && u[0] == '<' && u[|u| - 1] == '>'
    ensures FindOpen(u, 0, TOOL_CALL_TAGS) == Some((0, |u|))
    ensures FindOpen(u[..|u| - 1], 0, TOOL_CALL_TAGS).None?
  {
    hide TOOL_CALL_TAGS, MatchTagAt;
    OuterNamesArePlain();
    MatchEndsAtGt(u, 0, TOOL_CALL_TAGS, false);
    var t := u[..|u| - 1];
    FoundAtStart(u);
    var open := FindOpen(t, 0, TOOL_CALL_TAGS);
    if open.Some? {
      TagEndsWithGt(t);
    }
  }

  lemma FoundAtStart(u: string)
    requires IsOuterTag(u)
    ensures u != "" && u[0] == '<' && FindOpen(u, 0, TOOL_CALL_TAGS) == Some((0, |u|))
  {
    hide TOOL_CALL_TAGS, MatchName, SkipMarker;
    assert OccursAt(u, "<", 0);
  }

  lemma TagEndsWithGt(t: string)
    requires FindOpen(t, 0, TOOL_CALL_TAGS).Some?
    ensures '>' in t
  {
    hide FindOpen, TOOL_CALL_TAGS;
    OpenTagEnds(t);
    assert t[FindOpen(t, 0, TOOL_CALL_TAGS).value.1 - 1] == '>';
  }

  /** An outer tag cut before its last character is recognised if and only if it is bare and short. */
  lemma CutTagIsSeenIff(u: string)
    requires IsOuterTag(u)
    ensures |u| > 1
    ensures Run(EMPTY, [u[..|u| - 1], u[|u| - 1..]]).state == Buffer(u, true) <==> ShortBare(u, 0, |u|)
  {
    hide TOOL_CALL_TAGS, MatchTagAt, FindOpen, FindClose, Settle, ShortBare, Holdable, KeepFrom;
    CutTagIsNoTag(u);
    var t, last := u[..|u| - 1], u[|u| - 1..];
    assert EMPTY.buf + t == t;
    SettleOutsideText(t);
    var keep := KeepFrom(t, 0);
    var s := Buffer(t[keep..], false);
    assert Feed(EMPTY, t).state == s;
    TwoDeltas(t, last);
    CutTagIsHeldIff(u);
    if ShortBare(u, 0, |u|) {
      assert t[0..] == t && t + last == u;
      BareTagOpens(u);
    } else {
      SettleShrinks(t[keep..] + last, false);
    }
  }

  lemma TwoDeltas(a: string, b: string)
    ensures Run(EMPTY, [a, b]).state == Feed(Feed(EMPTY, a).state, b).state
  {
    hide Feed;
    assert [a, b][1..] == [b] && [b][1..] == [];
    assert Run(Feed(EMPTY, a).state, [b]).state == Feed(Feed(EMPTY, a).state, b).state;
  }

  lemma CutTagIsHeldIff(u: string)
    requires IsOuterTag(u) && |u| > 1 && u[0] == '<'
    ensures KeepFrom(u[..|u| - 1], 0) == 0 <==> ShortBare(u, 0, |u|)
  {
    hide TOOL_CALL_TAGS, MatchTagAt, IsBare, CouldBeOpenTagPrefix;
    var t := u[..|u| - 1];
    assert t[0..] == t == u[0..|u| - 1];
    if ShortBare(u, 0, |u|) {
      BareTagIsHeld(t, u, 0, |u|);
    } else if Holdable(t, 0) {
      HeldTagIsBare(u);
    }
  }

  lemma BareTagOpens(u: string)
    requires FindOpen(u, 0, TOOL_CALL_TAGS) == Some((0, |u|)) && ShortBare(u, 0, |u|)
    ensures Settle(u, false).state == Buffer(u, true)
  {
    hide TOOL_CALL_TAGS, FindOpen, ShortBare, KeepFrom, Extract;
    CloseAfterBare(u);
    NothingAfterEnd(u);
    assert u[0..] == u;
  }

  lemma NothingAfterEnd(u: string)
    ensures FindClose(u, |u|, TOOL_CALL_TAGS).None?
  {
    hide TOOL_CALL_TAGS;
  }

  // ---------- A block whose tag is cut ----------

  /** Before its last character an outer tag is not found. */
  lemma NotYetFound(t: string, p: nat, q: nat)
    requires FindOpen(t, 0, TOOL_CALL_TAGS) == Some((p, q)) && q <= |t|
    ensures p + 1 < q && FindOpen(t[..q - 1], 0, TOOL_CALL_TAGS).None?
  {
    hide FindTagFrom, TOOL_CALL_TAGS, AllPlain;
    OuterNamesArePlain();
    OpenTagEnds(t);
    if FindOpen(t[..q - 1], 0, TOOL_CALL_TAGS).Some? {
      FindStable(t[..q - 1], t, 0, TOOL_CALL_TAGS, false);
    }
  }

  /** The tag by itself. */
  lemma TagByItself(t: string, p: nat, q: nat)
    requires FindOpen(t, 0, TOOL_CALL_TAGS) == Some((p, q)) && q <= |t|
    ensures p < q && IsOuterTag(t[p..q]) && ShortBare(t[p..q], 0, q - p) == ShortBare(t, p, q)
  {
    hide FindTagFrom, TOOL_CALL_TAGS, AllPlain, MatchTagAt, ShortBare;
    OuterNamesArePlain();
    OpenTagEnds(t);
    var u, b := t[p..q], t[p..];
    MatchShift(b, t, 0, p, TOOL_CALL_TAGS, false);
    assert u[|u| - 1] == '>' && b[|u| - 1] == '>';
    MatchEndsAtGt(b, 0, TOOL_CALL_TAGS, false);
    MatchInPrefix(u, b, 0, TOOL_CALL_TAGS, false);
    BareInPrefix(u, b, |u|);
    BareShift(b, t, 0, |u|, p);
  }

  /** Of a tag that is not short and bare, cut before its last character, not even the start is held. */
  lemma CutTagIsLetGo(t: string, p: nat, q: nat)
    requires FindOpen(t, 0, TOOL_CALL_TAGS) == Some((p, q)) && q <= |t| && !ShortBare(t, p, q)
    ensures 0 < q && p < KeepFrom(t[..q - 1], 0)
  {
    hide FindOpen, TOOL_CALL_TAGS, AllPlain, MatchTagAt, Holdable, ShortBare;
    OpenTagEnds(t);
    TagByItself(t, p, q);
    var first, u := t[..q - 1], t[p..q];
    var k := KeepFrom(first, 0);
    if k <= p {
      HoldableShift(first[k..], first, 0, k);
      HoldableIsPlain(first[k..]);
      assert first[k..][p - k] == '<';
      assert k == p && first[p..] == u[..|u| - 1];
      HeldIsShortBare(u);
    }
  }

  lemma HeldIsShortBare(u: string)
    requires IsOuterTag(u) && u != "" && Holdable(u[..|u| - 1], 0)
    ensures ShortBare(u, 0, |u|)
  {
    hide TOOL_CALL_TAGS, MatchTagAt, IsBare, CouldBeOpenTagPrefix;
    assert u[..|u| - 1][0..] == u[..|u| - 1] == u[0..|u| - 1];
    HeldTagIsBare(u);
  }

  lemma NoCallsWithoutTag(buf: string)
    requires FindOpen(buf, 0, TOOL_CALL_TAGS).None?
    ensures Settle(buf, false).calls == []
  {
    hide FindTagFrom, TOOL_CALL_TAGS, Settle, KeepFrom, SettleBlock;
    SettleOutside(buf);
  }

  lemma NoTagBehind(t: string, from: nat, to: nat)
    requires from <= to <= |t| && FindOpen(t, from, TOOL_CALL_TAGS).None?
    ensures FindOpen(t[to..], 0, TOOL_CALL_TAGS).None?
  {
    hide FindTagFrom, TOOL_CALL_TAGS, AllPlain;
    OuterNamesArePlain();
    FindFromLater(t, from, to, TOOL_CALL_TAGS, false);
    FindShift(t[to..], t, 0, to, TOOL_CALL_TAGS, false);
  }

  /** Cut there, the stream never sees the tag, and without another one it hands out no call. */
  lemma CutTagYieldsNothing(t: string, p: nat, q: nat)
    requires FindOpen(t, 0, TOOL_CALL_TAGS) == Some((p, q)) && p < q <= |t|
    requires FindOpen(t, p + 1, TOOL_CALL_TAGS).None? && !ShortBare(t, p, q)
    ensures Concat([t[..q - 1], t[q - 1..]]) == t && Run(EMPTY, [t[..q - 1], t[q - 1..]]).calls == []
  {
    hide FindOpen, TOOL_CALL_TAGS, Settle, KeepFrom, ShortBare, AllText, NoDropped, Run, Feed, Concat;
    var first, last := t[..q - 1], t[q - 1..];
    NotYetFound(t, p, q);
    CutTagIsLetGo(t, p, q);
    SettleOutsideText(first);
    var k := KeepFrom(first, 0);
    NoTagBehind(t, p + 1, k);
    CutJoins(t, q - 1, k);
    NoCallsWithoutTag(t[k..]);
    TwoRuns(first, last);
    TwoFeeds(first, last, k);
  }

  lemma CutJoins(t: string, n: nat, k: nat)
    requires k <= n <= |t|
    ensures t[..n][k..] + t[n..] == t[k..] && t[..n] + t[n..] == t
  {
  }

  lemma TwoFeeds(a: string, b: string, k: nat)
    requires k <= |a| && Settle(a, false).state == Buffer(a[k..], false) && Settle(a, false).calls == []
    requires Settle(a[k..] + b, false).calls == []
    ensures Feed(EMPTY, a).calls + Feed(Feed(EMPTY, a).state, b).calls == []
  {
    hide Settle;
    assert EMPTY.buf + a == a;
  }

  lemma TwoRuns(a: string, b: string)
    ensures Concat([a, b]) == a + b
    ensures Run(EMPTY, [a, b]).calls == Feed(EMPTY, a).calls + Feed(Feed(EMPTY, a).state, b).calls
  {
    hide Feed;
    assert [a, b][1..] == [b] && [b][1..] == [];
    assert Concat([b]) == b + "" == b;
    var s := Feed(EMPTY, a).state;
    assert Run(s, [b]).calls == Feed(s, b).calls + [] == Feed(s, b).calls;
  }

  /**
   * A text with one outer tag whose block closes and holds a call: the stream hands out the batch parser's calls for
   * every way of cutting it if and only if the tag is bare and short.
   */
  lemma EveryCuttingIff(t: string, p: nat, q: nat, c: nat, e: nat)
    requires FindOpen(t, 0, TOOL_CALL_TAGS) == Some((p, q)) && p < q <= |t|
    requires FindOpen(t, p + 1, TOOL_CALL_TAGS).None?
    requires FindClose(t, q, TOOL_CALL_TAGS) == Some((c, e)) && q <= c <= |t| && ParseInvokes(t[q..c]) != []
    ensures (forall deltas: seq<string> :: Concat(deltas) == t ==> Run(EMPTY, deltas).calls == Extract(t).calls)
            <==> ShortBare(t, p, q)
  {
    hide FindOpen, FindClose, TOOL_CALL_TAGS, ParseInvokes, Extract, Run, Concat, ShortBare, ShortBareTags, Untouched;
    ExtractBlock(t, p, q, c, e);
    if ShortBare(t, p, q) {
      NoTagBehind(t, p + 1, e);
      OneTagIsShortBare(t, p, q, e);
      forall deltas: seq<string> | Concat(deltas) == t ensures Run(EMPTY, deltas).calls == Extract(t).calls {
        StreamRefinesBatch(deltas, false);
      }
    } else {
      CutTagYieldsNothing(t, p, q);
    }
  }

  lemma OneTagIsShortBare(t: string, p: nat, q: nat, e: nat)
    requires FindOpen(t, 0, TOOL_CALL_TAGS) == Some((p, q)) && q <= |t| && ShortBare(t, p, q)
    requires FindClose(t, q, TOOL_CALL_TAGS).Some? && FindClose(t, q, TOOL_CALL_TAGS).value.1 == e
    requires e <= |t| && FindOpen(t[e..], 0, TOOL_CALL_TAGS).None?
    ensures ShortBareTags(t, false)
  {
    hide FindOpen, FindClose, TOOL_CALL_TAGS, ShortBare;
  }
}
