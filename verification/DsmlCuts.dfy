/**
 * What the stream withholds, told from the text and from where it is cut. `After` says how far a text is settled once
 * it has arrived, whatever its deltas were; `LostAt` is the run of text that one more delta loses, and `EmptyBlocks`
 * the closed blocks that vanish. Both are computed without running the accumulator.
 */
module DsmlCuts {
  import opened Wrappers
  import opened DsmlTags
  import opened DsmlPartial
  import opened DsmlParse
  import opened DsmlStream
  import opened DsmlRefinement
  import Sequences

  /** Where the last closed block ends, where the rest that is still held starts, and whether it is an open block. */
  datatype Progress = Progress(start: nat, held: nat, inBlock: bool)

  function After(t: string): (g: Progress)
    ensures g.start <= g.held <= |t|
    decreases |t|
  {
    var open := FindOpen(t, 0, TOOL_CALL_TAGS);
    if open.None? then Progress(0, KeepFrom(t, 0), false)
    else
      var close := FindClose(t, open.value.1, TOOL_CALL_TAGS);
      if close.None? then Progress(0, open.value.0, true)
      else
        var e := close.value.1;
        var rest := After(t[e..]);
        Progress(rest.start + e, rest.held + e, rest.inBlock)
  }

  /**
   * The text a delta `d` loses when it arrives behind `a`. It must end inside a block; lost is what stands in front of
   * the tag of that block, behind the last closed block and behind what had been let go of before.
   */
  function LostAt(a: string, d: string): string {
    var before, after := After(a), After(a + d);
    var from := if before.held < after.start then after.start else before.held;
    if after.inBlock && from < after.held then (a + d)[from..after.held] else ""
  }

  function OneText(text: string): seq<string> {
    if text == "" then [] else [text]
  }

  function LostRuns(a: string, deltas: seq<string>): seq<string>
    decreases |deltas|
  {
    if deltas == [] then [] else OneText(LostAt(a, deltas[0])) + LostRuns(a + deltas[0], deltas[1..])
  }

  /** The closed blocks of a text in which no invocation can be parsed. */
  function EmptyBlocks(t: string): seq<string>
    decreases |t|
  {
    var open := FindOpen(t, 0, TOOL_CALL_TAGS);
    if open.None? then []
    else
      var (p, q) := open.value;
      var close := FindClose(t, q, TOOL_CALL_TAGS);
      if close.None? then []
      else
        var (c, e) := close.value;
        (if ParseInvokes(t[q..c]) == [] then [t[p..e]] else []) + EmptyBlocks(t[e..])
  }

  /** The condition on blocks that the batch comparison uses is that there are none of these. */
  lemma {:induction false} YieldingMeans(t: string)
    ensures ShortBareTags(t, true) <==> ShortBareTags(t, false) && EmptyBlocks(t) == []
    decreases |t|
  {
    hide FindOpen, FindClose, TOOL_CALL_TAGS, ShortBare, ParseInvokes;
    var open := FindOpen(t, 0, TOOL_CALL_TAGS);
    if open.Some? {
      var close := FindClose(t, open.value.1, TOOL_CALL_TAGS);
      if close.Some? {
        YieldingMeans(t[close.value.1..]);
      }
    }
  }

  // ---------- Pieces that are not shown ----------

  /** The texts of the dropped pieces, or of the lost ones. */
  function TextsOf(pieces: seq<Piece>, dropped: bool): seq<string>
    decreases |pieces|
  {
    if pieces == [] then []
    else
      var p := pieces[0];
      (if (if dropped then p.Dropped? else p.Lost?) then [p.text] else []) + TextsOf(pieces[1..], dropped)
  }

  lemma {:induction false} TextsOfConcat(a: seq<Piece>, b: seq<Piece>, dropped: bool)
    ensures TextsOf(a + b, dropped) == TextsOf(a, dropped) + TextsOf(b, dropped)
    decreases |a|
  {
    if a == [] {
      assert a + b == b;
    } else {
      assert (a + b)[1..] == a[1..] + b;
      TextsOfConcat(a[1..], b, dropped);
    }
  }

  lemma TextsOfOne(p: Piece)
    ensures TextsOf([p], true) == (if p.Dropped? then [p.text] else [])
    ensures TextsOf([p], false) == (if p.Lost? then [p.text] else [])
    ensures TextsOf([], true) == TextsOf([], false) == []
  {
    assert [p][1..] == [];
  }

  lemma {:induction false} NoTexts(pieces: seq<Piece>, dropped: bool)
    ensures TextsOf(pieces, dropped) == [] <==> forall p :: p in pieces ==> !(if dropped then p.Dropped? else p.Lost?)
    decreases |pieces|
  {
    if pieces != [] {
      NoTexts(pieces[1..], dropped);
      assert pieces == [pieces[0]] + pieces[1..];
    }
  }

  // ---------- One buffer ----------

  /** What a buffer turns into, told from its text. */
  predicate Told(o: Outcome, buf: string, lost: string, empty: seq<string>) {
    var g := After(buf);
    && o.state == Buffer(buf[g.held..], g.inBlock)
    && TextsOf(o.pieces, false) == OneText(lost)
    && TextsOf(o.pieces, true) == empty
  }

  /** The run of text in front of the tag of the open block a buffer ends with. */
  function Front(t: string): string {
    var g := After(t);
    if g.inBlock then t[g.start..g.held] else ""
  }

  /** Settling a block: the text in front of it is lost if it is open; it vanishes if it holds no call. */
  lemma {:induction false} SettleBlockTexts(prefix: string, buf: string)
    ensures var close := FindClose(buf, 0, TOOL_CALL_TAGS);
            var o := SettleBlock(prefix, buf);
            if close.None? then
              o.state == Buffer(buf, true) && TextsOf(o.pieces, false) == OneText(prefix) && TextsOf(o.pieces, true) == []
            else
              var block := buf[..close.value.1];
              var rest := Settle(buf[close.value.1..], false);
              && o.state == rest.state
              && TextsOf(o.pieces, false) == TextsOf(rest.pieces, false)
              && TextsOf(o.pieces, true)
                 == (if Extract(block).calls == [] then [block] else []) + TextsOf(rest.pieces, true)
  {
    hide FindOpen, FindClose, TOOL_CALL_TAGS, Extract, Settle, TextsOf;
    TextsOfOne(Emitted(prefix));
    TextsOfOne(Lost(prefix));
    var close := FindClose(buf, 0, TOOL_CALL_TAGS);
    if close.Some? {
      var block := buf[..close.value.1];
      var dropped := if Extract(block).calls == [] then [Dropped(block)] else [];
      var rest := Settle(buf[close.value.1..], false);
      TextsOfOne(Dropped(block));
      BothConcat(PieceOf(Emitted(prefix)) + dropped, rest.pieces);
      BothConcat(PieceOf(Emitted(prefix)), dropped);
    }
  }

  lemma BothConcat(a: seq<Piece>, b: seq<Piece>)
    ensures TextsOf(a + b, true) == TextsOf(a, true) + TextsOf(b, true)
    ensures TextsOf(a + b, false) == TextsOf(a, false) + TextsOf(b, false)
  {
    TextsOfConcat(a, b, true);
    TextsOfConcat(a, b, false);
  }

  lemma {:induction false} AfterUnfold(t: string, p: nat, q: nat)
    requires FindOpen(t, 0, TOOL_CALL_TAGS) == Some((p, q)) && q <= |t|
    ensures var close := FindClose(t, q, TOOL_CALL_TAGS);
            if close.None? then After(t) == Progress(0, p, true) && EmptyBlocks(t) == []
            else
              var (c, e) := close.value;
              var rest := After(t[e..]);
              && After(t) == Progress(rest.start + e, rest.held + e, rest.inBlock)
              && EmptyBlocks(t) == (if ParseInvokes(t[q..c]) == [] then [t[p..e]] else []) + EmptyBlocks(t[e..])
  {
    hide FindOpen, FindClose, TOOL_CALL_TAGS, ParseInvokes;
  }

  /** A text in front of the first opening tag shifts everything and adds itself to the open block's front. */
  lemma {:induction false} AfterShift(a: string, y: string)
    requires var open := FindOpen(a + y, 0, TOOL_CALL_TAGS); open.Some? && |a| <= open.value.0
    ensures var g, h := After(y), After(a + y);
            && FindOpen(y, 0, TOOL_CALL_TAGS).Some?
            && h.held == g.held + |a| && h.inBlock == g.inBlock
            && h.start == (if g.start == 0 then 0 else g.start + |a|)
    ensures EmptyBlocks(a + y) == EmptyBlocks(y)
  {
    hide FindOpen, FindClose, TOOL_CALL_TAGS, ShortBare, ParseInvokes, After, EmptyBlocks;
    SearchShift(a, y);
    var (p, q) := FindOpen(y, 0, TOOL_CALL_TAGS).value;
    AfterUnfold(y, p, q);
    AfterUnfold(a + y, p + |a|, q + |a|);
    var close := FindClose(y, q, TOOL_CALL_TAGS);
    if close.Some? {
      var (c, e) := close.value;
      SliceShift(a, y, q, c);
      SliceShift(a, y, p, e);
      SliceShift(a, y, e, |y|);
    }
  }

  /** The first block of a text that starts with a bare tag. */
  lemma FirstBlock(b: string)
    requires StartsBare(b) && ShortBareTags(b, false)
    ensures var close := FindClose(b, 0, TOOL_CALL_TAGS);
            if close.None? then After(b) == Progress(0, 0, true) && EmptyBlocks(b) == []
            else
              var e := close.value.1;
              var g := After(b[e..]);
              && 0 < e <= |b| && ShortBareTags(b[e..], false)
              && After(b) == Progress(g.start + e, g.held + e, g.inBlock)
              && EmptyBlocks(b) == (if Extract(b[..e]).calls == [] then [b[..e]] else []) + EmptyBlocks(b[e..])
  {
    hide FindOpen, FindClose, TOOL_CALL_TAGS, ShortBare, ParseInvokes, Extract;
    CloseAfterBare(b);
    var q := FindOpen(b, 0, TOOL_CALL_TAGS).value.1;
    var close := FindClose(b, 0, TOOL_CALL_TAGS);
    if close.Some? {
      var (c, e) := close.value;
      CutBlock(b, q, c, e);
      BlockAlone(b[..e], q, c);
      PrefixSlices(b[..e], b, q, c);
    }
  }

  lemma OutsideTold(buf: string)
    requires FindOpen(buf, 0, TOOL_CALL_TAGS).None?
    ensures Told(Settle(buf, false), buf, "", [])
  {
    hide FindOpen, TOOL_CALL_TAGS, KeepFrom, SettleBlock;
    TextsOfOne(Emitted(buf[..KeepFrom(buf, 0)]));
  }

  /** Where a settled rest stands in the text it is the end of. */
  lemma ToldBehind(o: Outcome, rest: Outcome, front: string, t: string, lost: string, empty: seq<string>)
    requires Told(rest, t, lost, empty)
    requires After(front + t) == Progress(After(t).start + |front|, After(t).held + |front|, After(t).inBlock)
    requires o.state == rest.state && TextsOf(o.pieces, false) == TextsOf(rest.pieces, false)
    ensures Told(o, front + t, lost, TextsOf(o.pieces, true)) && Front(front + t) == Front(t)
  {
    hide After, TextsOf;
    SliceShift(front, t, After(t).held, |t|);
    SliceShift(front, t, After(t).start, After(t).held);
  }

  /** What one ingest that starts outside a block keeps, loses and drops. */
  lemma {:induction false} SettleTold(buf: string)
    requires ShortBareTags(buf, false)
    ensures Told(Settle(buf, false), buf, Front(buf), EmptyBlocks(buf))
    decreases |buf|, 1
  {
    hide FindOpen, FindClose, TOOL_CALL_TAGS, ShortBareTags, ShortBare, SettleBlock, StartsBare, TextsOf, After,
      EmptyBlocks;
    var open := FindOpen(buf, 0, TOOL_CALL_TAGS);
    if open.None? {
      OutsideTold(buf);
      NothingOpen(buf);
    } else {
      var a, b := buf[..open.value.0], buf[open.value.0..];
      assert buf == a + b && a + b + "" == a + b && b + "" == b;
      OpensBare(a, b, "", false);
      AfterShift(a, b);
      FirstBlock(b);
      SettleOpens(buf);
      if FindClose(b, 0, TOOL_CALL_TAGS).None? {
        SettleBlockTexts(a, b);
      } else {
        ClosedTold(a, b);
        ToldBehind(SettleBlock(a, b), SettleBlock(a, b), a, b, Front(b), EmptyBlocks(b));
      }
    }
  }

  lemma NothingOpen(buf: string)
    requires FindOpen(buf, 0, TOOL_CALL_TAGS).None?
    ensures After(buf) == Progress(0, KeepFrom(buf, 0), false) && EmptyBlocks(buf) == [] && Front(buf) == ""
  {
  }

  lemma SettleOpens(buf: string)
    requires FindOpen(buf, 0, TOOL_CALL_TAGS).Some?
    ensures var p := FindOpen(buf, 0, TOOL_CALL_TAGS).value.0; Settle(buf, false) == SettleBlock(buf[..p], buf[p..])
  {
  }

  /** A block that closes: nothing in front of it is lost, and what follows it is settled on its own. */
  lemma {:induction false} ClosedTold(prefix: string, b: string)
    requires StartsBare(b) && ShortBareTags(b, false) && FindClose(b, 0, TOOL_CALL_TAGS).Some?
    ensures Told(SettleBlock(prefix, b), b, Front(b), EmptyBlocks(b)) && After(b).start > 0
    decreases |b|, 0
  {
    hide FindOpen, FindClose, TOOL_CALL_TAGS, ShortBareTags, StartsBare, SettleBlock, Settle, TextsOf, After, EmptyBlocks,
      Extract, Told;
    var e := FindClose(b, 0, TOOL_CALL_TAGS).value.1;
    FirstBlock(b);
    SettleTold(b[e..]);
    SettleBlockTexts(prefix, b);
    assert b == b[..e] + b[e..];
    TellsTexts(Settle(b[e..], false), b[e..], Front(b[e..]), EmptyBlocks(b[e..]));
    ToldBehind(SettleBlock(prefix, b), Settle(b[e..], false), b[..e], b[e..], Front(b[e..]), EmptyBlocks(b[e..]));
  }

  lemma TellsTexts(o: Outcome, buf: string, lost: string, empty: seq<string>)
    requires Told(o, buf, lost, empty)
    ensures TextsOf(o.pieces, true) == empty
  {
  }

  // ---------- One delta behind a text ----------

  /** The accumulator's state after a text, whatever its deltas were. */
  function StateAfter(t: string): Buffer {
    var g := After(t);
    Buffer(t[g.held..], g.inBlock)
  }

  /** A delta that arrives behind a text does what the two texts tell. */
  predicate Forwarded(a: string, d: string) {
    var o := Feed(StateAfter(a), d);
    && o.state == StateAfter(a + d)
    && TextsOf(o.pieces, false) == OneText(LostAt(a, d))
    && EmptyBlocks(a + d) == EmptyBlocks(a) + TextsOf(o.pieces, true)
  }

  /** What has been let go of is `pre`; what is settled now is `y`. */
  lemma {:induction false} LostIsFront(a: string, d: string, pre: string, y: string)
    requires a + d == pre + y && After(a).held == |pre|
    requires var g, h := After(y), After(a + d);
             && h.held == g.held + |pre| && h.inBlock == g.inBlock
             && h.start == (if g.start == 0 then 0 else g.start + |pre|)
    ensures LostAt(a, d) == Front(y) && StateAfter(a + d) == StateAfter(y)
  {
    hide After;
    var g := After(y);
    SliceShift(pre, y, g.held, |y|);
    SliceShift(pre, y, g.start, g.held);
  }

  lemma StateIs(a: string, d: string, pre: string, y: string)
    requires a + d == pre + y && After(a).held == |pre|
    ensures Feed(StateAfter(a), d) == Settle(y, After(a).inBlock)
  {
    hide After, Settle;
    assert a[|pre|..] + d == (a + d)[|pre|..] == y;
  }

  /** Behind a text that opens no block. */
  lemma ForwardOutside(a: string, d: string)
    requires FindOpen(a, 0, TOOL_CALL_TAGS).None? && ShortBareTags(a + d, false)
    ensures Forwarded(a, d)
  {
    hide FindOpen, FindClose, TOOL_CALL_TAGS, ShortBareTags, KeepFrom, Settle, TextsOf, After, EmptyBlocks, Feed,
      StateAfter, LostAt, Front;
    var h := KeepFrom(a, 0);
    var pre, y := a[..h], (a + d)[h..];
    assert a + d == pre + y;
    NothingOpen(a);
    NothingLetGoTooEarly(a, d, false);
    TagsShift(pre, y, false);
    SettleTold(y);
    AfterOutside(a, d);
    LostIsFront(a, d, pre, y);
    StateIs(a, d, pre, y);
    StateToldIs(Settle(y, false), y, Front(y), EmptyBlocks(y));
    assert [] + EmptyBlocks(y) == EmptyBlocks(y);
  }

  lemma StateToldIs(o: Outcome, buf: string, lost: string, empty: seq<string>)
    requires Told(o, buf, lost, empty)
    ensures o.state == StateAfter(buf) && TextsOf(o.pieces, false) == OneText(lost) && TextsOf(o.pieces, true) == empty
  {
    hide After, TextsOf;
  }

  lemma AfterOutside(a: string, d: string)
    requires FindOpen(a, 0, TOOL_CALL_TAGS).None?
    requires var open := FindOpen(a + d, 0, TOOL_CALL_TAGS); open.None? || KeepFrom(a, 0) <= open.value.0
    ensures var n := KeepFrom(a, 0);
            var y := (a + d)[n..];
            var g, h := After(y), After(a + d);
            && h.held == g.held + n && h.inBlock == g.inBlock
            && h.start == (if g.start == 0 then 0 else g.start + n)
            && EmptyBlocks(a + d) == EmptyBlocks(y)
  {
    hide FindOpen, TOOL_CALL_TAGS, KeepFrom, After, EmptyBlocks;
    var n := KeepFrom(a, 0);
    var pre, y := a[..n], (a + d)[n..];
    assert a + d == pre + y && |pre| == n;
    if FindOpen(pre + y, 0, TOOL_CALL_TAGS).None? {
      SearchShift(pre, y);
      NothingOpen(pre + y);
      NothingOpen(y);
      KeepContinues(a, d);
    } else {
      AfterShift(pre, y);
    }
  }

  /** Behind a text that ends inside its first block. */
  lemma ForwardInside(a: string, d: string)
    requires ShortBareTags(a + d, false)
    requires var open := FindOpen(a, 0, TOOL_CALL_TAGS);
             open.Some? && FindClose(a, open.value.1, TOOL_CALL_TAGS).None?
    ensures Forwarded(a, d)
  {
    hide FindOpen, FindClose, TOOL_CALL_TAGS, ShortBareTags, ShortBare, StartsBare, Settle, SettleBlock, TextsOf, After,
      EmptyBlocks, Feed, StateAfter, LostAt, Front, Told;
    var (p, q) := FindOpen(a, 0, TOOL_CALL_TAGS).value;
    AfterUnfold(a, p, q);
    var pre, b := a[..p], a[p..];
    var y := b + d;
    assert a == pre + b && a + d == pre + b + d == pre + y;
    OpensBare(pre, b, d, false);
    BareContinues(b, d);
    AfterShift(pre, y);
    InsideTold(y);
    LostIsFront(a, d, pre, y);
    StateIs(a, d, pre, y);
    assert [] + EmptyBlocks(y) == EmptyBlocks(y);
  }

  /** A buffer inside a block. */
  lemma InsideTold(y: string)
    requires StartsBare(y) && ShortBareTags(y, false)
    ensures var o := Settle(y, true);
            && o.state == StateAfter(y) && TextsOf(o.pieces, false) == OneText(Front(y))
            && TextsOf(o.pieces, true) == EmptyBlocks(y)
  {
    hide FindOpen, FindClose, TOOL_CALL_TAGS, ShortBareTags, StartsBare, Settle, SettleBlock, TextsOf, After, EmptyBlocks,
      Told;
    SettleInBlock(y);
    FirstBlock(y);
    if FindClose(y, 0, TOOL_CALL_TAGS).None? {
      SettleBlockTexts("", y);
    } else {
      ClosedTold("", y);
      StateToldIs(SettleBlock("", y), y, Front(y), EmptyBlocks(y));
    }
  }

  lemma BareContinues(b: string, d: string)
    requires StartsBare(b)
    ensures StartsBare(b + d)
  {
    hide FindTagFrom, TOOL_CALL_TAGS, ShortBare, AllPlain;
    OuterNamesArePlain();
    OpenTagEnds(b);
    FindStable(b, b + d, 0, TOOL_CALL_TAGS, false);
    BareInPrefix(b, b + d, FindOpen(b, 0, TOOL_CALL_TAGS).value.1);
  }

  /** The first block of a text is the first block of every continuation. */
  lemma BlockContinues(a: string, d: string)
    requires ShortBareTags(a + d, false)
    requires var open := FindOpen(a, 0, TOOL_CALL_TAGS);
             open.Some? && FindClose(a, open.value.1, TOOL_CALL_TAGS).Some?
    ensures var open := FindOpen(a, 0, TOOL_CALL_TAGS);
            var close := FindClose(a, open.value.1, TOOL_CALL_TAGS);
            && FindOpen(a + d, 0, TOOL_CALL_TAGS) == open && FindClose(a + d, open.value.1, TOOL_CALL_TAGS) == close
            && ShortBareTags(a[close.value.1..] + d, false)
  {
    hide FindOpen, FindClose, TOOL_CALL_TAGS, ShortBareTags;
    var open := FindOpen(a, 0, TOOL_CALL_TAGS);
    FirstTagsStay(a, d);
    var e := FindClose(a, open.value.1, TOOL_CALL_TAGS).value.1;
    assert (a + d)[e..] == a[e..] + d;
    RestIsBare(a + d);
  }

  lemma FirstTagsStay(a: string, d: string)
    requires var open := FindOpen(a, 0, TOOL_CALL_TAGS);
             open.Some? && FindClose(a, open.value.1, TOOL_CALL_TAGS).Some?
    ensures var open := FindOpen(a, 0, TOOL_CALL_TAGS);
            && FindOpen(a + d, 0, TOOL_CALL_TAGS) == open
            && FindClose(a + d, open.value.1, TOOL_CALL_TAGS) == FindClose(a, open.value.1, TOOL_CALL_TAGS)
  {
    hide FindTagFrom, TOOL_CALL_TAGS, AllPlain;
    OuterNamesArePlain();
    FindStable(a, a + d, 0, TOOL_CALL_TAGS, false);
    FindStable(a, a + d, FindOpen(a, 0, TOOL_CALL_TAGS).value.1, TOOL_CALL_TAGS, true);
  }

  lemma RestIsBare(t: string)
    requires ShortBareTags(t, false)
    requires var open := FindOpen(t, 0, TOOL_CALL_TAGS);
             open.Some? && FindClose(t, open.value.1, TOOL_CALL_TAGS).Some?
    ensures var open := FindOpen(t, 0, TOOL_CALL_TAGS);
            ShortBareTags(t[FindClose(t, open.value.1, TOOL_CALL_TAGS).value.1..], false)
  {
    hide FindOpen, FindClose, TOOL_CALL_TAGS, ShortBare;
  }

  /** What a delta does is told by the text before it and the text with it, for every text with short bare tags. */
  lemma {:induction false} Forward(a: string, d: string)
    requires ShortBareTags(a + d, false)
    ensures Forwarded(a, d)
    decreases |a|
  {
    hide FindOpen, FindClose, TOOL_CALL_TAGS, ShortBareTags, Settle, TextsOf, After, EmptyBlocks, ParseInvokes, Forwarded;
    var open := FindOpen(a, 0, TOOL_CALL_TAGS);
    if open.None? {
      ForwardOutside(a, d);
    } else if FindClose(a, open.value.1, TOOL_CALL_TAGS).None? {
      ForwardInside(a, d);
    } else {
      BlockContinues(a, d);
      Forward(a[FindClose(a, open.value.1, TOOL_CALL_TAGS).value.1..], d);
      ForwardBehind(a, d);
    }
  }

  /** A first block that was closed before the delta does not matter. */
  lemma {:induction false} ForwardBehind(a: string, d: string)
    requires ShortBareTags(a + d, false)
    requires var open := FindOpen(a, 0, TOOL_CALL_TAGS);
             && open.Some? && FindClose(a, open.value.1, TOOL_CALL_TAGS).Some?
             && Forwarded(a[FindClose(a, open.value.1, TOOL_CALL_TAGS).value.1..], d)
    ensures Forwarded(a, d)
  {
    hide FindOpen, FindClose, TOOL_CALL_TAGS, ShortBareTags, TextsOf, After, EmptyBlocks, ParseInvokes, Feed, StateAfter,
      LostAt;
    var (p, q) := FindOpen(a, 0, TOOL_CALL_TAGS).value;
    var (c, e) := FindClose(a, q, TOOL_CALL_TAGS).value;
    BlockContinues(a, d);
    AfterUnfold(a, p, q);
    AfterUnfold(a + d, p, q);
    var rest := a[e..];
    assert a == a[..e] + rest && a + d == a[..e] + (rest + d);
    assert (a + d)[e..] == rest + d && (a + d)[q..c] == a[q..c] && (a + d)[p..e] == a[p..e];
    StateBehind(a[..e], rest);
    StateBehind(a[..e], rest + d);
    LostBehind(a[..e], rest, d);
    var first := if ParseInvokes(a[q..c]) == [] then [a[p..e]] else [];
    Sequences.Regroup(first, EmptyBlocks(rest), TextsOf(Feed(StateAfter(rest), d).pieces, true));
  }

  predicate Behind(pre: string, t: string) {
    After(pre + t) == Progress(After(t).start + |pre|, After(t).held + |pre|, After(t).inBlock)
  }

  lemma StateBehind(pre: string, t: string)
    requires Behind(pre, t)
    ensures StateAfter(pre + t) == StateAfter(t)
  {
    hide After;
    SliceShift(pre, t, After(t).held, |t|);
  }

  lemma LostBehind(pre: string, t: string, d: string)
    requires Behind(pre, t) && Behind(pre, t + d)
    ensures LostAt(pre + t, d) == LostAt(t, d)
  {
    hide After;
    assert pre + t + d == pre + (t + d);
    var before, after := After(t), After(t + d);
    var from := if before.held < after.start then after.start else before.held;
    if from < after.held {
      SliceShift(pre, t + d, from, after.held);
    }
  }

  // ---------- Whole streams ----------

  /** The condition on tags carries over to what has arrived. */
  lemma {:induction false} TagsInPrefix(t: string, x: string)
    requires ShortBareTags(t + x, false)
    ensures ShortBareTags(t, false)
    decreases |t|
  {
    hide FindOpen, FindClose, TOOL_CALL_TAGS, ShortBare;
    var open := FindOpen(t, 0, TOOL_CALL_TAGS);
    if open.Some? {
      OpenIsBare(t, x);
      if FindClose(t, open.value.1, TOOL_CALL_TAGS).Some? {
        BlockContinues(t, x);
        TagsInPrefix(t[FindClose(t, open.value.1, TOOL_CALL_TAGS).value.1..], x);
      }
    }
  }

  lemma OpenIsBare(t: string, x: string)
    requires ShortBareTags(t + x, false) && FindOpen(t, 0, TOOL_CALL_TAGS).Some?
    ensures var (p, q) := FindOpen(t, 0, TOOL_CALL_TAGS).value; ShortBare(t, p, q)
  {
    hide FindOpen, TOOL_CALL_TAGS, ShortBare, ShortBareTags;
    var (p, q) := FindOpen(t, 0, TOOL_CALL_TAGS).value;
    var a, b := t[..p], t[p..];
    assert t == a + b;
    OpensBare(a, b, x, false);
    SearchShift(a, b);
  }

  /** From any text on: the state, what is lost delta by delta, and what is dropped. */
  lemma {:induction false} RunTold(a: string, deltas: seq<string>)
    requires ShortBareTags(a + Concat(deltas), false)
    ensures var o := Run(StateAfter(a), deltas);
            && o.state == StateAfter(a + Concat(deltas))
            && TextsOf(o.pieces, false) == LostRuns(a, deltas)
            && EmptyBlocks(a + Concat(deltas)) == EmptyBlocks(a) + TextsOf(o.pieces, true)
    decreases |deltas|
  {
    hide ShortBareTags, TextsOf, EmptyBlocks, StateAfter, LostAt, Feed;
    if deltas == [] {
      assert a + "" == a && EmptyBlocks(a) + [] == EmptyBlocks(a);
      NoneOf();
    } else {
      var d, rest := deltas[0], deltas[1..];
      assert a + Concat(deltas) == a + d + Concat(rest);
      TagsInPrefix(a + d, Concat(rest));
      Forward(a, d);
      RunTold(a + d, rest);
      BothConcat(Feed(StateAfter(a), d).pieces, Run(StateAfter(a + d), rest).pieces);
    }
  }

  lemma NoneOf()
    ensures TextsOf([], true) == TextsOf([], false) == []
  {
  }

  lemma NothingYet()
    ensures StateAfter("") == EMPTY && EmptyBlocks("") == []
  {
  }

  /**
   * After any stream the accumulator's state is a function of the whole text. The lost pieces are the runs told by the
   * cuts, and the dropped pieces are the blocks of the text without a call, wherever it is cut.
   */
  lemma StreamTold(deltas: seq<string>)
    requires ShortBareTags(Concat(deltas), false)
    ensures Run(EMPTY, deltas).state == StateAfter(Concat(deltas))
    ensures TextsOf(Run(EMPTY, deltas).pieces, false) == LostRuns("", deltas)
    ensures TextsOf(Run(EMPTY, deltas).pieces, true) == EmptyBlocks(Concat(deltas))
  {
    hide ShortBareTags, TextsOf, EmptyBlocks, StateAfter, Run, LostRuns;
    NothingYet();
    assert "" + Concat(deltas) == Concat(deltas);
    RunTold("", deltas);
    assert [] + TextsOf(Run(EMPTY, deltas).pieces, true) == TextsOf(Run(EMPTY, deltas).pieces, true);
  }

  // ---------- Which cut loses text ----------

  /** Where the tag of the open block ends with which a text ends. */
  function TagEnd(t: string): (q: nat)
    decreases |t|
  {
    var open := FindOpen(t, 0, TOOL_CALL_TAGS);
    if open.None? then 0
    else
      var close := FindClose(t, open.value.1, TOOL_CALL_TAGS);
      if close.None? then open.value.1 else close.value.1 + TagEnd(t[close.value.1..])
  }

  lemma TagEndUnfold(t: string)
    requires After(t).inBlock
    ensures FindOpen(t, 0, TOOL_CALL_TAGS).Some?
    ensures var q := FindOpen(t, 0, TOOL_CALL_TAGS).value.1;
            var close := FindClose(t, q, TOOL_CALL_TAGS);
            if close.None? then TagEnd(t) == q
            else TagEnd(t) == close.value.1 + TagEnd(t[close.value.1..]) && After(t[close.value.1..]).inBlock
  {
    hide FindOpen, FindClose, TOOL_CALL_TAGS;
  }

  /** The first tags of a text that has arrived up to `a`. */
  lemma FirstTagsSeen(a: string, d: string)
    requires FindOpen(a + d, 0, TOOL_CALL_TAGS).Some? && FindOpen(a + d, 0, TOOL_CALL_TAGS).value.1 <= |a|
    ensures FindOpen(a, 0, TOOL_CALL_TAGS) == FindOpen(a + d, 0, TOOL_CALL_TAGS)
    ensures var q := FindOpen(a + d, 0, TOOL_CALL_TAGS).value.1;
            var close := FindClose(a + d, q, TOOL_CALL_TAGS);
            (close.None? || close.value.1 <= |a|) ==> FindClose(a, q, TOOL_CALL_TAGS) == close
  {
    hide FindTagFrom, TOOL_CALL_TAGS, AllPlain;
    OuterNamesArePlain();
    var u := a + d;
    var q := FindOpen(u, 0, TOOL_CALL_TAGS).value.1;
    FindWithin(a, u, 0, TOOL_CALL_TAGS, false);
    if FindClose(a, q, TOOL_CALL_TAGS).Some? {
      FindStable(a, u, q, TOOL_CALL_TAGS, true);
    }
    if FindClose(u, q, TOOL_CALL_TAGS).Some? && FindClose(u, q, TOOL_CALL_TAGS).value.1 <= |a| {
      FindWithin(a, u, q, TOOL_CALL_TAGS, true);
    }
  }

  /** If the tag was complete before the delta, the block had been opened already. */
  lemma {:induction false} TagWasSeen(a: string, d: string)
    requires After(a + d).inBlock && TagEnd(a + d) <= |a|
    ensures After(a) == After(a + d)
    decreases |a|
  {
    hide FindOpen, FindClose, TOOL_CALL_TAGS, After, TagEnd, EmptyBlocks, ParseInvokes;
    var u := a + d;
    TagEndUnfold(u);
    var (p, q) := FindOpen(u, 0, TOOL_CALL_TAGS).value;
    FirstTagsSeen(a, d);
    AfterUnfold(a, p, q);
    AfterUnfold(u, p, q);
    if FindClose(u, q, TOOL_CALL_TAGS).Some? {
      var e := FindClose(u, q, TOOL_CALL_TAGS).value.1;
      assert u[e..] == a[e..] + d;
      TagWasSeen(a[e..], d);
    }
  }

  /** A delta that loses text brings the end of an opening tag, but not the end of its block. */
  lemma LosesWithTag(a: string, d: string)
    requires LostAt(a, d) != ""
    ensures After(a + d).inBlock && |a| < TagEnd(a + d)
  {
    hide After, TagEnd;
    if TagEnd(a + d) <= |a| {
      TagWasSeen(a, d);
    }
  }
}
