/**
 * The streaming accumulator. `Settle` defines what one `ingest` does with its buffer; the class performs it in place.
 *
 * Every piece of text that leaves the buffer is recorded: emitted to the user, lost (a run before an opening tag whose
 * block was still open) or dropped (a closed block without calls). Only emitted pieces are visible to the caller.
 */
module DsmlStream {
  import opened Wrappers
  import opened DsmlTags
  import opened DsmlPartial
  import opened DsmlParse

  datatype Piece = Emitted(text: string) | Lost(text: string) | Dropped(text: string)

  datatype Buffer = Buffer(buf: string, inDsml: bool)

  datatype Outcome = Outcome(state: Buffer, pieces: seq<Piece>, calls: seq<Call>)

  const EMPTY := Buffer("", false)

  /** The piece for `text`, or none when there is no text. */
  function PieceOf(p: Piece): seq<Piece> {
    if p.text == "" then [] else [p]
  }

  /** What one `ingest` does once the delta is appended to the buffer. */
  function Settle(buf: string, inDsml: bool): Outcome
    decreases |buf|, 1
  {
    var open := FindOpen(buf, 0, TOOL_CALL_TAGS);
    if inDsml then SettleBlock("", buf)
    else if open.Some? then
      var pos := open.value.0;
      SettleBlock(buf[..pos], buf[pos..])
    else
      var keep := KeepFrom(buf, 0);
      Outcome(Buffer(buf[keep..], false), PieceOf(Emitted(buf[..keep])), [])
  }

  /** `buf` starts with an open block; `prefix` is the text drained in front of it. */
  function SettleBlock(prefix: string, buf: string): Outcome
    decreases |buf|, 0
  {
    var close := FindClose(buf, 0, TOOL_CALL_TAGS);
    if close.None? then Outcome(Buffer(buf, true), PieceOf(Lost(prefix)), [])
    else
      var end := close.value.1;
      var calls := Extract(buf[..end]).calls;
      var dropped := if calls == [] then [Dropped(buf[..end])] else [];
      var rest := Settle(buf[end..], false);
      Outcome(rest.state, PieceOf(Emitted(prefix)) + dropped + rest.pieces, calls + rest.calls)
  }

  function Feed(s: Buffer, delta: string): Outcome {
    Settle(s.buf + delta, s.inDsml)
  }

  /** A whole stream: all deltas in order, then what is left in the buffer is flushed. */
  function Run(s: Buffer, deltas: seq<string>): Outcome
    decreases |deltas|
  {
    if deltas == [] then Outcome(s, [], [])
    else
      var first := Feed(s, deltas[0]);
      var rest := Run(first.state, deltas[1..]);
      Outcome(rest.state, first.pieces + rest.pieces, first.calls + rest.calls)
  }

  function Concat(deltas: seq<string>): string
    decreases |deltas|
  {
    if deltas == [] then "" else deltas[0] + Concat(deltas[1..])
  }

  /** All text of a list of pieces, in order. */
  function AllText(pieces: seq<Piece>): string
    decreases |pieces|
  {
    if pieces == [] then "" else pieces[0].text + AllText(pieces[1..])
  }

  /** The text the caller sees. */
  function Visible(pieces: seq<Piece>): string
    decreases |pieces|
  {
    if pieces == [] then ""
    else (if pieces[0].Emitted? then pieces[0].text else "") + Visible(pieces[1..])
  }

  lemma {:induction false} VisibleConcat(a: seq<Piece>, b: seq<Piece>)
    ensures Visible(a + b) == Visible(a) + Visible(b)
    decreases |a|
  {
    if a == [] {
      assert a + b == b;
    } else {
      assert (a + b)[1..] == a[1..] + b;
      VisibleConcat(a[1..], b);
    }
  }

  lemma PieceTexts(text: string)
    ensures Visible(PieceOf(Emitted(text))) == AllText(PieceOf(Emitted(text))) == text
    ensures Visible(PieceOf(Lost(text))) == "" && AllText(PieceOf(Lost(text))) == text
    ensures forall p :: p in PieceOf(Emitted(text)) ==> p.Emitted?
    ensures forall p :: p in PieceOf(Lost(text)) ==> p.Lost?
  {
    assert text + "" == text;
    assert PieceOf(Emitted(text)) != [] ==> PieceOf(Emitted(text))[1..] == [];
    assert PieceOf(Lost(text)) != [] ==> PieceOf(Lost(text))[1..] == [];
  }

  lemma {:induction false} AllTextConcat(a: seq<Piece>, b: seq<Piece>)
    ensures AllText(a + b) == AllText(a) + AllText(b)
    decreases |a|
  {
    if a == [] {
      assert a + b == b;
    } else {
      assert (a + b)[1..] == a[1..] + b;
      AllTextConcat(a[1..], b);
    }
  }

  lemma SettleEmpty()
    ensures Settle("", false) == Outcome(EMPTY, [], []) && Visible([]) == ""
  {
  }

  /** Outside a block: either a block opens, or everything but the held end is emitted. */
  lemma SettleOutside(buf: string)
    ensures var open := FindTagFrom(buf, 0, TOOL_CALL_TAGS, false);
            if open.Some? then Settle(buf, false) == SettleBlock(buf[..open.value.0], buf[open.value.0..])
            else
              var keep := KeepFrom(buf, 0);
              && Settle(buf, false).state == Buffer(buf[keep..], false)
              && Visible(Settle(buf, false).pieces) == buf[..keep]
              && Settle(buf, false).calls == []
  {
    hide FindTagFrom, KeepFrom, SettleBlock, TOOL_CALL_TAGS;
    PieceTexts(buf[..KeepFrom(buf, 0)]);
  }

  /** Inside a block: wait for its end, or hand out its calls and go on with what follows it. */
  lemma {:induction false} SettleInside(prefix: string, buf: string)
    ensures var close := FindTagFrom(buf, 0, TOOL_CALL_TAGS, true);
            var o := SettleBlock(prefix, buf);
            if close.None? then o.state == Buffer(buf, true) && Visible(o.pieces) == "" && o.calls == []
            else
              var end := close.value.1;
              var rest := Settle(buf[end..], false);
              && o.state == rest.state
              && Visible(o.pieces) == prefix + Visible(rest.pieces)
              && o.calls == Extract(buf[..end]).calls + rest.calls
              && (buf[end..] == "" ==>
                    o.state == EMPTY && Visible(o.pieces) == prefix && o.calls == Extract(buf[..end]).calls)
  {
    SettleEmpty();
    hide FindTagFrom, Settle, Extract, TOOL_CALL_TAGS;
    PieceTexts(prefix);
    var close := FindTagFrom(buf, 0, TOOL_CALL_TAGS, true);
    if close.Some? {
      var end := close.value.1;
      var dropped := if Extract(buf[..end]).calls == [] then [Dropped(buf[..end])] else [];
      assert Visible(dropped) == "";
      VisibleConcat(PieceOf(Emitted(prefix)) + dropped, Settle(buf[end..], false).pieces);
      VisibleConcat(PieceOf(Emitted(prefix)), dropped);
    }
  }

  lemma SettleInBlock(buf: string)
    ensures Settle(buf, true) == SettleBlock("", buf)
  {
  }

  function Shown(text: string): Option<string> {
    if text == "" then None else Some(text)
  }

  /** `DsmlAccumulator`, updated in place. */
  class DsmlAccumulator {
    var buf: string
    var inDsml: bool

    constructor ()
      ensures buf == "" && !inDsml
    {
      buf, inDsml := "", false;
    }

    ghost function State(): Buffer
      reads this
    {
      Buffer(buf, inDsml)
    }

    method Ingest(delta: string) returns (content: Option<string>, calls: seq<Call>)
      modifies this
      ensures State() == Feed(old(State()), delta).state
      ensures content == Shown(Visible(Feed(old(State()), delta).pieces))
      ensures calls == Feed(old(State()), delta).calls
      decreases |buf| + |delta|
    {
      hide FindTagFrom, Extract, KeepFrom, Visible, TOOL_CALL_TAGS, Settle, SettleBlock, AllPlain, HeldBytes,
        BoundaryFromEnd;
      OuterNamesArePlain();
      buf := buf + delta;
      var prefix := "";
      if !inDsml {
        SettleOutside(buf);
        var open := FindTag(buf, TOOL_CALL_TAGS, false);
        if open.Some? {
          var pos := open.value.0;
          prefix := buf[..pos];
          buf := buf[pos..];
        } else {
          HeldBytesBoundary(buf);
          var keep := LongestPartialOpenTagSuffix(buf);
          var safe := BoundaryFromEnd(buf, keep, 0).value;
          var emit := buf[..safe];
          buf := buf[safe..];
          return Shown(emit), [];
        }
      } else {
        SettleInBlock(buf);
      }
      SettleInside(prefix, buf);
      inDsml := true;
      var close := FindTag(buf, TOOL_CALL_TAGS, true);
      if close.None? {
        return None, [];
      }
      var end := close.value.1;
      var _, found := ExtractToolCalls(buf[..end]);
      var suffix := buf[end..];
      buf, inDsml := "", false;
      if suffix == "" {
        return Shown(prefix), found;
      }
      buf := suffix;
      assert suffix + "" == suffix;
      var more, moreCalls := this.Ingest("");
      content := Shown(prefix + (if more.Some? then more.value else ""));
      calls := found + moreCalls;
    }

    method Flush() returns (text: Option<string>)
      modifies this
      ensures buf == "" && text == Shown(old(buf))
      ensures inDsml == (old(inDsml) && old(buf) == "")
    {
      if buf == "" {
        return None;
      }
      text := Some(buf);
      buf, inDsml := "", false;
    }
  }
}
