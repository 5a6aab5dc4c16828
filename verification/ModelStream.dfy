/**
 * The part of a streamed model reply between parsed chunks and what the turn loops read: reasoning and content go
 * through an accumulator each, recovered calls are passed on at once, native calls when a choice finishes.
 */
module ModelStream {
  import opened Wrappers
  import opened DsmlTags
  import opened DsmlPartial
  import opened DsmlParse
  import opened DsmlStream
  import opened DsmlRefinement
  import opened DsmlRuns
  import Sequences
  import ToolDeltas

  /** What one choice of a chunk carries; `finishes` is the finish reason `tool_calls`. */
  datatype Choice = Choice(reasoning: Option<string>, content: Option<string>, deltas: seq<ToolDeltas.Delta>,
                           finishes: bool)

  datatype Chunk =
    | Content(text: string)
    | Reasoning(text: string)
    | Recovered(call: Call)
    | Native(native: ToolDeltas.Call)

  // ---- What is sent, seen channel by channel ----

  function ContentIn(chunks: seq<Chunk>): string
    decreases |chunks|
  {
    if chunks == [] then ""
    else (if chunks[0].Content? then chunks[0].text else "") + ContentIn(chunks[1..])
  }

  function ReasoningIn(chunks: seq<Chunk>): string
    decreases |chunks|
  {
    if chunks == [] then ""
    else (if chunks[0].Reasoning? then chunks[0].text else "") + ReasoningIn(chunks[1..])
  }

  function RecoveredIn(chunks: seq<Chunk>): seq<Call>
    decreases |chunks|
  {
    if chunks == [] then []
    else (if chunks[0].Recovered? then [chunks[0].call] else []) + RecoveredIn(chunks[1..])
  }

  function NativeIn(chunks: seq<Chunk>): seq<ToolDeltas.Call>
    decreases |chunks|
  {
    if chunks == [] then []
    else (if chunks[0].Native? then [chunks[0].native] else []) + NativeIn(chunks[1..])
  }

  /** The four channels of a list of chunks. */
  datatype Channels = Channels(content: string, reasoning: string, recovered: seq<Call>, native: seq<ToolDeltas.Call>)

  function View(chunks: seq<Chunk>): Channels {
    Channels(ContentIn(chunks), ReasoningIn(chunks), RecoveredIn(chunks), NativeIn(chunks))
  }

  function Both(a: Channels, b: Channels): Channels {
    Channels(a.content + b.content, a.reasoning + b.reasoning, a.recovered + b.recovered, a.native + b.native)
  }

  lemma {:induction false} ViewConcat(a: seq<Chunk>, b: seq<Chunk>)
    ensures View(a + b) == Both(View(a), View(b))
    decreases |a|
  {
    if a == [] {
      assert a + b == b;
    } else {
      assert (a + b)[0] == a[0] && (a + b)[1..] == a[1..] + b;
      ViewConcat(a[1..], b);
    }
  }

  lemma ViewOne(c: Chunk)
    ensures View([c]) == match c
                         case Content(t) => Channels(t, "", [], [])
                         case Reasoning(t) => Channels("", t, [], [])
                         case Recovered(call) => Channels("", "", [call], [])
                         case Native(call) => Channels("", "", [], [call])
    ensures View([]) == Channels("", "", [], [])
  {
    NothingText();
    var one, none: seq<Chunk> := [c], [];
    assert one[1..] == none && one[0] == c;
    assert ContentIn(one) == (if c.Content? then c.text else "") + ContentIn(none);
    assert ReasoningIn(one) == (if c.Reasoning? then c.text else "") + ReasoningIn(none);
    assert RecoveredIn(one) == (if c.Recovered? then [c.call] else []) + RecoveredIn(none);
    assert NativeIn(one) == (if c.Native? then [c.native] else []) + NativeIn(none);
  }

  // ---- What should be sent ----

  /** One accumulator's step on an optional delta; an empty delta is skipped. */
  function FeedOption(s: Buffer, delta: Option<string>): Outcome {
    if delta.None? || delta.value == "" then Outcome(s, [], []) else Feed(s, delta.value)
  }

  /** Everything the content accumulator shows from state `s` on; a finish flushes it, and so does the end. */
  function ShownFrom(s: Buffer, parts: seq<(Option<string>, bool)>): string
    decreases |parts|
  {
    if parts == [] then s.buf
    else
      var o := FeedOption(s, parts[0].0);
      if parts[0].1 then Visible(o.pieces) + o.state.buf + ShownFrom(EMPTY, parts[1..])
      else Visible(o.pieces) + ShownFrom(o.state, parts[1..])
  }

  function CallsFrom(s: Buffer, parts: seq<(Option<string>, bool)>): seq<Call>
    decreases |parts|
  {
    if parts == [] then []
    else
      var o := FeedOption(s, parts[0].0);
      o.calls + CallsFrom(if parts[0].1 then EMPTY else o.state, parts[1..])
  }

  function ContentParts(choices: seq<Choice>): (r: seq<(Option<string>, bool)>)
    ensures |r| == |choices| && forall k :: 0 <= k < |r| ==> r[k] == (choices[k].content, choices[k].finishes)
  {
    seq(|choices|, k requires 0 <= k < |choices| => (choices[k].content, choices[k].finishes))
  }

  function ReasoningParts(choices: seq<Choice>): (r: seq<(Option<string>, bool)>)
    ensures |r| == |choices| && forall k :: 0 <= k < |r| ==> r[k] == (choices[k].reasoning, choices[k].finishes)
  {
    seq(|choices|, k requires 0 <= k < |choices| => (choices[k].reasoning, choices[k].finishes))
  }

  function NativeParts(choices: seq<Choice>): (r: seq<ToolDeltas.Choice>)
    ensures |r| == |choices|
    ensures forall k :: 0 <= k < |r| ==> r[k] == ToolDeltas.Choice(choices[k].deltas, choices[k].finishes)
  {
    seq(|choices|, k requires 0 <= k < |choices| => ToolDeltas.Choice(choices[k].deltas, choices[k].finishes))
  }

  /** What the rest of the stream owes, given the accumulators and the fragments not yet emitted. */
  function Owed(content: Buffer, reasoning: Buffer, since: seq<ToolDeltas.Delta>, choices: seq<Choice>): Channels {
    Channels(ShownFrom(content, ContentParts(choices)), ShownFrom(reasoning, ReasoningParts(choices)),
             CallsFrom(content, ContentParts(choices)), ToolDeltas.Emitted(since, NativeParts(choices)))
  }

  // ---- What is sent, chunk by chunk ----

  /** Text as a chunk, if there is any. */
  function Contents(text: string): seq<Chunk> {
    if text == "" then [] else [Content(text)]
  }

  function Reasonings(text: string): seq<Chunk> {
    if text == "" then [] else [Reasoning(text)]
  }

  function Recovereds(calls: seq<Call>): (r: seq<Chunk>)
    ensures |r| == |calls| && forall k :: 0 <= k < |r| ==> r[k] == Recovered(calls[k])
  {
    seq(|calls|, k requires 0 <= k < |calls| => Recovered(calls[k]))
  }

  function Natives(calls: seq<ToolDeltas.Call>): (r: seq<Chunk>)
    ensures |r| == |calls| && forall k :: 0 <= k < |r| ==> r[k] == Native(calls[k])
  {
    seq(|calls|, k requires 0 <= k < |calls| => Native(calls[k]))
  }

  /** One choice: cleaned reasoning, cleaned content, the calls recovered from it. */
  function Passed(content: Outcome, reasoning: Outcome): seq<Chunk> {
    Reasonings(Visible(reasoning.pieces)) + (Contents(Visible(content.pieces)) + Recovereds(content.calls))
  }

  /** At a finish: the native calls, and what the accumulators hold. */
  function Released(native: seq<ToolDeltas.Call>, content: string, reasoning: string): seq<Chunk> {
    Natives(native) + (Contents(content) + Reasonings(reasoning))
  }

  /** The chunks for the rest of the stream, in order. */
  function Sent(content: Buffer, reasoning: Buffer, since: seq<ToolDeltas.Delta>, choices: seq<Choice>): seq<Chunk>
    decreases |choices|
  {
    if choices == [] then Released([], content.buf, reasoning.buf)
    else
      var c := choices[0];
      var o, r, ds := FeedOption(content, c.content), FeedOption(reasoning, c.reasoning), since + c.deltas;
      if c.finishes
        then Passed(o, r) + (Released(ToolDeltas.CallsOf(ds), o.state.buf, r.state.buf) + Sent(EMPTY, EMPTY, [], choices[1..]))
      else Passed(o, r) + Sent(o.state, r.state, ds, choices[1..])
  }

  // ---- The loop ----

  method ReadChoices(choices: seq<Choice>) returns (chunks: seq<Chunk>)
    ensures chunks == Sent(EMPTY, EMPTY, [], choices)
    ensures View(chunks) == Owed(EMPTY, EMPTY, [], choices)
  {
    hide View, Owed, Feed, FeedOption, Sent, Passed, Released, ToolDeltas.Width, ToolDeltas.BuilderFor;
    var dsml := new DsmlAccumulator();
    var reasoningDsml := new DsmlAccumulator();
    var builders: seq<ToolDeltas.Builder> := [];
    ghost var since: seq<ToolDeltas.Delta> := [];
    chunks := [];
    ToolDeltas.NothingBuilt();
    assert choices[0..] == choices && [] + Sent(EMPTY, EMPTY, [], choices) == Sent(EMPTY, EMPTY, [], choices);
    var i := 0;
    while i < |choices|
      invariant 0 <= i <= |choices|
      invariant fresh(dsml) && fresh(reasoningDsml) && dsml != reasoningDsml
      invariant builders == ToolDeltas.Built(since)
      invariant chunks + Sent(dsml.State(), reasoningDsml.State(), since, choices[i..]) == Sent(EMPTY, EMPTY, [], choices)
      invariant (dsml.buf == "" ==> !dsml.inDsml) && (reasoningDsml.buf == "" ==> !reasoningDsml.inDsml)
    {
      SentStep(dsml.State(), reasoningDsml.State(), since, choices, i, chunks);
      var c := choices[i];
      var part := FeedReasoning(reasoningDsml, c.reasoning);
      chunks := chunks + part;
      part := FeedContent(dsml, c.content);
      chunks := chunks + part;
      builders := ToolDeltas.AddDeltas(builders, c.deltas, since);
      since := since + c.deltas;
      if c.finishes {
        var emitted := ToolDeltas.EmitAll(builders);
        assert emitted == ToolDeltas.CallsOf(since);
        part := Finish(dsml, reasoningDsml, emitted);
        chunks := chunks + part;
        builders := [];
        since := [];
        ToolDeltas.NothingBuilt();
      }
      i := i + 1;
    }
    SentAtEnd(dsml.State(), reasoningDsml.State(), since, choices);
    var part := Finish(dsml, reasoningDsml, []);
    chunks := chunks + part;
    SentIsOwed(EMPTY, EMPTY, [], choices);
  }

  lemma SentStep(content: Buffer, reasoning: Buffer, since: seq<ToolDeltas.Delta>, choices: seq<Choice>, i: nat,
                 before: seq<Chunk>)
    requires i < |choices|
    ensures var c := choices[i];
            var o, r, ds := FeedOption(content, c.content), FeedOption(reasoning, c.reasoning), since + c.deltas;
            var now := before + Reasonings(Visible(r.pieces)) + (Contents(Visible(o.pieces)) + Recovereds(o.calls));
            before + Sent(content, reasoning, since, choices[i..])
            == if c.finishes then now + Released(ToolDeltas.CallsOf(ds), o.state.buf, r.state.buf)
                                  + Sent(EMPTY, EMPTY, [], choices[i + 1..])
               else now + Sent(o.state, r.state, ds, choices[i + 1..])
  {
    hide FeedOption, Released, ToolDeltas.CallsOf, Visible, Contents, Reasonings;
    assert choices[i..][0] == choices[i] && choices[i..][1..] == choices[i + 1..];
  }

  lemma SentAtEnd(content: Buffer, reasoning: Buffer, since: seq<ToolDeltas.Delta>, choices: seq<Choice>)
    ensures Sent(content, reasoning, since, choices[|choices|..]) == Released([], content.buf, reasoning.buf)
  {
    hide Released;
  }

  /** Reasoning is cleaned; calls recovered from it are not passed on. */
  method FeedReasoning(acc: DsmlAccumulator, delta: Option<string>) returns (chunks: seq<Chunk>)
    requires acc.buf == "" ==> !acc.inDsml
    modifies acc
    ensures var o := FeedOption(old(acc.State()), delta);
            acc.State() == o.state && chunks == Reasonings(Visible(o.pieces))
    ensures acc.buf == "" ==> !acc.inDsml
  {
    hide Feed, Visible;
    if delta.None? || delta.value == "" {
      NoneVisible("");
      return [];
    }
    var clean, _ := acc.Ingest(delta.value);
    FeedEndsClean(old(acc.State()), delta.value);
    chunks := if clean.Some? then [Reasoning(clean.value)] else [];
  }

  /** Content is cleaned and the recovered calls follow it. */
  method FeedContent(acc: DsmlAccumulator, delta: Option<string>) returns (chunks: seq<Chunk>)
    requires acc.buf == "" ==> !acc.inDsml
    modifies acc
    ensures var o := FeedOption(old(acc.State()), delta);
            acc.State() == o.state && chunks == Contents(Visible(o.pieces)) + Recovereds(o.calls)
    ensures acc.buf == "" ==> !acc.inDsml
  {
    hide Feed, Visible;
    if delta.None? || delta.value == "" {
      NoneVisible("");
      return [];
    }
    var clean, calls := acc.Ingest(delta.value);
    FeedEndsClean(old(acc.State()), delta.value);
    chunks := if clean.Some? then [Content(clean.value)] else [];
    ghost var shown := chunks;
    var k := 0;
    while k < |calls|
      invariant 0 <= k <= |calls|
      invariant chunks == shown + Recovereds(calls)[..k]
      modifies {}
    {
      chunks := chunks + [Recovered(calls[k])];
      assert Recovereds(calls)[..k + 1] == Recovereds(calls)[..k] + [Recovered(calls[k])];
      k := k + 1;
    }
    assert Recovereds(calls)[..k] == Recovereds(calls);
  }

  /** A choice that finishes, or the end of the stream: native calls, then what the accumulators still hold. */
  method Finish(dsml: DsmlAccumulator, reasoningDsml: DsmlAccumulator, native: seq<ToolDeltas.Call>)
    returns (chunks: seq<Chunk>)
    requires dsml != reasoningDsml
    requires (dsml.buf == "" ==> !dsml.inDsml) && (reasoningDsml.buf == "" ==> !reasoningDsml.inDsml)
    modifies dsml, reasoningDsml
    ensures dsml.State() == EMPTY && reasoningDsml.State() == EMPTY
    ensures chunks == Released(native, old(dsml.buf), old(reasoningDsml.buf))
  {
    chunks := [];
    var k := 0;
    while k < |native|
      invariant 0 <= k <= |native|
      invariant chunks == Natives(native)[..k]
      modifies {}
    {
      chunks := chunks + [Native(native[k])];
      k := k + 1;
    }
    assert chunks == Natives(native);
    var rest := dsml.Flush();
    if rest.Some? {
      chunks := chunks + [Content(rest.value)];
    }
    var held := reasoningDsml.Flush();
    if held.Some? {
      chunks := chunks + [Reasoning(held.value)];
    }
  }

  // ---- The channels of what is sent ----

  lemma ViewText(text: string)
    ensures View(Contents(text)) == Channels(text, "", [], [])
    ensures View(Reasonings(text)) == Channels("", text, [], [])
  {
    hide View;
    ViewOne(Content(text));
    ViewOne(Reasoning(text));
  }

  lemma {:induction false} ViewRecovered(calls: seq<Call>)
    ensures View(Recovereds(calls)) == Channels("", "", calls, [])
    decreases |calls|
  {
    hide View;
    ViewOne(Content(""));
    if calls != [] {
      var init, last := calls[..|calls| - 1], calls[|calls| - 1];
      ViewRecovered(init);
      ViewOne(Recovered(last));
      ViewConcat(Recovereds(init), [Recovered(last)]);
      assert Recovereds(calls) == Recovereds(init) + [Recovered(last)];
      NothingText();
      assert calls == init + [last];
    }
  }

  lemma {:induction false} ViewNative(calls: seq<ToolDeltas.Call>)
    ensures View(Natives(calls)) == Channels("", "", [], calls)
    decreases |calls|
  {
    hide View;
    ViewOne(Content(""));
    if calls != [] {
      var init, last := calls[..|calls| - 1], calls[|calls| - 1];
      ViewNative(init);
      ViewOne(Native(last));
      ViewConcat(Natives(init), [Native(last)]);
      assert Natives(calls) == Natives(init) + [Native(last)];
      NothingText();
      assert calls == init + [last];
    }
  }

  lemma ViewPassed(o: Outcome, r: Outcome)
    ensures View(Passed(o, r)) == Channels(Visible(o.pieces), Visible(r.pieces), o.calls, [])
  {
    hide View, Visible, Contents, Reasonings, Recovereds;
    var x, y := Visible(o.pieces), Visible(r.pieces);
    ViewText(x);
    ViewText(y);
    ViewRecovered(o.calls);
    ViewConcat(Contents(x), Recovereds(o.calls));
    ViewConcat(Reasonings(y), Contents(x) + Recovereds(o.calls));
    NothingText();
  }

  lemma ViewReleased(native: seq<ToolDeltas.Call>, content: string, reasoning: string)
    ensures View(Released(native, content, reasoning)) == Channels(content, reasoning, [], native)
  {
    hide View, Contents, Reasonings, Natives;
    ViewText(content);
    ViewText(reasoning);
    ViewNative(native);
    ViewConcat(Contents(content), Reasonings(reasoning));
    ViewConcat(Natives(native), Contents(content) + Reasonings(reasoning));
    NothingText();
  }

  /** Channel by channel, what is sent is what is owed. */
  lemma {:induction false} SentIsOwed(content: Buffer, reasoning: Buffer, since: seq<ToolDeltas.Delta>,
                                      choices: seq<Choice>)
    ensures View(Sent(content, reasoning, since, choices)) == Owed(content, reasoning, since, choices)
    decreases |choices|
  {
    hide View, Owed, FeedOption, Passed, Released, ToolDeltas.CallsOf, Visible;
    if choices == [] {
      ViewReleased([], content.buf, reasoning.buf);
      OwedAtEnd(content, reasoning, since, choices);
      assert choices[|choices|..] == choices;
    } else {
      var c, rest := choices[0], choices[1..];
      var o, r, ds := FeedOption(content, c.content), FeedOption(reasoning, c.reasoning), since + c.deltas;
      OwedStep(content, reasoning, since, choices, 0);
      assert choices[0..] == choices;
      ViewPassed(o, r);
      NothingText();
      if c.finishes {
        var held := Released(ToolDeltas.CallsOf(ds), o.state.buf, r.state.buf);
        SentIsOwed(EMPTY, EMPTY, [], rest);
        ViewReleased(ToolDeltas.CallsOf(ds), o.state.buf, r.state.buf);
        ViewConcat(held, Sent(EMPTY, EMPTY, [], rest));
        ViewConcat(Passed(o, r), held + Sent(EMPTY, EMPTY, [], rest));
        BothIsAssociative(View(Passed(o, r)), View(held), Owed(EMPTY, EMPTY, [], rest));
      } else {
        SentIsOwed(o.state, r.state, ds, rest);
        ViewConcat(Passed(o, r), Sent(o.state, r.state, ds, rest));
      }
    }
  }

  // ---- The order of what is sent ----

  /** Reasoning comes first, then content, then recovered calls. */
  predicate PassesInOrder(part: seq<Chunk>) {
    && (forall j, k :: 0 <= j < k < |part| ==>
          && (part[k].Reasoning? ==> false) && (part[k].Content? ==> part[j].Reasoning?))
    && forall k :: 0 <= k < |part| ==> !part[k].Native?
  }

  /** Native calls come first, then content that was held back, then reasoning. */
  predicate ReleasesInOrder(part: seq<Chunk>) {
    && (forall j, k :: 0 <= j < k < |part| ==>
          && (part[k].Native? ==> part[j].Native?) && (part[j].Reasoning? ==> false)
          && (part[j].Content? ==> part[k].Reasoning?))
    && forall k :: 0 <= k < |part| ==> !part[k].Recovered?
  }

  lemma PassedInOrder(o: Outcome, r: Outcome)
    ensures PassesInOrder(Passed(o, r))
  {
    hide Visible;
  }

  lemma ReleasedInOrder(native: seq<ToolDeltas.Call>, content: string, reasoning: string)
    ensures ReleasesInOrder(Released(native, content, reasoning))
  {
  }

  /**
   * Choice by choice, the chunks sent are a part in the first order and, at a finish and at the end only, one in the second;
   * so the calls recovered from a choice come before the native ones it finishes.
   */
  lemma {:induction false} SentInOrder(content: Buffer, reasoning: Buffer, since: seq<ToolDeltas.Delta>,
                                       choices: seq<Choice>)
    returns (passed: seq<seq<Chunk>>, released: seq<seq<Chunk>>, end: seq<Chunk>)
    ensures |passed| == |released| == |choices|
    ensures Sent(content, reasoning, since, choices) == Interleaved(passed, released) + end
    ensures forall k :: 0 <= k < |choices| ==>
              && PassesInOrder(passed[k]) && ReleasesInOrder(released[k])
              && (!choices[k].finishes ==> released[k] == [])
    ensures ReleasesInOrder(end) && forall k :: 0 <= k < |end| ==> !end[k].Native?
    decreases |choices|
  {
    hide FeedOption, Passed, Released, ToolDeltas.CallsOf, PassesInOrder, ReleasesInOrder;
    if choices == [] {
      passed, released, end := [], [], Released([], content.buf, reasoning.buf);
      ReleasedInOrder([], content.buf, reasoning.buf);
      NoNative(content.buf, reasoning.buf);
      assert [] + end == end;
    } else {
      var c, rest := choices[0], choices[1..];
      var o, r, ds := FeedOption(content, c.content), FeedOption(reasoning, c.reasoning), since + c.deltas;
      var first := Passed(o, r);
      var held := if c.finishes then Released(ToolDeltas.CallsOf(ds), o.state.buf, r.state.buf) else [];
      PassedInOrder(o, r);
      ReleasedInOrder(ToolDeltas.CallsOf(ds), o.state.buf, r.state.buf);
      NothingInOrder();
      var ps, rs;
      if c.finishes {
        ps, rs, end := SentInOrder(EMPTY, EMPTY, [], rest);
      } else {
        ps, rs, end := SentInOrder(o.state, r.state, ds, rest);
      }
      passed, released := [first] + ps, [held] + rs;
      assert passed[1..] == ps && released[1..] == rs;
      InterleavedFirst(first, held, Interleaved(ps, rs), end);
    }
  }

  function Interleaved(passed: seq<seq<Chunk>>, released: seq<seq<Chunk>>): seq<Chunk>
    requires |passed| == |released|
    decreases |passed|
  {
    if passed == [] then [] else passed[0] + (released[0] + Interleaved(passed[1..], released[1..]))
  }

  lemma InterleavedFirst(first: seq<Chunk>, held: seq<Chunk>, rest: seq<Chunk>, end: seq<Chunk>)
    ensures first + (held + (rest + end)) == first + (held + rest) + end
    ensures held == [] ==> first + (rest + end) == first + (held + rest) + end
  {
    assert held == [] ==> held + rest == rest;
  }

  lemma NothingInOrder()
    ensures ReleasesInOrder([])
  {
  }

  lemma NoNative(content: string, reasoning: string)
    ensures forall k :: 0 <= k < |Released([], content, reasoning)| ==> !Released([], content, reasoning)[k].Native?
  {
  }

  /** Inside a block an accumulator's buffer is never empty. */
  lemma FeedEndsClean(s: Buffer, delta: string)
    requires s.buf == "" ==> !s.inDsml
    ensures Feed(s, delta).state.buf == "" ==> !Feed(s, delta).state.inDsml
  {
    hide Settle, SettleBlock;
    if s.inDsml {
      SettleInBlock(s.buf + delta);
      BlockEndsClean("", s.buf + delta);
    } else {
      SettleEndsClean(s.buf + delta);
    }
  }

  lemma {:induction false} SettleEndsClean(buf: string)
    ensures Settle(buf, false).state.buf == "" ==> !Settle(buf, false).state.inDsml
    decreases |buf|, 1
  {
    hide FindOpen, KeepFrom, SettleBlock, TOOL_CALL_TAGS;
    var open := FindOpen(buf, 0, TOOL_CALL_TAGS);
    if open.Some? {
      BlockEndsClean(buf[..open.value.0], buf[open.value.0..]);
    }
  }

  lemma {:induction false} BlockEndsClean(prefix: string, buf: string)
    requires buf != ""
    ensures SettleBlock(prefix, buf).state.buf == "" ==> !SettleBlock(prefix, buf).state.inDsml
    decreases |buf|, 0
  {
    hide FindClose, Settle, Extract, TOOL_CALL_TAGS;
    var close := FindClose(buf, 0, TOOL_CALL_TAGS);
    if close.Some? {
      SettleEndsClean(buf[close.value.1..]);
    }
  }

  // ---- Paying off what is owed ----

  /** What one choice adds: cleaned reasoning, cleaned content with its calls, and at a finish all that was held. */
  function Paid(content: Buffer, reasoning: Buffer, since: seq<ToolDeltas.Delta>, c: Choice): Channels {
    var o, r := FeedOption(content, c.content), FeedOption(reasoning, c.reasoning);
    var held := if c.finishes
                then Channels(o.state.buf, r.state.buf, [], ToolDeltas.CallsOf(since + c.deltas))
                else Channels("", "", [], []);
    Both(Both(Channels("", Visible(r.pieces), [], []), Channels(Visible(o.pieces), "", o.calls, [])), held)
  }

  lemma OwedStep(content: Buffer, reasoning: Buffer, since: seq<ToolDeltas.Delta>, choices: seq<Choice>, i: nat)
    requires i < |choices|
    ensures var c := choices[i];
            Owed(content, reasoning, since, choices[i..])
            == Both(Paid(content, reasoning, since, c),
                    if c.finishes then Owed(EMPTY, EMPTY, [], choices[i + 1..])
                    else Owed(FeedOption(content, c.content).state, FeedOption(reasoning, c.reasoning).state,
                              since + c.deltas, choices[i + 1..]))
  {
    hide FeedOption, ToolDeltas.CallsOf, Visible;
    var all, rest := choices[i..], choices[i + 1..];
    assert all[0] == choices[i];
    PartsTail(all);
    assert all[1..] == rest;
    OwedContent(content, ContentParts(all));
    OwedContent(reasoning, ReasoningParts(all));
    OwedNative(since, NativeParts(all));
    NothingText();
  }

  lemma NothingText()
    ensures forall s: string :: "" + s == s && s + "" == s
    ensures forall s: seq<Call> :: [] + s == s && s + [] == s
    ensures forall s: seq<ToolDeltas.Call> :: [] + s == s && s + [] == s
  {
  }

  lemma PartsTail(choices: seq<Choice>)
    requires choices != []
    ensures ContentParts(choices)[1..] == ContentParts(choices[1..])
    ensures ReasoningParts(choices)[1..] == ReasoningParts(choices[1..])
    ensures NativeParts(choices)[1..] == NativeParts(choices[1..])
  {
  }

  lemma OwedContent(s: Buffer, parts: seq<(Option<string>, bool)>)
    requires parts != []
    ensures var o := FeedOption(s, parts[0].0);
            && ShownFrom(s, parts)
               == (Visible(o.pieces) + if parts[0].1 then o.state.buf + ShownFrom(EMPTY, parts[1..])
                                       else ShownFrom(o.state, parts[1..]))
            && CallsFrom(s, parts) == o.calls + CallsFrom(if parts[0].1 then EMPTY else o.state, parts[1..])
  {
    hide FeedOption, Visible;
    var o := FeedOption(s, parts[0].0);
    assert Visible(o.pieces) + o.state.buf + ShownFrom(EMPTY, parts[1..])
        == Visible(o.pieces) + (o.state.buf + ShownFrom(EMPTY, parts[1..]));
  }

  lemma OwedNative(since: seq<ToolDeltas.Delta>, parts: seq<ToolDeltas.Choice>)
    requires parts != []
    ensures var ds := since + parts[0].deltas;
            ToolDeltas.Emitted(since, parts)
            == if parts[0].finishes then ToolDeltas.CallsOf(ds) + ToolDeltas.Emitted([], parts[1..])
               else ToolDeltas.Emitted(ds, parts[1..])
  {
    hide ToolDeltas.CallsOf;
  }

  lemma BothIsAssociative(a: Channels, b: Channels, c: Channels)
    ensures Both(Both(a, b), c) == Both(a, Both(b, c))
  {
  }

  lemma OwedAtEnd(content: Buffer, reasoning: Buffer, since: seq<ToolDeltas.Delta>, choices: seq<Choice>)
    ensures Owed(content, reasoning, since, choices[|choices|..]) == Channels(content.buf, reasoning.buf, [], [])
  {
  }

  // ---- A whole reply ----

  /** The delta of one part, if it reaches the accumulator. */
  function DeltaOf(part: (Option<string>, bool)): seq<string> {
    if part.0.None? || part.0.value == "" then [] else [part.0.value]
  }

  /** The stretches between two finishes, each a list of deltas; `sofar` has arrived since the last finish. */
  function Stretches(sofar: seq<string>, parts: seq<(Option<string>, bool)>): seq<seq<string>>
    decreases |parts|
  {
    if parts == [] then [sofar]
    else
      var ds := sofar + DeltaOf(parts[0]);
      if parts[0].1 then [ds] + Stretches([], parts[1..]) else Stretches(ds, parts[1..])
  }

  function CallsOfRuns(stretches: seq<seq<string>>): seq<Call>
    decreases |stretches|
  {
    if stretches == [] then [] else Run(EMPTY, stretches[0]).calls + CallsOfRuns(stretches[1..])
  }

  /** What a stretch shows, its flush included. */
  function ShownOfRuns(stretches: seq<seq<string>>): string
    decreases |stretches|
  {
    if stretches == [] then ""
    else
      var o := Run(EMPTY, stretches[0]);
      Visible(o.pieces) + o.state.buf + ShownOfRuns(stretches[1..])
  }

  /** The calls the batch parser finds, stretch by stretch. */
  function BatchCalls(stretches: seq<seq<string>>): seq<Call>
    decreases |stretches|
  {
    if stretches == [] then [] else Extract(Concat(stretches[0])).calls + BatchCalls(stretches[1..])
  }

  predicate AllShortBare(stretches: seq<seq<string>>) {
    forall k :: 0 <= k < |stretches| ==> ShortBareTags(Concat(stretches[k]), false)
  }

  lemma {:induction false} RunMore(s: Buffer, ds: seq<string>, more: seq<string>)
    ensures var o := Run(s, ds);
            var r := Run(o.state, more);
            Run(s, ds + more) == Outcome(r.state, o.pieces + r.pieces, o.calls + r.calls)
    decreases |ds|
  {
    hide Feed;
    if ds == [] {
      var r := Run(s, more);
      assert ds + more == more && [] + r.pieces == r.pieces && [] + r.calls == r.calls;
    } else {
      var first := Feed(s, ds[0]);
      assert (ds + more)[0] == ds[0] && (ds + more)[1..] == ds[1..] + more;
      RunMore(first.state, ds[1..], more);
      var rest := Run(first.state, ds[1..]);
      var r := Run(rest.state, more);
      Sequences.Regroup(first.pieces, rest.pieces, r.pieces);
      Sequences.Regroup(first.calls, rest.calls, r.calls);
    }
  }

  lemma RunOfPart(s: Buffer, part: (Option<string>, bool))
    ensures FeedOption(s, part.0).state == Run(s, DeltaOf(part)).state
    ensures FeedOption(s, part.0).calls == Run(s, DeltaOf(part)).calls
    ensures Visible(FeedOption(s, part.0).pieces) == Visible(Run(s, DeltaOf(part)).pieces)
  {
    hide Feed, Visible;
    NothingText();
    if DeltaOf(part) != [] {
      var first := Feed(s, part.0.value);
      assert DeltaOf(part)[1..] == [];
      assert Run(first.state, []) == Outcome(first.state, [], []);
      assert first.pieces + [] == first.pieces && first.calls + [] == first.calls;
    }
  }

  /** Once `sofar` has arrived, the rest of the stream shows and hands out what its stretches do. */
  lemma {:induction false} OwedByStretches(sofar: seq<string>, parts: seq<(Option<string>, bool)>)
    ensures var o := Run(EMPTY, sofar);
            && o.calls + CallsFrom(o.state, parts) == CallsOfRuns(Stretches(sofar, parts))
            && Visible(o.pieces) + ShownFrom(o.state, parts) == ShownOfRuns(Stretches(sofar, parts))
    decreases |parts|
  {
    hide FeedOption, Visible, Run, DeltaOf, ShownFrom, CallsFrom;
    NothingText();
    var o := Run(EMPTY, sofar);
    if parts == [] {
      NothingOwed(o.state);
      assert [sofar][1..] == [];
    } else {
      var part, rest := parts[0], parts[1..];
      var ds := sofar + DeltaOf(part);
      var p := FeedOption(o.state, part.0);
      OwedContent(o.state, parts);
      RunOfPart(o.state, part);
      RunMore(EMPTY, sofar, DeltaOf(part));
      VisibleConcat(o.pieces, Run(o.state, DeltaOf(part)).pieces);
      if part.1 {
        OwedByStretches([], rest);
        NothingRun(EMPTY);
        var all := [ds] + Stretches([], rest);
        assert all[0] == ds && all[1..] == Stretches([], rest);
        JoinOwed(o.calls, p.calls, CallsFrom(EMPTY, rest), Visible(o.pieces), Visible(p.pieces), p.state.buf,
                 ShownFrom(EMPTY, rest));
      } else {
        OwedByStretches(ds, rest);
        JoinOwed(o.calls, p.calls, CallsFrom(p.state, rest), Visible(o.pieces), Visible(p.pieces), "",
                 ShownFrom(p.state, rest));
      }
    }
  }

  lemma JoinOwed(a: seq<Call>, b: seq<Call>, c: seq<Call>, x: string, y: string, z: string, w: string)
    ensures a + (b + c) == (a + b) + c && x + (y + (z + w)) == (x + y) + z + w && x + (y + w) == (x + y) + w
  {
  }

  lemma NothingOwed(s: Buffer)
    ensures ShownFrom(s, []) == s.buf && CallsFrom(s, []) == []
  {
  }

  lemma NothingRun(s: Buffer)
    ensures Run(s, []) == Outcome(s, [], []) && Visible([]) == ""
  {
  }

  lemma {:induction false} RunsAreBatch(stretches: seq<seq<string>>)
    requires AllShortBare(stretches)
    ensures CallsOfRuns(stretches) == BatchCalls(stretches)
    decreases |stretches|
  {
    hide Extract, ShortBareTags, Run, Concat;
    if stretches != [] {
      StreamRefinesBatch(stretches[0], false);
      assert forall k :: 0 <= k < |stretches[1..]| ==> stretches[1..][k] == stretches[k + 1];
      RunsAreBatch(stretches[1..]);
    }
  }

  /** Every reply: the calls and the texts sent are those of the stretches between two finishes, each read from the start. */
  lemma ReplyIsRuns(choices: seq<Choice>, chunks: seq<Chunk>)
    requires View(chunks) == Owed(EMPTY, EMPTY, [], choices)
    ensures RecoveredIn(chunks) == CallsOfRuns(Stretches([], ContentParts(choices)))
    ensures ContentIn(chunks) == ShownOfRuns(Stretches([], ContentParts(choices)))
    ensures ReasoningIn(chunks) == ShownOfRuns(Stretches([], ReasoningParts(choices)))
  {
    hide Run, CallsFrom, ShownFrom, Visible, ToolDeltas.Emitted, Stretches, CallsOfRuns, ShownOfRuns;
    OwedByStretches([], ContentParts(choices));
    OwedByStretches([], ReasoningParts(choices));
    NothingRun(EMPTY);
    NothingText();
  }

  /**
   * However a reply is cut into chunks and wherever it finishes: the calls recovered from its content are those the batch
   * parser finds in each stretch between two finishes, and the text sent is what those stretches show.
   */
  lemma ReplyIsWhole(choices: seq<Choice>, chunks: seq<Chunk>)
    requires View(chunks) == Owed(EMPTY, EMPTY, [], choices)
    requires AllShortBare(Stretches([], ContentParts(choices)))
    ensures RecoveredIn(chunks) == BatchCalls(Stretches([], ContentParts(choices)))
    ensures ContentIn(chunks) == ShownOfRuns(Stretches([], ContentParts(choices)))
  {
    hide View, Owed, ShortBareTags, Stretches, CallsOfRuns, ShownOfRuns, BatchCalls;
    ReplyIsRuns(choices, chunks);
    RunsAreBatch(Stretches([], ContentParts(choices)));
  }

  /**
   * The native calls sent are made of runs of fragments. These runs are all fragments of the reply, in order, if and only
   * if no fragment comes behind the last choice that finishes with tool calls.
   */
  lemma NativeCallsAreWholeIff(choices: seq<Choice>, chunks: seq<Chunk>)
    requires View(chunks) == Owed(EMPTY, EMPTY, [], choices)
    ensures var groups := ToolDeltas.Groups([], NativeParts(choices));
            && NativeIn(chunks) == ToolDeltas.AllCalls(groups)
            && (ToolDeltas.Flat(groups) == ToolDeltas.AllDeltas(NativeParts(choices))
                <==> forall k :: 0 <= k < |choices| && choices[k].deltas != [] ==>
                       exists j :: k <= j < |choices| && choices[j].finishes)
  {
    hide CallsFrom, ShownFrom, ToolDeltas.Emitted, ToolDeltas.Groups, ToolDeltas.AllCalls, ToolDeltas.Flat,
      ToolDeltas.AllDeltas;
    var parts := NativeParts(choices);
    ToolDeltas.EmittedIsGroups([], parts);
    ToolDeltas.EveryFragmentIsSentIff(parts);
    forall k | 0 <= k < |choices|
      ensures ToolDeltas.FinishFollows(parts, k) <==> exists j :: k <= j < |choices| && choices[j].finishes
    {
      if j :| k <= j < |choices| && choices[j].finishes {
        assert parts[j].finishes;
      }
      if ToolDeltas.FinishFollows(parts, k) {
        var j :| k <= j < |parts| && parts[j].finishes;
        assert choices[j].finishes;
      }
    }
  }

  /** Calls the model puts into its reasoning are recovered and thrown away: none of them is sent. */
  lemma ReasoningCallsAreDropped(choices: seq<Choice>, chunks: seq<Chunk>)
    requires View(chunks) == Owed(EMPTY, EMPTY, [], choices)
    requires forall k :: 0 <= k < |choices| ==> choices[k].content == None
    ensures RecoveredIn(chunks) == []
  {
    hide ShownFrom, ToolDeltas.Emitted;
    NoContentNoCalls(ContentParts(choices));
  }

  lemma {:induction false} NoContentNoCalls(parts: seq<(Option<string>, bool)>)
    requires forall k :: 0 <= k < |parts| ==> parts[k].0 == None
    ensures CallsFrom(EMPTY, parts) == []
    decreases |parts|
  {
    if parts != [] {
      assert forall k :: 0 <= k < |parts[1..]| ==> parts[1..][k] == parts[k + 1];
      NoContentNoCalls(parts[1..]);
    }
  }
}
