/**
 * What the ACP and the TUI turn loop share: reading a streamed reply, the assistant message stored for it, and the
 * shape of what one turn leaves in the session.
 */
module Turns {
  import opened Wrappers
  import opened Messages
  import opened RepairLaws
  import opened Interrupted
  import opened Requests
  import opened Sessions

  /** What the model stream delivers. `Cut` stands for a cancellation observed while waiting for a chunk. */
  datatype Chunk =
    | Content(text: string)
    | Reasoning(text: string)
    | CallStart(call: ToolCall)
    | CallEnd
    | Finish
    | Broken
    | Cut

  datatype Reply = Reply(content: string, reasoning: string, calls: seq<ToolCall>)

  datatype End = Complete | Failed | Cancelled

  /** One request's stream: it started, was refused, or the turn was cancelled while waiting for it. */
  datatype Start = Started(chunks: seq<Chunk>) | Refused | NotStarted

  datatype Request = Request(messages: seq<Message>, offersTools: bool)

  function Joined(chunks: seq<Chunk>, part: Chunk -> string): string
    decreases |chunks|
  {
    if chunks == [] then "" else Joined(chunks[..|chunks| - 1], part) + part(chunks[|chunks| - 1])
  }

  function ContentOf(c: Chunk): string {
    if c.Content? then c.text else ""
  }

  function ReasoningOf(c: Chunk): string {
    if c.Reasoning? then c.text else ""
  }

  function CallsOf(chunks: seq<Chunk>): seq<ToolCall>
    decreases |chunks|
  {
    if chunks == [] then []
    else CallsOf(chunks[..|chunks| - 1]) + (if chunks[|chunks| - 1].CallStart? then [chunks[|chunks| - 1].call] else [])
  }

  /** The chunks before the first one that ends the turn early. */
  function Delivered(chunks: seq<Chunk>): (n: nat)
    ensures n <= |chunks|
    ensures forall k :: 0 <= k < n ==> !chunks[k].Broken? && !chunks[k].Cut?
    ensures n < |chunks| ==> chunks[n].Broken? || chunks[n].Cut?
    decreases |chunks|
  {
    if chunks == [] || chunks[0].Broken? || chunks[0].Cut? then 0 else 1 + Delivered(chunks[1..])
  }

  function ReplyOf(chunks: seq<Chunk>): Reply {
    Reply(Joined(chunks, ContentOf), Joined(chunks, ReasoningOf), CallsOf(chunks))
  }

  /** Reads a stream to its end: a complete reply, or why there is none. */
  method ReadStream(chunks: seq<Chunk>) returns (end: End, reply: Reply)
    ensures end == Complete <==> Delivered(chunks) == |chunks|
    ensures end == Failed <==> Delivered(chunks) < |chunks| && chunks[Delivered(chunks)].Broken?
    ensures end == Complete ==> reply == ReplyOf(chunks)
  {
    reply := Reply("", "", []);
    var i := 0;
    while i < |chunks|
      invariant 0 <= i <= |chunks|
      invariant i <= Delivered(chunks)
      invariant reply == ReplyOf(chunks[..i])
    {
      ReplyStep(chunks, i);
      match chunks[i] {
        case Content(text) => reply := reply.(content := reply.content + text);
        case Reasoning(text) => reply := reply.(reasoning := reply.reasoning + text);
        case CallStart(call) => reply := reply.(calls := reply.calls + [call]);
        case CallEnd =>
        case Finish =>
        case Broken => return Failed, reply;
        case Cut => return Cancelled, reply;
      }
      i := i + 1;
    }
    end := Complete;
    assert chunks[..|chunks|] == chunks;
  }

  lemma ReplyStep(chunks: seq<Chunk>, i: nat)
    requires i < |chunks|
    ensures var r, c := ReplyOf(chunks[..i]), chunks[i];
            ReplyOf(chunks[..i + 1])
            == Reply(r.content + ContentOf(c), r.reasoning + ReasoningOf(c),
                     r.calls + (if c.CallStart? then [c.call] else []))
    ensures forall s: string :: s + "" == s
    ensures forall s: seq<ToolCall> :: s + [] == s
  {
    assert chunks[..i + 1][..i] == chunks[..i];
  }

  /** The assistant message stored for a reply. */
  function AssistantMessage(r: Reply): Message {
    Message("assistant", r.content, [], if r.calls == [] then None else Some(r.calls), None,
            if r.reasoning == "" then None else Some(r.reasoning))
  }

  // ---- What a reply says, chunk by chunk ----

  /** The text of all content chunks, front to back. */
  function ContentText(chunks: seq<Chunk>): string
    decreases |chunks|
  {
    if chunks == [] then "" else (if chunks[0].Content? then chunks[0].text else "") + ContentText(chunks[1..])
  }

  function ReasoningText(chunks: seq<Chunk>): string
    decreases |chunks|
  {
    if chunks == [] then "" else (if chunks[0].Reasoning? then chunks[0].text else "") + ReasoningText(chunks[1..])
  }

  function StartedCalls(chunks: seq<Chunk>): seq<ToolCall>
    decreases |chunks|
  {
    if chunks == [] then []
    else (if chunks[0].CallStart? then [chunks[0].call] else []) + StartedCalls(chunks[1..])
  }

  lemma {:induction false} TextsAppend(chunks: seq<Chunk>, c: Chunk)
    ensures ContentText(chunks + [c]) == ContentText(chunks) + if c.Content? then c.text else ""
    ensures ReasoningText(chunks + [c]) == ReasoningText(chunks) + if c.Reasoning? then c.text else ""
    ensures StartedCalls(chunks + [c]) == StartedCalls(chunks) + if c.CallStart? then [c.call] else []
    decreases |chunks|
  {
    if chunks == [] {
      assert [c][1..] == [] && chunks + [c] == [c];
    } else {
      assert (chunks + [c])[1..] == chunks[1..] + [c];
      TextsAppend(chunks[1..], c);
    }
  }

  lemma {:induction false} ReplySays(chunks: seq<Chunk>)
    ensures ReplyOf(chunks) == Reply(ContentText(chunks), ReasoningText(chunks), StartedCalls(chunks))
    decreases |chunks|
  {
    if chunks != [] {
      var init, last := chunks[..|chunks| - 1], chunks[|chunks| - 1];
      assert chunks == init + [last];
      ReplySays(init);
      TextsAppend(init, last);
    }
  }

  /** The message of the assistant that says what the chunks brought, and nothing else. */
  predicate Speaks(m: Message, chunks: seq<Chunk>) {
    && m.role == "assistant" && m.content == ContentText(chunks) && m.images == [] && m.toolCallId == None
    && m.toolCalls == (if StartedCalls(chunks) == [] then None else Some(StartedCalls(chunks)))
    && m.reasoning == (if ReasoningText(chunks) == "" then None else Some(ReasoningText(chunks)))
  }

  lemma AssistantSpeaks(chunks: seq<Chunk>)
    ensures Speaks(AssistantMessage(ReplyOf(chunks)), chunks)
  {
    hide ContentText, ReasoningText, StartedCalls, ReplyOf;
    ReplySays(chunks);
  }

  /** The stream ends early, with this chunk. */
  predicate EndsEarly(chunks: seq<Chunk>, n: nat)
    requires n < |chunks|
  {
    (chunks[n].Broken? || chunks[n].Cut?) && forall j :: 0 <= j < n ==> !chunks[j].Broken? && !chunks[j].Cut?
  }

  /** The whole stream was read. */
  predicate IsRead(s: Start) {
    s.Started? && forall n :: 0 <= n < |s.chunks| ==> !EndsEarly(s.chunks, n)
  }

  lemma DeliveredMeans(chunks: seq<Chunk>)
    ensures forall n :: 0 <= n < |chunks| ==> (EndsEarly(chunks, n) <==> n == Delivered(chunks))
    ensures Delivered(chunks) == |chunks| <==> forall n :: 0 <= n < |chunks| ==> !EndsEarly(chunks, n)
  {
    var d := Delivered(chunks);
    if d < |chunks| {
      assert EndsEarly(chunks, d);
    }
  }

  lemma ReplyAsks(r: Reply)
    ensures ToolIds(AssistantMessage(r)) == Ids(r.calls) && !IsTool(AssistantMessage(r))
  {
  }

  /** `results` answer the first calls, in call order. */
  predicate ResultsFor(results: seq<Message>, calls: seq<ToolCall>) {
    && |results| <= |calls|
    && forall k :: 0 <= k < |results| ==> IsTool(results[k]) && results[k].toolCallId == Some(calls[k].id)
  }

  /** A reply and its first results are in order; with all results they are accepted as they are. */
  lemma {:induction false} TurnIsInOrder(r: Reply, results: seq<Message>)
    requires ResultsFor(results, r.calls)
    ensures InOrder([AssistantMessage(r)] + results)
    ensures |results| == |r.calls| ==> WireValid([AssistantMessage(r)] + results)
  {
    hide InOrder, WireValid, AssistantMessage;
    ReplyAsks(r);
    OneTurnInOrder(AssistantMessage(r), results);
    if |results| == |r.calls| {
      NothingIsValid();
      WireValidTurn(AssistantMessage(r), results, []);
      assert [AssistantMessage(r)] + results + [] == [AssistantMessage(r)] + results;
    }
  }

  lemma NothingIsValid()
    ensures WireValid([])
  {
  }

  lemma PlainIsValid(m: Message)
    requires !IsTool(m) && ToolIds(m) == []
    ensures WireValid([m])
  {
    hide WireValid, ToolIds;
    NothingIsValid();
    PlainInFront(m, []);
    assert [m] + [] == [m];
  }

  /** The prepared history without system messages, behind a fresh one. */
  method BuildRequest(session: Session, system: Message) returns (messages: seq<Message>)
    ensures messages == BuildMessages(ContextOf(session.summary, session.messages), system)
  {
    var base := session.PrepareForRequest();
    messages := [system] + Retain(base, NotSystem);
  }
}
