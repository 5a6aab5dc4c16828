/**
 * A conversation session: its message list, token count and summary, updated in place.
 * Persistence to SQLite is left out; the provider's summary and token counter are parameters.
 */
module Sessions {
  import opened Wrappers
  import opened Messages
  import opened ToolSequence
  import opened Requests

  const IMAGE_MARK := "[image omitted]"

  /** What the model is shown as the start of a compressed conversation. */
  function SummaryMessage(summary: string): Message {
    Plain("system", "[conversation summary] " + summary)
  }

  function ContextOf(summary: Option<string>, messages: seq<Message>): seq<Message> {
    (if summary.Some? then [SummaryMessage(summary.value)] else []) + messages
  }

  /** The tokens of what the messages say. */
  function ContentTokens(ms: seq<Message>, count: string -> nat): nat
    decreases |ms|
  {
    if ms == [] then 0 else count(ms[0].content) + ContentTokens(ms[1..], count)
  }

  lemma {:induction false} ContentTokensConcat(a: seq<Message>, b: seq<Message>, count: string -> nat)
    ensures ContentTokens(a + b, count) == ContentTokens(a, count) + ContentTokens(b, count)
    decreases |a|
  {
    if a == [] {
      assert a + b == b;
    } else {
      assert (a + b)[0] == a[0] && (a + b)[1..] == a[1..] + b;
      ContentTokensConcat(a[1..], b, count);
    }
  }

  // ---- Truncation ----

  function Minus(a: nat, b: nat): nat {
    if a < b then 0 else a - b
  }

  /** Messages left, and tokens, after dropping from the front while over budget and above two messages. */
  function Truncated(ms: seq<Message>, tokens: nat, limit: nat, count: string -> nat): (seq<Message>, nat)
    decreases |ms|
  {
    if tokens > limit && |ms| > 2
      then Truncated(ms[1..], Minus(tokens, count(ms[0].content)), limit, count)
    else (ms, tokens)
  }

  // ---- Images ----

  /** How many of the messages from `from` on carry images. */
  function ImagesFrom(ms: seq<Message>, from: nat): nat
    requires from <= |ms|
    decreases |ms| - from
  {
    if from == |ms| then 0 else (if ms[from].images == [] then 0 else 1) + ImagesFrom(ms, from + 1)
  }

  predicate Marked(content: string) {
    Text.FindFrom(content, IMAGE_MARK, 0).Some?
  }

  function WithoutImages(m: Message): Message {
    m.(images := [], content := if Marked(m.content) then m.content else m.content + " " + IMAGE_MARK)
  }

  /** Images stay on the `keep` newest messages that carry any. */
  function Pruned(ms: seq<Message>, keep: nat): (r: seq<Message>)
    ensures |r| == |ms|
    ensures forall k :: 0 <= k < |ms| ==>
              r[k] == if ms[k].images == [] || ImagesFrom(ms, k) <= keep then ms[k] else WithoutImages(ms[k])
  {
    seq(|ms|, k requires 0 <= k < |ms| =>
      if ms[k].images == [] || ImagesFrom(ms, k) <= keep then ms[k] else WithoutImages(ms[k]))
  }

  lemma Splice(a: seq<Message>, b: seq<Message>, i: nat)
    requires i < |a| == |b|
    ensures var s := a[..i + 1] + b[i + 1..];
            && s[i] == a[i]
            && s[i := b[i]] == a[..i] + b[i..]
            && (a[i] == b[i] ==> s == a[..i] + b[i..])
  {
  }

  // ---- Reasoning ----

  /** One past the newest assistant message among the first `n`, or 0. */
  function LastAssistant(ms: seq<Message>, n: nat): (i: nat)
    requires n <= |ms|
    ensures i <= n
    ensures i > 0 ==> IsAssistant(ms[i - 1])
    ensures forall k :: i <= k < n ==> !IsAssistant(ms[k])
  {
    if n == 0 || IsAssistant(ms[n - 1]) then n else LastAssistant(ms, n - 1)
  }

  predicate NeedsReasoning(m: Message) {
    m.reasoning.None? || Blank(m.reasoning.value) || m.reasoning.value == OMITTED
  }

  /** Reasoning goes to the newest assistant message unless it has real reasoning already. */
  function Attached(ms: seq<Message>, text: string): seq<Message> {
    var i := LastAssistant(ms, |ms|);
    if text == "" || i == 0 || !NeedsReasoning(ms[i - 1]) then ms
    else ms[i - 1 := ms[i - 1].(reasoning := Some(text))]
  }

  // ---- The operations on a session's state ----

  datatype State = State(messages: seq<Message>, tokenCount: nat, summary: Option<string>)

  /** `Compress` carries the summary the model returned, or none when the call failed. */
  datatype Op =
    | Push(msg: Message, tokens: nat)
    | Compress(reply: Option<string>, countTokens: string -> nat)
    | Prune(keepLast: nat)
    | Attach(text: string)
    | Clear

  function Apply(s: State, limit: nat, op: Op): State {
    match op
    case Push(msg, tokens) => s.(messages := s.messages + [msg], tokenCount := s.tokenCount + tokens)
    case Compress(reply, count) =>
      if s.messages == [] then s
      else if reply.Some? then
        var m := Plain("assistant", "[summary] " + reply.value);
        State([m], count(m.content), reply)
      else
        var (ms, tokens) := Truncated(s.messages, s.tokenCount, limit, count);
        s.(messages := ms, tokenCount := tokens)
    case Prune(keep) => s.(messages := Pruned(s.messages, keep))
    case Attach(text) => s.(messages := Attached(s.messages, text))
    case Clear => State([], 0, None)
  }

  class Session {
    var id: string
    var messages: seq<Message>
    var tokenCount: nat
    const contextMaxTokens: nat
    var summary: Option<string>

    function View(): State
      reads this
    {
      State(messages, tokenCount, summary)
    }

    constructor (id: string, contextMaxTokens: nat)
      ensures this.id == id && this.contextMaxTokens == contextMaxTokens
      ensures View() == State([], 0, None)
    {
      this.id := id;
      this.contextMaxTokens := contextMaxTokens;
      messages := [];
      tokenCount := 0;
      summary := None;
    }

    method PushMessage(msg: Message, tokens: nat)
      modifies this`messages, this`tokenCount
      ensures View() == Apply(old(View()), contextMaxTokens, Push(msg, tokens))
      ensures messages == old(messages) + [msg] && tokenCount == old(tokenCount) + tokens
    {
      tokenCount := tokenCount + tokens;
      messages := messages + [msg];
    }

    /** The messages, behind the summary if there is one. */
    method Context() returns (msgs: seq<Message>)
      ensures msgs == ContextOf(summary, messages)
    {
      msgs := [];
      if summary.Some? {
        msgs := msgs + [SummaryMessage(summary.value)];
      }
      msgs := msgs + messages;
    }

    method Compress(reply: Option<string>, countTokens: string -> nat)
      modifies this`messages, this`tokenCount, this`summary
      ensures View() == Apply(old(View()), contextMaxTokens, Op.Compress(reply, countTokens))
    {
      if messages == [] {
        return;
      }
      match reply {
        case Some(text) =>
          messages := [Plain("assistant", "[summary] " + text)];
          summary := Some(text);
          tokenCount := countTokens(messages[0].content);
        case None =>
          while tokenCount > contextMaxTokens && |messages| > 2
            invariant summary == old(summary)
            invariant Truncated(messages, tokenCount, contextMaxTokens, countTokens)
                   == Truncated(old(messages), old(tokenCount), contextMaxTokens, countTokens)
            decreases |messages|
          {
            var msg := messages[0];
            messages := messages[1..];
            tokenCount := Minus(tokenCount, countTokens(msg.content));
          }
      }
    }

    method ClearMessages()
      modifies this`messages, this`tokenCount, this`summary
      ensures View() == Apply(old(View()), contextMaxTokens, Clear)
    {
      messages := [];
      tokenCount := 0;
      summary := None;
    }

    method Reset(newId: string)
      modifies this`id, this`messages, this`tokenCount, this`summary
      ensures id == newId && View() == Apply(old(View()), contextMaxTokens, Clear)
    {
      id := newId;
      messages := [];
      tokenCount := 0;
      summary := None;
    }

    /** The wire form of the history. It has no `modifies` clause: placeholders exist only in the result. */
    method PrepareForRequest() returns (msgs: seq<Message>)
      ensures msgs == Prepared(ContextOf(summary, messages))
      ensures Acceptable(msgs)
    {
      hide Repair, Acceptable, Blank, OMITTED;
      var context := Context();
      msgs := SanitizeToolCallSequence(context);
      ghost var repaired := msgs;
      var i := 0;
      while i < |msgs|
        invariant 0 <= i <= |msgs| == |repaired|
        invariant forall k :: 0 <= k < i ==> msgs[k] == WithReasoning(repaired[k])
        invariant forall k :: i <= k < |msgs| ==> msgs[k] == repaired[k]
      {
        var msg := msgs[i];
        if IsAssistant(msg) && msg.toolCalls.Some? && msg.toolCalls.value != [] {
          if msg.reasoning.None? || Blank(msg.reasoning.value) {
            msgs := msgs[i := msg.(reasoning := Some(OMITTED))];
          }
        }
        i := i + 1;
      }
      assert msgs == AddReasoning(repaired);
      PreparedIsAcceptable(context);
    }

    method PruneImages(keepLast: nat)
      modifies this`messages
      ensures View() == Apply(old(View()), contextMaxTokens, Prune(keepLast))
      ensures messages == Pruned(old(messages), keepLast)
    {
      hide WithoutImages;
      ghost var before := messages;
      ghost var pruned := Pruned(before, keepLast);
      var seen := 0;
      var i := |messages|;
      while i > 0
        invariant 0 <= i <= |before|
        invariant seen == ImagesFrom(before, i)
        invariant messages == before[..i] + pruned[i..]
      {
        i := i - 1;
        Splice(before, pruned, i);
        var msg := messages[i];
        if msg.images == [] {
          continue;
        }
        seen := seen + 1;
        if seen > keepLast {
          messages := messages[i := WithoutImages(msg)];
        }
      }
      assert messages == pruned;
    }

    method AttachReasoning(text: string)
      modifies this`messages
      ensures View() == Apply(old(View()), contextMaxTokens, Attach(text))
    {
      hide Blank, OMITTED;
      if text == "" {
        return;
      }
      var i := |messages|;
      while i > 0 && !IsAssistant(messages[i - 1])
        invariant 0 <= i <= |messages|
        invariant LastAssistant(messages, |messages|) == LastAssistant(messages, i)
      {
        i := i - 1;
      }
      if i > 0 && NeedsReasoning(messages[i - 1]) {
        messages := messages[i - 1 := messages[i - 1].(reasoning := Some(text))];
      }
    }
  }
}
