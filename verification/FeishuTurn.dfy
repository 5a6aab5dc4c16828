/**
 * The bounded tool loop of a Feishu chat. The model's answers and the tools' results are a script, one entry per
 * model call; a script that ends early stands for a chat that is still waiting at that point.
 */
module FeishuTurn {
  import opened Sequences
  import opened Wrappers
  import opened Messages
  import opened Interrupted
  import opened Requests
  import opened Sessions
  import opened SessionLaws
  import opened FeishuHistory
  import opened Turns

  const MAX_TOOL_ROUNDS := 10

  const WORKING := "\U{5904}\U{7406}\U{4E2D}\U{2026}"

  const SUMMARY_PREFIX := "[conversation summary]"

  /** `results` are the tools' answers in call order; each tool answers, also when it fails. */
  datatype Round =
    | CallFailed
    | Answered(content: string, calls: Option<seq<ToolCall>>, reasoning: Option<string>, results: seq<string>)

  datatype Stop = Unavailable | ModelFailed | Replied(text: string) | Waiting

  function CallList(r: Round): seq<ToolCall>
    requires r.Answered?
  {
    if r.calls.Some? then r.calls.value else []
  }

  /** The stored assistant message: with tools offered it keeps its calls, afterwards they are stripped. */
  function AssistantOf(r: Round, hasTools: bool): Message
    requires r.Answered?
  {
    var shown := if Blank(r.content) && r.calls.Some? then WORKING else r.content;
    Message("assistant", shown, [], if hasTools then r.calls else None, None, r.reasoning)
  }

  function Results(calls: seq<ToolCall>, results: seq<string>): (r: seq<Message>)
    ensures ResultsFor(r, calls)
    ensures |r| == if |results| < |calls| then |results| else |calls|
  {
    seq(if |results| < |calls| then |results| else |calls|,
        k requires 0 <= k < |calls| && k < |results| => ToolResult(calls[k].id, results[k]))
  }

  predicate CallsTools(r: Round, hasTools: bool) {
    r.Answered? && hasTools && CallList(r) != []
  }

  /** What one round stores. */
  function RoundMessages(r: Round, hasTools: bool): seq<Message> {
    if r.CallFailed? then []
    else [AssistantOf(r, hasTools)] + if CallsTools(r, hasTools) then Results(CallList(r), r.results) else []
  }

  predicate GoesOn(r: Round, hasTools: bool) {
    CallsTools(r, hasTools) && |r.results| >= |CallList(r)|
  }

  /** What the loop stores from its `n`-th round on. */
  function Transcript(rounds: seq<Round>, n: nat): seq<Message>
    decreases |rounds|
  {
    if rounds == [] then []
    else
      var hasTools := n < MAX_TOOL_ROUNDS;
      RoundMessages(rounds[0], hasTools) + if GoesOn(rounds[0], hasTools) then Transcript(rounds[1..], n + 1) else []
  }

  /** The model calls from the `n`-th round on, with `messages` as the conversation so far. */
  function RequestsOf(messages: seq<Message>, rounds: seq<Round>, n: nat): seq<Request>
    decreases |rounds|
  {
    if rounds == [] then []
    else
      var hasTools := n < MAX_TOOL_ROUNDS;
      [Request(messages, hasTools)]
      + if GoesOn(rounds[0], hasTools)
          then RequestsOf(messages + RoundMessages(rounds[0], hasTools), rounds[1..], n + 1) else []
  }

  function RoundStop(r: Round, hasTools: bool): Stop {
    if r.CallFailed? then ModelFailed else if CallsTools(r, hasTools) then Waiting else Replied(r.content)
  }

  function StopOf(rounds: seq<Round>, n: nat): Stop
    decreases |rounds|
  {
    if rounds == [] then Waiting
    else
      var hasTools := n < MAX_TOOL_ROUNDS;
      if GoesOn(rounds[0], hasTools) then StopOf(rounds[1..], n + 1) else RoundStop(rounds[0], hasTools)
  }

  /** Only the summary survives among system messages. */
  predicate KeptInChat(m: Message) {
    m.role != "system" || SUMMARY_PREFIX <= m.content
  }

  /** The conversation a chat starts with. */
  function Opening(system: Message, memory: string, context: seq<Message>): seq<Message> {
    [system] + (if memory == "" then [] else [Plain("system", memory)]) + Retain(Sanitized(context), KeptInChat)
  }

  /** Tool rounds, with every result stored and shown to the model; at the limit one last call without tools. */
  method ToolLoop(session: Session, opening: seq<Message>, rounds: seq<Round>, countTokens: string -> nat)
    returns (stop: Stop, requests: seq<Request>)
    modifies session
    ensures session.summary == old(session.summary)
    ensures session.messages == old(session.messages) + Transcript(rounds, 0)
    ensures session.tokenCount == old(session.tokenCount) + ContentTokens(Transcript(rounds, 0), countTokens)
    ensures requests == RequestsOf(opening, rounds, 0)
    ensures stop == StopOf(rounds, 0)
  {
    hide Transcript, RequestsOf, StopOf, RoundMessages, GoesOn, CallsTools, Apply, ContentTokens;
    ghost var base := session.messages;
    var messages := opening;
    var phase, toolRounds := 1, 0;
    requests := [];
    var i := 0;
    NoRounds(rounds, 0, messages);
    while i < |rounds|
      invariant 0 <= i <= |rounds| && toolRounds == i
      invariant phase == if toolRounds < MAX_TOOL_ROUNDS then 1 else 2
      invariant session.summary == old(session.summary)
      invariant session.messages + Transcript(rounds[i..], i) == base + Transcript(rounds, 0)
      invariant session.tokenCount + ContentTokens(Transcript(rounds[i..], i), countTokens)
             == old(session.tokenCount) + ContentTokens(Transcript(rounds, 0), countTokens)
      invariant requests + RequestsOf(messages, rounds[i..], i) == RequestsOf(opening, rounds, 0)
      invariant StopOf(rounds[i..], i) == StopOf(rounds, 0)
    {
      var hasTools := phase == 1;
      NextRound(session.messages, messages, requests, rounds, i);
      NextTokens(rounds, i, countTokens);
      requests := requests + [Request(messages, hasTools)];
      var next;
      stop, next, messages := RunRound(session, messages, rounds[i], hasTools, countTokens);
      if !next {
        return;
      }
      toolRounds := toolRounds + 1;
      if toolRounds >= MAX_TOOL_ROUNDS {
        phase := 2;
      }
      i := i + 1;
    }
    NoRounds(rounds, i, messages);
    NoTokens(countTokens);
    stop := Waiting;
  }

  /** One model call and the tools it asks for; `next` says whether the model is called again. */
  method RunRound(session: Session, shown: seq<Message>, round: Round, hasTools: bool, countTokens: string -> nat)
    returns (stop: Stop, next: bool, messages: seq<Message>)
    modifies session
    ensures session.summary == old(session.summary)
    ensures session.messages == old(session.messages) + RoundMessages(round, hasTools)
    ensures session.tokenCount == old(session.tokenCount) + ContentTokens(RoundMessages(round, hasTools), countTokens)
    ensures next <==> GoesOn(round, hasTools)
    ensures next ==> messages == shown + RoundMessages(round, hasTools)
    ensures stop == RoundStop(round, hasTools)
  {
    hide AssistantOf, Results, Apply, ContentTokens;
    messages := shown;
    NoTokens(countTokens);
    if round.CallFailed? {
      return ModelFailed, false, messages;
    }
    var assistant := AssistantOf(round, hasTools);
    session.PushMessage(assistant, countTokens(assistant.content));
    OneToken(assistant, countTokens);
    if !hasTools || CallList(round) == [] {
      assert [assistant] + [] == [assistant];
      return Replied(round.content), false, messages;
    }
    messages := messages + [assistant];
    next, messages := RunTools(session, messages, CallList(round), round.results, countTokens);
    Regroup(old(session.messages), [assistant], Results(CallList(round), round.results));
    Regroup(shown, [assistant], Results(CallList(round), round.results));
    ContentTokensConcat([assistant], Results(CallList(round), round.results), countTokens);
    stop := Waiting;
  }

  method RunTools(session: Session, shown: seq<Message>, calls: seq<ToolCall>, results: seq<string>,
                  countTokens: string -> nat)
    returns (done: bool, messages: seq<Message>)
    modifies session
    ensures session.summary == old(session.summary)
    ensures session.messages == old(session.messages) + Results(calls, results)
    ensures session.tokenCount == old(session.tokenCount) + ContentTokens(Results(calls, results), countTokens)
    ensures messages == shown + Results(calls, results)
    ensures done <==> |results| >= |calls|
  {
    hide Apply, ContentTokens;
    messages := shown;
    var k := 0;
    ghost var all := Results(calls, results);
    NoTokens(countTokens);
    assert all[..0] == [];
    while k < |calls|
      invariant 0 <= k <= |calls| && k <= |results|
      invariant session.summary == old(session.summary)
      invariant session.messages == old(session.messages) + all[..k]
      invariant session.tokenCount == old(session.tokenCount) + ContentTokens(all[..k], countTokens)
      invariant messages == shown + all[..k]
    {
      if k == |results| {
        assert all[..k] == all;
        return false, messages;
      }
      var result := ToolResult(calls[k].id, results[k]);
      messages := messages + [result];
      session.PushMessage(result, countTokens(results[k]));
      assert all[..k + 1] == all[..k] + [result];
      ContentTokensConcat(all[..k], [result], countTokens);
      OneToken(result, countTokens);
      k := k + 1;
    }
    assert all[..k] == all;
    done := true;
  }

  /** A chat from the user's message to the reply; false when no provider or client is there. */
  method ProcessChat(session: Session, hasProvider: bool, hasClient: bool, system: Message, memory: string,
                     userText: string, rounds: seq<Round>, countTokens: string -> nat)
    returns (stop: Stop, requests: seq<Request>)
    modifies session
    ensures session.summary == old(session.summary)
    ensures old(session.messages) <= session.messages
    ensures session.tokenCount
         == old(session.tokenCount) + ContentTokens(session.messages[|old(session.messages)|..], countTokens)
    ensures !hasProvider ==> session.messages == old(session.messages) && requests == [] && stop == Unavailable
    ensures hasProvider && !hasClient ==>
              && session.messages == old(session.messages) + [Plain("user", userText)]
              && requests == [] && stop == Unavailable
    ensures hasProvider && hasClient ==>
              var ms := old(session.messages) + [Plain("user", userText)];
              && session.messages == ms + Transcript(rounds, 0)
              && requests == RequestsOf(Opening(system, memory, ContextOf(session.summary, ms)), rounds, 0)
              && stop == StopOf(rounds, 0)
  {
    hide Transcript, RequestsOf, StopOf, Sanitized, Retain, ContentTokens;
    requests := [];
    ghost var base := session.messages;
    NoTokens(countTokens);
    Added(base, []);
    if !hasProvider {
      return Unavailable, requests;
    }
    session.PushMessage(Plain("user", userText), countTokens(userText));
    OneToken(Plain("user", userText), countTokens);
    Added(base, [Plain("user", userText)]);
    var messages := [system];
    if memory != "" {
      messages := messages + [Plain("system", memory)];
    }
    var context := session.Context();
    var history := SanitizeHistory(context);
    messages := messages + Retain(history, KeptInChat);
    assert messages == Opening(system, memory, context);
    if !hasClient {
      return Unavailable, requests;
    }
    stop, requests := ToolLoop(session, messages, rounds, countTokens);
    ContentTokensConcat([Plain("user", userText)], Transcript(rounds, 0), countTokens);
    Regroup(base, [Plain("user", userText)], Transcript(rounds, 0));
    Added(base, [Plain("user", userText)] + Transcript(rounds, 0));
  }

  lemma Added(base: seq<Message>, more: seq<Message>)
    ensures more == [] ==> base + more == base
    ensures base <= base + more && (base + more)[|base|..] == more
  {
  }

  lemma NoTokens(count: string -> nat)
    ensures ContentTokens([], count) == 0
  {
  }

  lemma OneToken(m: Message, count: string -> nat)
    ensures ContentTokens([m], count) == count(m.content)
  {
    assert [m][1..] == [];
  }

  lemma NextTokens(rounds: seq<Round>, i: nat, count: string -> nat)
    requires i < |rounds|
    ensures var hasTools, r := i < MAX_TOOL_ROUNDS, rounds[i];
            ContentTokens(Transcript(rounds[i..], i), count)
            == ContentTokens(RoundMessages(r, hasTools), count)
               + if GoesOn(r, hasTools) then ContentTokens(Transcript(rounds[i + 1..], i + 1), count) else 0
  {
    hide RoundMessages, GoesOn;
    var hasTools := i < MAX_TOOL_ROUNDS;
    assert rounds[i..][0] == rounds[i] && rounds[i..][1..] == rounds[i + 1..];
    assert RoundMessages(rounds[i], hasTools) + [] == RoundMessages(rounds[i], hasTools);
    ContentTokensConcat(RoundMessages(rounds[i], hasTools), Transcript(rounds[i + 1..], i + 1), count);
  }

  lemma NoRounds(rounds: seq<Round>, n: nat, messages: seq<Message>)
    ensures rounds[0..] == rounds && Transcript(rounds[|rounds|..], n) == []
    ensures RequestsOf(messages, rounds[|rounds|..], n) == [] && StopOf(rounds[|rounds|..], n) == Waiting
  {
  }

  lemma NextRound(before: seq<Message>, messages: seq<Message>, requests: seq<Request>, rounds: seq<Round>, i: nat)
    requires i < |rounds|
    ensures var hasTools, r := i < MAX_TOOL_ROUNDS, rounds[i];
            var after, sent := before + RoundMessages(r, hasTools), requests + [Request(messages, hasTools)];
            && before + Transcript(rounds[i..], i)
               == (if GoesOn(r, hasTools) then after + Transcript(rounds[i + 1..], i + 1) else after)
            && requests + RequestsOf(messages, rounds[i..], i)
               == (if GoesOn(r, hasTools)
                     then sent + RequestsOf(messages + RoundMessages(r, hasTools), rounds[i + 1..], i + 1) else sent)
            && StopOf(rounds[i..], i)
               == (if GoesOn(r, hasTools) then StopOf(rounds[i + 1..], i + 1) else RoundStop(r, hasTools))
  {
    hide RoundMessages, GoesOn, RoundStop;
    var hasTools := i < MAX_TOOL_ROUNDS;
    assert rounds[i..][0] == rounds[i] && rounds[i..][1..] == rounds[i + 1..];
    Regroup(before, RoundMessages(rounds[i], hasTools), Transcript(rounds[i + 1..], i + 1));
    assert RoundMessages(rounds[i], hasTools) + [] == RoundMessages(rounds[i], hasTools);
  }

  // ---- What holds for every chat ----

  /** At most MAX_TOOL_ROUNDS + 1 model calls, and only the last of that many is without tools. */
  lemma {:induction false} CallsAreBounded(messages: seq<Message>, rounds: seq<Round>, n: nat)
    requires n <= MAX_TOOL_ROUNDS
    ensures |RequestsOf(messages, rounds, n)| <= MAX_TOOL_ROUNDS + 1 - n
    ensures forall k :: 0 <= k < |RequestsOf(messages, rounds, n)| ==>
              (RequestsOf(messages, rounds, n)[k].offersTools <==> n + k < MAX_TOOL_ROUNDS)
    decreases |rounds|
  {
    hide RoundMessages;
    if rounds != [] && GoesOn(rounds[0], n < MAX_TOOL_ROUNDS) {
      var rest := RequestsOf(messages + RoundMessages(rounds[0], true), rounds[1..], n + 1);
      CallsAreBounded(messages + RoundMessages(rounds[0], true), rounds[1..], n + 1);
      assert forall k :: 0 < k < 1 + |rest| ==> RequestsOf(messages, rounds, n)[k] == rest[k - 1];
    }
  }

  lemma AssistantAsks(r: Round, hasTools: bool)
    requires r.Answered?
    ensures ToolIds(AssistantOf(r, hasTools)) == (if hasTools then Ids(CallList(r)) else [])
    ensures !IsTool(AssistantOf(r, hasTools))
  {
  }

  /** A round leaves a turn in order; a finished round, or a final answer, leaves an accepted one. */
  lemma RoundInOrder(r: Round, hasTools: bool)
    ensures InOrder(RoundMessages(r, hasTools))
    ensures GoesOn(r, hasTools) || !CallsTools(r, hasTools) ==> WireValid(RoundMessages(r, hasTools))
  {
    hide InOrder, WireValid, AssistantOf;
    NothingIsValid();
    ValidIsInOrder([]);
    if r.Answered? {
      var m := AssistantOf(r, hasTools);
      AssistantAsks(r, hasTools);
      if CallsTools(r, hasTools) {
        var results := Results(CallList(r), r.results);
        OneTurnInOrder(m, results);
        if |results| == |CallList(r)| {
          WireValidTurn(m, results, []);
          assert [m] + results + [] == [m] + results;
        }
      } else {
        PlainIsValid(m);
        PlainInOrder(m);
        assert [m] + [] == [m];
      }
    }
  }

  lemma {:induction false} TranscriptInOrder(rounds: seq<Round>, n: nat)
    ensures InOrder(Transcript(rounds, n))
    ensures StopOf(rounds, n) != Waiting ==> WireValid(Transcript(rounds, n))
    decreases |rounds|
  {
    hide InOrder, WireValid, RoundMessages, GoesOn;
    NothingIsValid();
    ValidIsInOrder([]);
    if rounds != [] {
      var hasTools := n < MAX_TOOL_ROUNDS;
      RoundInOrder(rounds[0], hasTools);
      if GoesOn(rounds[0], hasTools) {
        TranscriptInOrder(rounds[1..], n + 1);
        InOrderConcat(RoundMessages(rounds[0], hasTools), Transcript(rounds[1..], n + 1));
        if StopOf(rounds, n) != Waiting {
          WireValidConcat(RoundMessages(rounds[0], hasTools), Transcript(rounds[1..], n + 1));
        }
      } else {
        assert RoundMessages(rounds[0], hasTools) + [] == RoundMessages(rounds[0], hasTools);
      }
    }
  }

  lemma FirstRequest(messages: seq<Message>, rounds: seq<Round>, n: nat)
    requires RequestsOf(messages, rounds, n) != []
    ensures RequestsOf(messages, rounds, n)[0].messages == messages
  {
    hide RoundMessages, GoesOn;
  }

  lemma LaterRequest(messages: seq<Message>, rounds: seq<Round>, n: nat, k: nat)
    requires 0 < k < |RequestsOf(messages, rounds, n)|
    ensures var hasTools := n < MAX_TOOL_ROUNDS;
            && rounds != [] && GoesOn(rounds[0], hasTools)
            && k - 1 < |RequestsOf(messages + RoundMessages(rounds[0], hasTools), rounds[1..], n + 1)|
            && RequestsOf(messages, rounds, n)[k]
               == RequestsOf(messages + RoundMessages(rounds[0], hasTools), rounds[1..], n + 1)[k - 1]
  {
    hide RoundMessages, GoesOn;
  }

  /** If the first model call is accepted, all are. */
  lemma {:induction false} EveryCallIsValid(messages: seq<Message>, rounds: seq<Round>, n: nat, k: nat)
    requires WireValid(messages) && k < |RequestsOf(messages, rounds, n)|
    ensures WireValid(RequestsOf(messages, rounds, n)[k].messages)
    decreases |rounds|
  {
    hide WireValid, RoundMessages, GoesOn, RequestsOf;
    if k == 0 {
      FirstRequest(messages, rounds, n);
    } else {
      LaterRequest(messages, rounds, n, k);
      var hasTools := n < MAX_TOOL_ROUNDS;
      RoundInOrder(rounds[0], hasTools);
      WireValidConcat(messages, RoundMessages(rounds[0], hasTools));
      EveryCallIsValid(messages + RoundMessages(rounds[0], hasTools), rounds[1..], n + 1, k - 1);
    }
  }

  lemma OpeningStarts(system: Message, memory: string)
    requires system.role == "system"
    ensures WireValid([system] + if memory == "" then [] else [Plain("system", memory)])
  {
    hide WireValid;
    SystemAsksNothing(system);
    PlainIsValid(system);
    assert [system] + [] == [system];
    if memory != "" {
      SystemAsksNothing(Plain("system", memory));
      PlainIsValid(Plain("system", memory));
      WireValidConcat([system], [Plain("system", memory)]);
    }
  }

  /**
   * For a history as turn loops and truncations leave it, the first model call is accepted exactly when there is no
   * summary or the history does not start with results of a turn that was cut off.
   */
  lemma OpeningIsValid(system: Message, memory: string, summary: Option<string>, ms: seq<Message>)
    requires system.role == "system" && Stored(ms)
    ensures WireValid(Opening(system, memory, ContextOf(summary, ms))) <==> summary.None? || LeadingTools(ms) == 0
  {
    hide WireValid, Sanitized, Retain, InOrder, SUMMARY_PREFIX;
    var context := ContextOf(summary, ms);
    if summary.None? || LeadingTools(ms) == 0 {
      if summary.None? {
        assert context == ms;
        SanitizeRepairsStored(ms);
      } else {
        SummaryHidesOrphans(SummaryMessage(summary.value), ms);
      }
      RetainKeepsValid(Sanitized(context), KeptInChat);
      OpeningStarts(system, memory);
      WireValidConcat([system] + if memory == "" then [] else [Plain("system", memory)],
                      Retain(Sanitized(context), KeptInChat));
    } else {
      SummaryIsKept(summary.value);
      OrphanIsRejected(system, memory, SummaryMessage(summary.value), ms);
    }
  }

  lemma SummaryIsKept(summary: string)
    ensures KeptInChat(SummaryMessage(summary))
  {
    assert SummaryMessage(summary).content[..|SUMMARY_PREFIX|] == SUMMARY_PREFIX;
  }

  /** An orphan behind the summary reaches the model. */
  lemma OrphanIsRejected(system: Message, memory: string, summary: Message, ms: seq<Message>)
    requires system.role == "system" && summary.role == "system" && KeptInChat(summary) && LeadingTools(ms) > 0
    ensures !WireValid(Opening(system, memory, [summary] + ms))
  {
    hide WireValid, KeptInChat, Sanitized, Retain, LeadingTools;
    var history := [summary] + ms;
    SanitizedFront(summary, ms);
    var front := [system] + (if memory == "" then [] else [Plain("system", memory)]) + [summary];
    var rest := Retain(Sanitized(history)[2..], KeptInChat);
    RetainTwo(Sanitized(history));
    assert Opening(system, memory, history) == front + ([ms[0]] + rest);
    ToolBehindSystem(front, [ms[0]] + rest);
  }

  lemma {:induction false} SanitizedFront(summary: Message, ms: seq<Message>)
    requires summary.role == "system" && LeadingTools(ms) > 0
    ensures |Sanitized([summary] + ms)| >= 2
    ensures Sanitized([summary] + ms)[0] == summary && Sanitized([summary] + ms)[1] == ms[0] && IsTool(ms[0])
  {
    var all := [summary] + ms;
    NothingLeads(all);
    assert all[0] == summary && all[1..] == ms;
    assert ToolIds(summary) == [] && ToolIds(ms[0]) == [];
  }

  lemma {:induction false} RetainTwo(ms: seq<Message>)
    requires |ms| >= 2 && KeptInChat(ms[0]) && IsTool(ms[1])
    ensures Retain(ms, KeptInChat) == [ms[0]] + ([ms[1]] + Retain(ms[2..], KeptInChat))
  {
    assert KeptInChat(ms[1]);
    assert ms[1..][1..] == ms[2..] && ms[1..][0] == ms[1];
  }

  lemma {:induction false} ToolBehindSystem(front: seq<Message>, rest: seq<Message>)
    requires front != [] && rest != [] && IsTool(rest[0]) && forall k :: 0 <= k < |front| ==> front[k].role == "system"
    ensures !WireValid(front + rest)
    decreases |front|
  {
    var all := front + rest;
    assert all[0] == front[0] && ToolIds(all[0]) == [] && all[1..] == front[1..] + rest;
    if |front| == 1 {
      assert all[1..] == rest;
    } else {
      ToolBehindSystem(front[1..], rest);
    }
  }

  /** Serial chats keep the history healthy, so the next one can always be cleaned up. */
  lemma ChatLeavesHealthy(ms: seq<Message>, userText: string, rounds: seq<Round>)
    requires Stored(ms)
    ensures Stored(ms + [Plain("user", userText)] + Transcript(rounds, 0))
    ensures WireValid(ms) && StopOf(rounds, 0) != Waiting ==>
              WireValid(ms + [Plain("user", userText)] + Transcript(rounds, 0))
  {
    hide InOrder, Transcript, WireValid, StopOf, Interrupted.Stored;
    var user := Plain("user", userText);
    TranscriptInOrder(rounds, 0);
    PlainInOrder(user);
    StoredConcat(ms, [user]);
    StoredConcat(ms + [user], Transcript(rounds, 0));
    if WireValid(ms) && StopOf(rounds, 0) != Waiting {
      PlainIsValid(user);
      WireValidConcat(ms, [user]);
      WireValidConcat(ms + [user], Transcript(rounds, 0));
    }
  }

  /**
   * A compression between a call and its result: the result is stored behind the summary, where the clean-up keeps
   * it although nothing asks for it any more.
   */
  lemma CompressionInsideTurnIsRejected(summary: string, id: string, output: string, system: Message)
    requires system.role == "system"
    ensures var ms := [Plain("assistant", "[summary] " + summary), ToolResult(id, output)];
            !WireValid(Opening(system, "", ContextOf(Some(summary), ms)))
  {
    hide WireValid;
    var a, t := Plain("assistant", "[summary] " + summary), ToolResult(id, output);
    var s := SummaryMessage(summary);
    var context := [s] + [a, t];
    assert context == [s, a, t];
    KeptWhole(s, a, t);
    SummaryIsKept(summary);
    RetainAll([s, a, t], KeptInChat);
    var opening := [system] + [s, a, t];
    assert Opening(system, "", context) == [system] + [] + [s, a, t] == opening;
    LoneResult(opening);
  }

  lemma KeptWhole(s: Message, a: Message, t: Message)
    requires !IsTool(s) && ToolIds(s) == [] && ToolIds(a) == [] && IsTool(t)
    ensures Sanitized([s, a, t]) == [s, a, t]
  {
    hide ToolIds;
    ToolsAreMute(t);
    NothingLeads([s, a, t]);
    assert [s, a, t][1..] == [a, t] && [a, t][1..] == [t] && [t][1..] == [];
    assert SanitizeRest([t]) == [t] + SanitizeRest([]);
    assert SanitizeRest([a, t]) == [a] + SanitizeRest([t]);
  }

  lemma ToolsAreMute(m: Message)
    requires IsTool(m)
    ensures ToolIds(m) == []
  {
  }

  lemma LoneResult(ms: seq<Message>)
    requires |ms| == 4 && IsTool(ms[3]) && forall k :: 0 <= k < 3 ==> ToolIds(ms[k]) == []
    ensures !WireValid(ms)
  {
    hide WireValid, ToolIds;
    WireValidMeans(ms);
    if WireValid(ms) {
      LoneResultHasNoTurn(ms);
    }
  }

  lemma LoneResultHasNoTurn(ms: seq<Message>)
    requires |ms| == 4 && IsTool(ms[3]) && forall k :: 0 <= k < 3 ==> ToolIds(ms[k]) == []
    ensures !Messages.Answered(ms)
  {
    hide ToolIds;
    assert !BelongsToTurn(ms, 3);
  }
}
