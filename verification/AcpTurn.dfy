/**
 * The `session/prompt` turn loop. What the model, the client and the tools do is a script, one entry per request; a
 * script that ends early stands for a turn that is still waiting at that point. The permission policy turns the facts of
 * each call into its outcome.
 */
module AcpTurn {
  import opened Sequences
  import opened Wrappers
  import opened Messages
  import opened Interrupted
  import opened Requests
  import opened Sessions
  import opened SessionLaws
  import opened AcpTools
  import opened Turns

  datatype Round = Round(start: Start, outcomes: seq<Outcome>)

  /** The script of a round: the permission policy decides on the outcomes of its calls. */
  datatype Script = Script(start: Start, facts: seq<Facts>)

  datatype Stop = EndTurn | CancelledTurn | Waiting

  function ResultText(o: Outcome): string {
    match o
    case Completed(output) => output
    case ToolFailed(error) => "error: " + error
    case _ => "execution rejected by user"
  }

  /** How many of the outcomes come before a cancellation. */
  function Settled(outcomes: seq<Outcome>): (n: nat)
    ensures n <= |outcomes|
    ensures forall k :: 0 <= k < n ==> !Cancels(outcomes[k])
    ensures n < |outcomes| ==> Cancels(outcomes[n])
    decreases |outcomes|
  {
    if outcomes == [] || Cancels(outcomes[0]) then 0 else 1 + Settled(outcomes[1..])
  }

  /** The results stored before the turn ends or waits. */
  function Results(calls: seq<ToolCall>, outcomes: seq<Outcome>): (r: seq<Message>)
    ensures ResultsFor(r, calls)
    ensures |r| == if Settled(outcomes) < |calls| then Settled(outcomes) else |calls|
  {
    seq(if Settled(outcomes) < |calls| then Settled(outcomes) else |calls|,
        k requires 0 <= k < |calls| && k < |outcomes| => ToolResult(calls[k].id, ResultText(outcomes[k])))
  }

  predicate Replied(r: Round) {
    r.start.Started? && Delivered(r.start.chunks) == |r.start.chunks|
  }

  function RoundReply(r: Round): Reply
    requires Replied(r)
  {
    ReplyOf(r.start.chunks)
  }

  /** What one round stores. */
  function RoundMessages(r: Round): seq<Message> {
    if Replied(r) then [AssistantMessage(RoundReply(r))] + Results(RoundReply(r).calls, r.outcomes) else []
  }

  /** The round called tools and has all results, so the model is asked again. */
  predicate GoesOn(r: Round) {
    Replied(r) && RoundReply(r).calls != [] && |Results(RoundReply(r).calls, r.outcomes)| == |RoundReply(r).calls|
  }

  function Transcript(rounds: seq<Round>): seq<Message>
    decreases |rounds|
  {
    if rounds == [] then []
    else RoundMessages(rounds[0]) + if GoesOn(rounds[0]) then Transcript(rounds[1..]) else []
  }

  /** Only the output of a command that was run counts; the result of any other call adds nothing. */
  function OutcomeTokens(o: Outcome, count: string -> nat): nat {
    if o.Completed? then count(o.output) else 0
  }

  function ResultTokens(outcomes: seq<Outcome>, n: nat, count: string -> nat): nat
    requires n <= |outcomes|
  {
    if n == 0 then 0 else ResultTokens(outcomes, n - 1, count) + OutcomeTokens(outcomes[n - 1], count)
  }

  /** The tokens counted for one round. */
  function RoundTokens(r: Round, count: string -> nat): nat {
    if !Replied(r) then 0
    else
      var reply := RoundReply(r);
      count(reply.content) + count(reply.reasoning) + ResultTokens(r.outcomes, |Results(reply.calls, r.outcomes)|, count)
  }

  function TranscriptTokens(rounds: seq<Round>, count: string -> nat): nat
    decreases |rounds|
  {
    if rounds == [] then 0
    else RoundTokens(rounds[0], count) + if GoesOn(rounds[0]) then TranscriptTokens(rounds[1..], count) else 0
  }

  /** The requests sent when the session holds `ms` at the first one; only that one may offer tools. */
  function RequestsOf(ms: seq<Message>, summary: Option<string>, system: Message, rounds: seq<Round>,
                      offersTools: bool): seq<Request>
    decreases |rounds|
  {
    if rounds == [] then []
    else
      [Request(BuildMessages(ContextOf(summary, ms), system), offersTools)]
      + if GoesOn(rounds[0]) then RequestsOf(ms + RoundMessages(rounds[0]), summary, system, rounds[1..], false) else []
  }

  /** Why a round that does not go on ends the turn, or that it is still waiting. */
  function RoundStop(r: Round): Stop {
    match r.start
    case NotStarted => CancelledTurn
    case Refused => EndTurn
    case Started(chunks) =>
      var n := Delivered(chunks);
      if n < |chunks| then (if chunks[n].Broken? then EndTurn else CancelledTurn)
      else
        var calls := ReplyOf(chunks).calls;
        var k := |Results(calls, r.outcomes)|;
        if calls == [] then EndTurn
        else if k < |calls| && k < |r.outcomes| then CancelledTurn
        else Waiting
  }

  function StopOf(rounds: seq<Round>): Stop
    decreases |rounds|
  {
    if rounds == [] then Waiting
    else if GoesOn(rounds[0]) then StopOf(rounds[1..])
    else RoundStop(rounds[0])
  }

  /** The rounds of a script as the permission policy decides them. */
  function RoundsOf(skip: bool, script: seq<Script>): (r: seq<Round>)
    ensures |r| == |script|
    ensures forall k :: 0 <= k < |r| ==> r[k] == Round(script[k].start, Outcomes(skip, script[k].facts))
  {
    seq(|script|, k requires 0 <= k < |script| => Round(script[k].start, Outcomes(skip, script[k].facts)))
  }

  function RoundActs(skip: bool, s: Script): seq<Act> {
    if s.start.Started? && Delivered(s.start.chunks) == |s.start.chunks|
      then CallActs(skip, ReplyOf(s.start.chunks).calls, s.facts)
    else []
  }

  /** What was asked and run in a turn, in order. */
  function TurnActs(skip: bool, script: seq<Script>): seq<Act>
    decreases |script|
  {
    if script == [] then []
    else
      RoundActs(skip, script[0])
      + if GoesOn(Round(script[0].start, Outcomes(skip, script[0].facts))) then TurnActs(skip, script[1..]) else []
  }

  method RunPrompt(session: Session, system: Message, userText: string, skip: bool, script: seq<Script>,
                   countTokens: string -> nat)
    returns (stop: Stop, requests: seq<Request>, acts: seq<Act>)
    modifies session
    ensures session.summary == old(session.summary)
    ensures session.messages == old(session.messages) + [Plain("user", userText)] + Transcript(RoundsOf(skip, script))
    ensures session.tokenCount
         == old(session.tokenCount) + countTokens(userText) + TranscriptTokens(RoundsOf(skip, script), countTokens)
    ensures requests
         == RequestsOf(old(session.messages) + [Plain("user", userText)], session.summary, system,
                       RoundsOf(skip, script), true)
    ensures stop == StopOf(RoundsOf(skip, script))
    ensures acts == TurnActs(skip, script)
  {
    hide Transcript, RequestsOf, BuildMessages, RoundMessages, GoesOn, StopOf, RoundStop, Apply, TurnActs, RoundActs,
      TranscriptTokens, RoundTokens;
    session.PushMessage(Plain("user", userText), countTokens(userText));
    ghost var base, rounds := session.messages, RoundsOf(skip, script);
    var phase := 1;
    requests, acts := [], [];
    var i := 0;
    stop := Waiting;
    NoRounds(rounds);
    NoActs(skip, script);
    NoTokens(rounds, countTokens);
    ghost var counted := session.tokenCount;
    while i < |script|
      invariant 0 <= i <= |script|
      invariant session.summary == old(session.summary)
      invariant session.messages + Transcript(rounds[i..]) == base + Transcript(rounds)
      invariant session.tokenCount + TranscriptTokens(rounds[i..], countTokens)
             == counted + TranscriptTokens(rounds, countTokens)
      invariant requests + RequestsOf(session.messages, session.summary, system, rounds[i..], phase == 1)
             == RequestsOf(base, session.summary, system, rounds, true)
      invariant stop == Waiting && StopOf(rounds[i..]) == StopOf(rounds)
      invariant acts + TurnActs(skip, script[i..]) == TurnActs(skip, script)
    {
      ghost var before := session.messages;
      NextRound(before, session.summary, system, rounds, i, phase == 1);
      NextActs(skip, script, i, acts);
      NextTokens(rounds, i, countTokens);
      var hasTools := phase == 1;
      var messages := BuildRequest(session, system);
      requests := requests + [Request(messages, hasTools)];
      var next, done;
      stop, next, done := RunRound(session, skip, script[i], countTokens);
      acts := acts + done;
      RoundDone(before, session.messages, base, rounds, i);
      if !next {
        return;
      }
      phase := 2;
      i := i + 1;
    }
    NoRounds(rounds);
  }

  lemma NoTokens(rounds: seq<Round>, count: string -> nat)
    ensures rounds[0..] == rounds && TranscriptTokens(rounds[|rounds|..], count) == 0
  {
  }

  lemma NextTokens(rounds: seq<Round>, i: nat, count: string -> nat)
    requires i < |rounds|
    ensures TranscriptTokens(rounds[i..], count)
         == RoundTokens(rounds[i], count) + if GoesOn(rounds[i]) then TranscriptTokens(rounds[i + 1..], count) else 0
  {
    hide RoundTokens, GoesOn;
    assert rounds[i..][0] == rounds[i] && rounds[i..][1..] == rounds[i + 1..];
  }

  lemma NoActs(skip: bool, script: seq<Script>)
    ensures script[0..] == script && [] + TurnActs(skip, script) == TurnActs(skip, script)
    ensures TurnActs(skip, script[|script|..]) == [] && forall a: seq<Act> :: a + [] == a
  {
  }

  lemma NextActs(skip: bool, script: seq<Script>, i: nat, before: seq<Act>)
    requires i < |script|
    ensures before + TurnActs(skip, script[i..])
         == before + RoundActs(skip, script[i])
            + if GoesOn(RoundsOf(skip, script)[i]) then TurnActs(skip, script[i + 1..]) else []
  {
    hide RoundActs, GoesOn;
    assert script[i..][0] == script[i] && script[i..][1..] == script[i + 1..];
    Regroup(before, RoundActs(skip, script[i]),
            if GoesOn(RoundsOf(skip, script)[i]) then TurnActs(skip, script[i + 1..]) else []);
  }

  /** One request, its reply and its tools; `next` says whether the loop asks the model again. */
  method RunRound(session: Session, skip: bool, script: Script, countTokens: string -> nat)
    returns (stop: Stop, next: bool, acts: seq<Act>)
    modifies session
    ensures session.summary == old(session.summary)
    ensures var round := Round(script.start, Outcomes(skip, script.facts));
            && session.messages == old(session.messages) + RoundMessages(round)
            && session.tokenCount == old(session.tokenCount) + RoundTokens(round, countTokens)
            && (next <==> GoesOn(round))
            && stop == (if next then Waiting else RoundStop(round))
    ensures acts == RoundActs(skip, script)
  {
    hide AssistantMessage, Results, Apply, CallActs, ResultTokens;
    if script.start.NotStarted? {
      return CancelledTurn, false, [];
    }
    if script.start.Refused? {
      return EndTurn, false, [];
    }
    var end, reply := ReadStream(script.start.chunks);
    if end != Complete {
      return (if end == Failed then EndTurn else CancelledTurn), false, [];
    }
    var assistant := AssistantMessage(reply);
    session.PushMessage(assistant, countTokens(reply.content) + countTokens(reply.reasoning));
    if reply.calls == [] {
      assert [assistant] + [] == [assistant];
      NoCalls(skip, script.facts);
      NoResultTokens(Outcomes(skip, script.facts), countTokens);
      return EndTurn, false, [];
    }
    var cancelled, done;
    cancelled, done, acts := RunTools(session, skip, reply.calls, script.facts, countTokens);
    Regroup(old(session.messages), [assistant], Results(reply.calls, Outcomes(skip, script.facts)));
    return (if cancelled then CancelledTurn else Waiting), done, acts;
  }

  lemma NoResultTokens(outcomes: seq<Outcome>, count: string -> nat)
    ensures Results([], outcomes) == [] && ResultTokens(outcomes, 0, count) == 0
  {
  }

  lemma NoCalls(skip: bool, facts: seq<Facts>)
    ensures CallActs(skip, [], facts) == []
  {
  }

  /** The tool calls of one reply, one by one. */
  method RunTools(session: Session, skip: bool, calls: seq<ToolCall>, facts: seq<Facts>, countTokens: string -> nat)
    returns (cancelled: bool, done: bool, acts: seq<Act>)
    modifies session
    ensures session.summary == old(session.summary)
    ensures var results := Results(calls, Outcomes(skip, facts));
            && session.messages == old(session.messages) + results
            && session.tokenCount
               == old(session.tokenCount) + ResultTokens(Outcomes(skip, facts), |results|, countTokens)
            && (done <==> |results| == |calls|)
            && (cancelled <==> |results| < |calls| && |results| < |facts|)
    ensures acts == CallActs(skip, calls, facts)
  {
    hide Apply, Settled, ResultText, CallStep, CallActs, Cancels, Results, OutcomeTokens;
    ghost var outcomes := Outcomes(skip, facts);
    ghost var all := Results(calls, outcomes);
    acts := [];
    var k := 0;
    FirstActs(skip, calls, facts);
    while k < |calls|
      invariant 0 <= k <= |calls| && k <= Settled(outcomes)
      invariant session.summary == old(session.summary)
      invariant session.messages == old(session.messages) + all[..k]
      invariant session.tokenCount == old(session.tokenCount) + ResultTokens(outcomes, k, countTokens)
      invariant acts + CallActs(skip, calls[k..], facts[k..]) == CallActs(skip, calls, facts)
    {
      MoreActs(skip, calls, facts, k, acts);
      if k == |facts| {
        return false, false, acts;
      }
      var outcome, more := RunTool(skip, facts[k]);
      acts := acts + more;
      if Cancels(outcome) {
        return true, false, acts;
      }
      var content, tokens := ToolText(outcome, countTokens);
      session.PushMessage(ToolResult(calls[k].id, content), tokens);
      NextResult(calls, outcomes, k);
      k := k + 1;
    }
    LastActs(skip, calls, facts, acts);
    return false, true, acts;
  }

  lemma {:induction false} NextResult(calls: seq<ToolCall>, outcomes: seq<Outcome>, k: nat)
    requires k < |calls| && k < |outcomes| && k <= Settled(outcomes) && !Cancels(outcomes[k])
    ensures var all := Results(calls, outcomes);
            && k < Settled(outcomes) && k + 1 <= |all|
            && all[..k + 1] == all[..k] + [ToolResult(calls[k].id, ResultText(outcomes[k]))]
  {
    hide ResultText, Settled, Cancels;
  }

  lemma FirstActs(skip: bool, calls: seq<ToolCall>, facts: seq<Facts>)
    ensures calls[0..] == calls && facts[0..] == facts
    ensures [] + CallActs(skip, calls, facts) == CallActs(skip, calls, facts)
  {
  }

  lemma LastActs(skip: bool, calls: seq<ToolCall>, facts: seq<Facts>, acts: seq<Act>)
    requires |calls| <= |facts|
    ensures acts + CallActs(skip, calls[|calls|..], facts[|calls|..]) == acts
  {
    assert calls[|calls|..] == [] && acts + [] == acts;
  }

  lemma MoreActs(skip: bool, calls: seq<ToolCall>, facts: seq<Facts>, k: nat, acts: seq<Act>)
    requires k < |calls| && k <= |facts|
    ensures acts + CallActs(skip, calls[k..], facts[k..])
         == if k == |facts| then acts
            else
              var s := CallStep(skip, facts[k]);
              acts + s.acts + if Cancels(s.outcome) then [] else CallActs(skip, calls[k + 1..], facts[k + 1..])
  {
    hide CallStep;
    assert calls[k..][1..] == calls[k + 1..];
    if k < |facts| {
      assert facts[k..][0] == facts[k] && facts[k..][1..] == facts[k + 1..];
      var s := CallStep(skip, facts[k]);
      Regroup(acts, s.acts, if Cancels(s.outcome) then [] else CallActs(skip, calls[k + 1..], facts[k + 1..]));
    } else {
      assert facts[k..] == [] && acts + [] == acts;
    }
  }

  /** The text of the result of a call that is not cancelled, and its token count. */
  method ToolText(outcome: Outcome, countTokens: string -> nat) returns (content: string, tokens: nat)
    requires !Cancels(outcome)
    ensures content == ResultText(outcome) && tokens == OutcomeTokens(outcome, countTokens)
  {
    match outcome {
      case Rejected => content, tokens := "execution rejected by user", 0;
      case Completed(output) => content, tokens := output, countTokens(output);
      case ToolFailed(error) => content, tokens := "error: " + error, 0;
      case PermissionCancelled => assert false;
      case RunCancelled => assert false;
    }
  }

  /**
   * Over every turn: a command that needs confirmation runs if and only if the client answered the question about it with
   * `allow_once`, right before. Any other answer, none, or a cancellation keeps it from running.
   */
  lemma {:induction false} TurnHasLeave(skip: bool, script: seq<Script>)
    ensures OnlyWithLeave(skip, TurnActs(skip, script))
    decreases |script|
  {
    hide LeaveAt, GoesOn, CallActs;
    if script != [] {
      var s := script[0];
      if s.start.Started? && Delivered(s.start.chunks) == |s.start.chunks| {
        CallsHaveLeave(skip, ReplyOf(s.start.chunks).calls, s.facts);
      }
      TurnHasLeave(skip, script[1..]);
      LeaveConcat(skip, RoundActs(skip, s), TurnActs(skip, script[1..]));
      assert RoundActs(skip, s) + [] == RoundActs(skip, s);
    }
  }

  lemma NoRounds(rounds: seq<Round>)
    ensures rounds[0..] == rounds && Transcript(rounds[|rounds|..]) == []
    ensures forall ms, summary, system, tools :: RequestsOf(ms, summary, system, rounds[|rounds|..], tools) == []
    ensures StopOf(rounds[|rounds|..]) == Waiting
  {
  }

  lemma NextRound(ms: seq<Message>, summary: Option<string>, system: Message, rounds: seq<Round>,
                  i: nat, offersTools: bool)
    requires i < |rounds|
    ensures RequestsOf(ms, summary, system, rounds[i..], offersTools)
         == [Request(BuildMessages(ContextOf(summary, ms), system), offersTools)]
            + if GoesOn(rounds[i]) then RequestsOf(ms + RoundMessages(rounds[i]), summary, system, rounds[i + 1..], false)
              else []
    ensures StopOf(rounds[i..]) == if GoesOn(rounds[i]) then StopOf(rounds[i + 1..]) else RoundStop(rounds[i])
  {
    hide BuildMessages, RoundMessages, GoesOn, RoundStop;
    assert rounds[i..][0] == rounds[i] && rounds[i..][1..] == rounds[i + 1..];
  }

  lemma RoundDone(before: seq<Message>, after: seq<Message>, base: seq<Message>, rounds: seq<Round>, i: nat)
    requires i < |rounds| && after == before + RoundMessages(rounds[i])
    ensures before + Transcript(rounds[i..])
         == if GoesOn(rounds[i]) then after + Transcript(rounds[i + 1..]) else after
  {
    hide RoundMessages, GoesOn;
    assert rounds[i..][0] == rounds[i] && rounds[i..][1..] == rounds[i + 1..];
    Regroup(before, RoundMessages(rounds[i]), Transcript(rounds[i + 1..]));
    assert RoundMessages(rounds[i]) + [] == RoundMessages(rounds[i]);
  }

  // ---- What a turn stores, from what happened in it ----

  /** The call needs leave that it did not get. */
  predicate Refused(skip: bool, f: Facts) {
    f.dangerous && !f.approved && !skip && f.answer != Heard(Selected(Some("allow_once")))
  }

  /** The turn is cancelled while the client is asked or while the command runs. */
  predicate CutOff(skip: bool, f: Facts) {
    if Refused(skip, f) then f.answer.GivenUp? else f.run.Killed?
  }

  /** The text of a call's result: the rejection, the output, or the error. */
  predicate Tells(text: string, skip: bool, f: Facts) {
    if Refused(skip, f) then text == "execution rejected by user"
    else
      && (f.run.Output? ==> text == f.run.text)
      && (f.run.Broke? ==> text == "error: " + f.run.error)
  }

  lemma CallTells(skip: bool, f: Facts)
    ensures forall count :: OutcomeTokens(CallStep(skip, f).outcome, count)
                            == if !Refused(skip, f) && f.run.Output? then count(f.run.text) else 0
    ensures Cancels(CallStep(skip, f).outcome) <==> CutOff(skip, f)
    ensures Tells(ResultText(CallStep(skip, f).outcome), skip, f) || CutOff(skip, f)
  {
  }

  /** The first `n` calls of a reply were settled, each by a result of its own; the next one, if any, was cut off. */
  predicate SettledBy(results: seq<Message>, skip: bool, calls: seq<ToolCall>, facts: seq<Facts>) {
    && |results| <= |calls| && |results| <= |facts|
    && (forall k :: 0 <= k < |results| ==>
          && !CutOff(skip, facts[k]) && Tells(results[k].content, skip, facts[k])
          && results[k] == ToolResult(calls[k].id, results[k].content))
    && (|results| < |calls| && |results| < |facts| ==> CutOff(skip, facts[|results|]))
  }

  lemma ResultsTell(skip: bool, calls: seq<ToolCall>, facts: seq<Facts>)
    ensures SettledBy(Results(calls, Outcomes(skip, facts)), skip, calls, facts)
  {
    hide CallStep, CutOff, Tells, ResultText, Cancels;
    var outcomes := Outcomes(skip, facts);
    forall k | 0 <= k < |facts| ensures (Cancels(outcomes[k]) <==> CutOff(skip, facts[k]))
                                   && (Tells(ResultText(outcomes[k]), skip, facts[k]) || CutOff(skip, facts[k])) {
      CallTells(skip, facts[k]);
    }
  }

  /** What one call does: the client is asked if the call needs leave, and the command runs unless that was refused. */
  predicate Did(skip: bool, f: Facts, acts: seq<Act>) {
    acts == (if f.dangerous && !f.approved && !skip then [Asked(f.answer)] else [])
            + (if Refused(skip, f) then [] else [Ran(f.dangerous, f.approved)])
  }

  /** `n` calls are tried: all there are, or up to the first that is cut off. */
  predicate AreTried(n: nat, skip: bool, calls: seq<ToolCall>, facts: seq<Facts>) {
    && n <= |calls| && n <= |facts|
    && (forall k :: 0 <= k < n - 1 ==> !CutOff(skip, facts[k]))
    && (n < |calls| && n < |facts| ==> n > 0 && CutOff(skip, facts[n - 1]))
  }

  lemma CallDid(skip: bool, f: Facts)
    ensures Did(skip, f, CallStep(skip, f).acts)
  {
  }

  lemma {:induction false} CallsDid(skip: bool, calls: seq<ToolCall>, facts: seq<Facts>) returns (parts: seq<seq<Act>>)
    ensures Flat(parts) == CallActs(skip, calls, facts)
    ensures AreTried(|parts|, skip, calls, facts) && forall k :: 0 <= k < |parts| ==> Did(skip, facts[k], parts[k])
    decreases |calls|
  {
    hide CallStep, CutOff, Did, Cancels;
    parts := [];
    if calls != [] && facts != [] {
      var s := CallStep(skip, facts[0]);
      CallDid(skip, facts[0]);
      CallTells(skip, facts[0]);
      if Cancels(s.outcome) {
        parts := [s.acts];
        assert parts[1..] == [];
      } else {
        var rest := CallsDid(skip, calls[1..], facts[1..]);
        parts := [s.acts] + rest;
        assert parts[1..] == rest;
      }
    }
  }

  /** What a round stores: nothing without a complete reply, else the assistant's message and the results. */
  predicate Stores(ms: seq<Message>, skip: bool, s: Script) {
    if !IsRead(s.start) then ms == []
    else
      && ms != [] && Speaks(ms[0], s.start.chunks)
      && SettledBy(ms[1..], skip, StartedCalls(s.start.chunks), s.facts)
  }

  lemma RoundStores(skip: bool, s: Script)
    ensures Stores(RoundMessages(Round(s.start, Outcomes(skip, s.facts))), skip, s)
  {
    hide SettledBy, Speaks, EndsEarly, Results, AssistantMessage, ReplyOf, Outcomes;
    if s.start.Started? {
      DeliveredMeans(s.start.chunks);
      ReplySays(s.start.chunks);
      AssistantSpeaks(s.start.chunks);
      ResultsTell(skip, StartedCalls(s.start.chunks), s.facts);
      var m, results := AssistantMessage(ReplyOf(s.start.chunks)),
          Results(StartedCalls(s.start.chunks), Outcomes(skip, s.facts));
      assert ([m] + results)[1..] == results;
    }
  }

  /**
   * Every turn stores, round by round up to the one it stops in, the messages that say what happened: the reply of the
   * model and one result for each call that was settled.
   */
  lemma TurnStores(skip: bool, script: seq<Script>, i: nat)
    requires i < |script| && AllGoOn(RoundsOf(skip, script), i)
    ensures var rounds := RoundsOf(skip, script);
            && Transcript(rounds[..i]) + RoundMessages(rounds[i]) <= Transcript(rounds)
            && (i + 1 == |rounds| || !GoesOn(rounds[i]) ==>
                  Transcript(rounds[..i]) + RoundMessages(rounds[i]) == Transcript(rounds))
            && Stores(RoundMessages(rounds[i]), skip, script[i])
  {
    hide RoundMessages, GoesOn, Stores, Transcript, Outcomes;
    RoundStores(skip, script[i]);
    TranscriptPrefix(RoundsOf(skip, script), i);
  }

  lemma {:induction false} TranscriptPrefix(rounds: seq<Round>, i: nat)
    requires i < |rounds| && AllGoOn(rounds, i)
    ensures Transcript(rounds[..i]) + RoundMessages(rounds[i]) <= Transcript(rounds)
    ensures i + 1 == |rounds| || !GoesOn(rounds[i]) ==>
              Transcript(rounds[..i]) + RoundMessages(rounds[i]) == Transcript(rounds)
    decreases i
  {
    hide RoundMessages, GoesOn;
    if i == 0 {
      assert RoundMessages(rounds[0]) + [] == RoundMessages(rounds[0]);
      assert rounds[..0] == [] && [] + RoundMessages(rounds[0]) == RoundMessages(rounds[0]);
    } else {
      AllGoOnTail(rounds, i);
      TranscriptPrefix(rounds[1..], i - 1);
      Regroup(RoundMessages(rounds[0]), Transcript(rounds[1..][..i - 1]), RoundMessages(rounds[i]));
    }
  }

  /** The tokens of the outputs of the first `n` calls. */
  function OutputTokens(skip: bool, facts: seq<Facts>, n: nat, count: string -> nat): nat
    requires n <= |facts|
  {
    if n == 0 then 0
    else
      var f := facts[n - 1];
      OutputTokens(skip, facts, n - 1, count) + if !Refused(skip, f) && f.run.Output? then count(f.run.text) else 0
  }

  lemma {:induction false} OutputsCount(skip: bool, facts: seq<Facts>, n: nat, count: string -> nat)
    requires n <= |facts|
    ensures ResultTokens(Outcomes(skip, facts), n, count) == OutputTokens(skip, facts, n, count)
    decreases n
  {
    hide CallStep, Refused, OutcomeTokens;
    if n > 0 {
      CallTells(skip, facts[n - 1]);
      OutputsCount(skip, facts, n - 1, count);
    }
  }

  /** What a round counts: the text and reasoning of its reply, and the outputs of the calls that have a result. */
  lemma RoundCounts(skip: bool, s: Script, count: string -> nat)
    ensures var r := Round(s.start, Outcomes(skip, s.facts));
            RoundTokens(r, count)
            == if !IsRead(s.start) then 0
               else
                 assert |RoundMessages(r)| > 0 && |RoundMessages(r)| - 1 <= |s.facts| by { RoundSize(skip, s); }
                 count(ContentText(s.start.chunks)) + count(ReasoningText(s.start.chunks))
                 + OutputTokens(skip, s.facts, |RoundMessages(r)| - 1, count)
  {
    hide EndsEarly, ReplyOf, Outcomes, OutputTokens, ResultTokens, AssistantMessage, Results, ContentText, ReasoningText,
      StartedCalls;
    if s.start.Started? {
      DeliveredMeans(s.start.chunks);
      ReplySays(s.start.chunks);
      if IsRead(s.start) {
        OutputsCount(skip, s.facts, |Results(StartedCalls(s.start.chunks), Outcomes(skip, s.facts))|, count);
      }
    }
  }

  lemma RoundSize(skip: bool, s: Script)
    requires IsRead(s.start)
    ensures var ms := RoundMessages(Round(s.start, Outcomes(skip, s.facts))); 0 < |ms| <= |s.facts| + 1
  {
    hide EndsEarly, ReplyOf, AssistantMessage;
    DeliveredMeans(s.start.chunks);
  }

  /** A turn counts what its rounds count, up to the one it stops in. */
  lemma {:induction false} TurnCounts(rounds: seq<Round>, i: nat, count: string -> nat)
    requires i < |rounds| && AllGoOn(rounds, i) && (i + 1 == |rounds| || !GoesOn(rounds[i]))
    ensures TranscriptTokens(rounds, count) == TranscriptTokens(rounds[..i], count) + RoundTokens(rounds[i], count)
    decreases i
  {
    hide RoundTokens, GoesOn;
    if i == 0 {
      assert rounds[..0] == [];
    } else {
      AllGoOnTail(rounds, i);
      TurnCounts(rounds[1..], i - 1, count);
    }
  }

  /** What a turn does: round by round what the calls of the reply do, up to the round it stops in. */
  lemma TurnDoes(skip: bool, script: seq<Script>, i: nat) returns (parts: seq<seq<Act>>)
    requires i < |script| && AllGoOn(RoundsOf(skip, script), i)
    ensures var before, all := TurnActs(skip, script[..i]), TurnActs(skip, script);
            && before + Flat(parts) <= all
            && (i + 1 == |script| || !GoesOn(RoundsOf(skip, script)[i]) ==> before + Flat(parts) == all)
            && if IsRead(script[i].start) then
                 var calls := StartedCalls(script[i].start.chunks);
                 && AreTried(|parts|, skip, calls, script[i].facts)
                 && forall k :: 0 <= k < |parts| ==> Did(skip, script[i].facts[k], parts[k])
               else parts == []
  {
    hide RoundActs, GoesOn, Did, AreTried, TurnActs, CallActs, Outcomes, StartedCalls;
    ActsPrefix(skip, script, i);
    parts := RoundDoes(skip, script[i]);
  }

  lemma RoundDoes(skip: bool, s: Script) returns (parts: seq<seq<Act>>)
    ensures Flat(parts) == RoundActs(skip, s)
    ensures if IsRead(s.start) then
              var calls := StartedCalls(s.start.chunks);
              && AreTried(|parts|, skip, calls, s.facts)
              && forall k :: 0 <= k < |parts| ==> Did(skip, s.facts[k], parts[k])
            else parts == []
  {
    hide Did, AreTried, CallActs, StartedCalls, ReplyOf, EndsEarly;
    parts := [];
    if s.start.Started? {
      DeliveredMeans(s.start.chunks);
      ReplySays(s.start.chunks);
      if IsRead(s.start) {
        parts := CallsDid(skip, StartedCalls(s.start.chunks), s.facts);
      }
    }
  }

  lemma {:induction false} ActsPrefix(skip: bool, script: seq<Script>, i: nat)
    requires i < |script| && AllGoOn(RoundsOf(skip, script), i)
    ensures var before, all := TurnActs(skip, script[..i]), TurnActs(skip, script);
            && before + RoundActs(skip, script[i]) <= all
            && (i + 1 == |script| || !GoesOn(RoundsOf(skip, script)[i]) ==> before + RoundActs(skip, script[i]) == all)
    decreases i
  {
    hide RoundActs, GoesOn, Outcomes;
    if i == 0 {
      assert script[..0] == [] && [] + RoundActs(skip, script[0]) == RoundActs(skip, script[0]);
      assert RoundActs(skip, script[0]) + [] == RoundActs(skip, script[0]);
    } else {
      AllGoOnTail(RoundsOf(skip, script), i);
      assert RoundsOf(skip, script)[1..] == RoundsOf(skip, script[1..]);
      ActsPrefix(skip, script[1..], i - 1);
      assert script[..i][1..] == script[1..][..i - 1];
      Regroup(RoundActs(skip, script[0]), TurnActs(skip, script[1..][..i - 1]), RoundActs(skip, script[i]));
    }
  }

  // ---- Why a turn stops ----

  /** The round the turn stops in: all before it went on, and it did not. */
  predicate StopsIn(rounds: seq<Round>, i: nat) {
    i < |rounds| && AllGoOn(rounds, i) && !GoesOn(rounds[i])
  }

  /** Cancelled before the request was started, in mid-stream, or at a call. */
  predicate WasCancelled(r: Round) {
    || r.start.NotStarted?
    || (r.start.Started?
        && var chunks := r.start.chunks;
           || (exists n :: 0 <= n < |chunks| && EndsEarly(chunks, n) && chunks[n].Cut?)
           || ((forall n :: 0 <= n < |chunks| ==> !EndsEarly(chunks, n))
               && exists k :: 0 <= k < |r.outcomes| && k < |StartedCalls(chunks)| && Cancels(r.outcomes[k])))
  }

  /** The request was refused, the stream broke, or the reply called no tool. */
  predicate CameToEnd(r: Round) {
    || r.start.Refused?
    || (r.start.Started?
        && var chunks := r.start.chunks;
           || (exists n :: 0 <= n < |chunks| && EndsEarly(chunks, n) && chunks[n].Broken?)
           || ((forall n :: 0 <= n < |chunks| ==> !EndsEarly(chunks, n)) && StartedCalls(chunks) == []))
  }

  lemma RoundStopIs(r: Round)
    requires !GoesOn(r)
    ensures RoundStop(r) == CancelledTurn <==> WasCancelled(r)
    ensures RoundStop(r) == EndTurn <==> CameToEnd(r)
  {
    hide EndsEarly, ReplyOf, StartedCalls, Cancels;
    if r.start.Started? {
      DeliveredMeans(r.start.chunks);
      ReplySays(r.start.chunks);
    }
  }

  lemma {:induction false} StopIsOf(rounds: seq<Round>, i: nat)
    requires StopsIn(rounds, i)
    ensures StopOf(rounds) == RoundStop(rounds[i])
    decreases i
  {
    hide GoesOn, RoundStop;
    if i > 0 {
      AllGoOnTail(rounds, i);
      StopIsOf(rounds[1..], i - 1);
    }
  }

  /** A turn that stops nowhere in its script is waiting. */
  lemma {:induction false} StopSomewhere(rounds: seq<Round>) returns (i: nat)
    ensures i <= |rounds| && AllGoOn(rounds, i)
    ensures if i == |rounds| then StopOf(rounds) == Waiting else StopsIn(rounds, i)
    decreases |rounds|
  {
    hide GoesOn, RoundStop;
    i := 0;
    if rounds != [] && GoesOn(rounds[0]) {
      i := StopSomewhere(rounds[1..]);
      AllGoOnFront(rounds, i);
      i := i + 1;
    }
  }

  /**
   * The stop reason of every turn: cancelled if and only if the round it stops in was cancelled, and ended if and only if
   * that round came to an end.
   */
  lemma StopIs(rounds: seq<Round>)
    ensures StopOf(rounds) == CancelledTurn <==> exists i: nat :: StopsIn(rounds, i) && WasCancelled(rounds[i])
    ensures StopOf(rounds) == EndTurn <==> exists i: nat :: StopsIn(rounds, i) && CameToEnd(rounds[i])
  {
    hide GoesOn, RoundStop, StopOf, WasCancelled, CameToEnd, AllGoOn;
    forall i: nat | StopsIn(rounds, i)
      ensures StopOf(rounds) == CancelledTurn <==> WasCancelled(rounds[i])
      ensures StopOf(rounds) == EndTurn <==> CameToEnd(rounds[i])
    {
      StopIsOf(rounds, i);
      RoundStopIs(rounds[i]);
    }
    var i := StopSomewhere(rounds);
  }

  // ---- What holds for every turn ----

  lemma RoundInOrder(r: Round)
    ensures InOrder(RoundMessages(r))
    ensures GoesOn(r) ==> WireValid(RoundMessages(r))
    ensures RoundStop(r) == EndTurn && !GoesOn(r) ==> WireValid(RoundMessages(r))
  {
    hide InOrder, WireValid, AssistantMessage, Results;
    NothingIsValid();
    ValidIsInOrder([]);
    if Replied(r) {
      TurnIsInOrder(RoundReply(r), Results(RoundReply(r).calls, r.outcomes));
    }
  }

  lemma {:induction false} TranscriptInOrder(rounds: seq<Round>)
    ensures InOrder(Transcript(rounds))
    ensures StopOf(rounds) == EndTurn ==> WireValid(Transcript(rounds))
    decreases |rounds|
  {
    hide InOrder, WireValid, RoundMessages, GoesOn, RoundStop;
    NothingIsValid();
    ValidIsInOrder([]);
    if rounds != [] {
      RoundInOrder(rounds[0]);
      if GoesOn(rounds[0]) {
        TranscriptInOrder(rounds[1..]);
        InOrderConcat(RoundMessages(rounds[0]), Transcript(rounds[1..]));
        if StopOf(rounds) == EndTurn {
          WireValidConcat(RoundMessages(rounds[0]), Transcript(rounds[1..]));
        }
      } else {
        assert RoundMessages(rounds[0]) + [] == RoundMessages(rounds[0]);
      }
    }
  }

  /** The first `n` rounds all called tools and got all results. */
  predicate AllGoOn(rounds: seq<Round>, n: nat) {
    n <= |rounds| && forall j :: 0 <= j < n ==> GoesOn(rounds[j])
  }

  lemma AllGoOnTail(rounds: seq<Round>, n: nat)
    requires 0 < n && AllGoOn(rounds, n)
    ensures GoesOn(rounds[0]) && AllGoOn(rounds[1..], n - 1) && rounds[..n][1..] == rounds[1..][..n - 1]
    ensures rounds[..n][0] == rounds[0]
  {
    hide GoesOn;
  }

  lemma AllGoOnFront(rounds: seq<Round>, n: nat)
    requires rounds != [] && GoesOn(rounds[0]) && AllGoOn(rounds[1..], n)
    ensures AllGoOn(rounds, n + 1)
  {
    hide GoesOn;
    forall j | 0 <= j < n + 1 ensures GoesOn(rounds[j]) {
      assert j > 0 ==> rounds[1..][j - 1] == rounds[j];
    }
  }

  lemma {:induction false} FinishedRoundsAreValid(rounds: seq<Round>, n: nat)
    requires AllGoOn(rounds, n)
    ensures WireValid(Transcript(rounds[..n]))
    decreases n
  {
    hide WireValid, RoundMessages, GoesOn;
    if n == 0 {
      NothingIsValid();
      assert rounds[..0] == [];
    } else {
      AllGoOnTail(rounds, n);
      RoundInOrder(rounds[0]);
      FinishedRoundsAreValid(rounds[1..], n - 1);
      WireValidConcat(RoundMessages(rounds[0]), Transcript(rounds[1..][..n - 1]));
    }
  }

  /**
   * The `i`-th request of a turn: all earlier calls of the turn have exactly one result each, in call order, in the
   * history it is built from, and it may use tools only if it is the first.
   */
  lemma {:induction false} RequestSees(ms: seq<Message>, summary: Option<string>, system: Message,
                                       rounds: seq<Round>, offersTools: bool, i: nat)
    requires i < |RequestsOf(ms, summary, system, rounds, offersTools)|
    ensures AllGoOn(rounds, i)
    ensures var request := RequestsOf(ms, summary, system, rounds, offersTools)[i];
            && request.messages == BuildMessages(ContextOf(summary, ms + Transcript(rounds[..i])), system)
            && request.offersTools == (i == 0 && offersTools)
    decreases i
  {
    hide BuildMessages, RoundMessages, GoesOn, Transcript, ContextOf;
    if i == 0 {
      NoneGoOn(rounds);
      TranscriptFront(ms, rounds, 0);
    } else {
      LaterRequest(ms, summary, system, rounds, offersTools, i);
      RequestSees(ms + RoundMessages(rounds[0]), summary, system, rounds[1..], false, i - 1);
      AllGoOnFront(rounds, i - 1);
      TranscriptFront(ms, rounds, i);
    }
  }

  lemma LaterRequest(ms: seq<Message>, summary: Option<string>, system: Message, rounds: seq<Round>, offersTools: bool,
                     i: nat)
    requires 0 < i < |RequestsOf(ms, summary, system, rounds, offersTools)|
    ensures rounds != [] && GoesOn(rounds[0])
    ensures var rest := RequestsOf(ms + RoundMessages(rounds[0]), summary, system, rounds[1..], false);
            i - 1 < |rest| && RequestsOf(ms, summary, system, rounds, offersTools)[i] == rest[i - 1]
  {
    hide BuildMessages, RoundMessages, GoesOn, ContextOf;
  }

  /** What finished rounds store, put behind a history. */
  lemma TranscriptFront(ms: seq<Message>, rounds: seq<Round>, i: nat)
    requires AllGoOn(rounds, i)
    ensures i == 0 ==> ms + Transcript(rounds[..0]) == ms
    ensures i > 0 ==> ms + Transcript(rounds[..i]) == ms + RoundMessages(rounds[0]) + Transcript(rounds[1..][..i - 1])
  {
    hide RoundMessages, GoesOn;
    if i == 0 {
      assert rounds[..0] == [] && ms + [] == ms;
    } else {
      AllGoOnTail(rounds, i);
      Regroup(ms, RoundMessages(rounds[0]), Transcript(rounds[1..][..i - 1]));
    }
  }

  /** As many requests as there are rounds up to the one the turn stops in. */
  lemma {:induction false} RequestsReach(ms: seq<Message>, summary: Option<string>, system: Message, rounds: seq<Round>,
                                         offersTools: bool, i: nat)
    requires i < |rounds|
    ensures AllGoOn(rounds, i) <==> i < |RequestsOf(ms, summary, system, rounds, offersTools)|
    decreases i
  {
    hide BuildMessages, RoundMessages, GoesOn;
    if i == 0 {
      NoneGoOn(rounds);
    } else {
      RequestsReach(ms + RoundMessages(rounds[0]), summary, system, rounds[1..], false, i - 1);
      if GoesOn(rounds[0]) && AllGoOn(rounds[1..], i - 1) {
        AllGoOnFront(rounds, i - 1);
      }
      if AllGoOn(rounds, i) {
        AllGoOnTail(rounds, i);
      }
    }
  }

  lemma NoneGoOn(rounds: seq<Round>)
    ensures AllGoOn(rounds, 0)
  {
  }

  /** Every request of every turn is accepted by the API, whatever was stored before it. */
  lemma EveryRequestIsAcceptable(ms: seq<Message>, summary: Option<string>, system: Message,
                                 rounds: seq<Round>, offersTools: bool, i: nat)
    requires system.role == "system" && i < |RequestsOf(ms, summary, system, rounds, offersTools)|
    ensures Acceptable(RequestsOf(ms, summary, system, rounds, offersTools)[i].messages)
    ensures AllGoOn(rounds, i) && WireValid(Transcript(rounds[..i]))
  {
    hide BuildMessages, Transcript, RequestsOf, Acceptable, GoesOn, WireValid;
    RequestSees(ms, summary, system, rounds, offersTools, i);
    RequestIsAcceptable(ContextOf(summary, ms + Transcript(rounds[..i])), system);
    FinishedRoundsAreValid(rounds, i);
  }

  /** The calls of every reply have distinct ids. */
  predicate DistinctCalls(rounds: seq<Round>) {
    forall k :: 0 <= k < |rounds| ==> Replied(rounds[k]) ==> Distinct(Ids(RoundReply(rounds[k]).calls))
  }

  lemma RoundDistinct(r: Round)
    requires Replied(r) ==> Distinct(Ids(RoundReply(r).calls))
    ensures DistinctIds(RoundMessages(r))
  {
    hide Results, AssistantMessage;
    if Replied(r) {
      ReplyAsks(RoundReply(r));
      var ms := RoundMessages(r);
      forall k | 0 <= k < |ms| ensures Distinct(ToolIds(ms[k])) {
        if k > 0 {
          assert ms[k] == Results(RoundReply(r).calls, r.outcomes)[k - 1];
        }
      }
    }
  }

  lemma DistinctConcat(a: seq<Message>, b: seq<Message>)
    requires DistinctIds(a) && DistinctIds(b)
    ensures DistinctIds(a + b)
  {
    hide Distinct, ToolIds;
  }

  lemma {:induction false} TranscriptDistinct(rounds: seq<Round>)
    requires DistinctCalls(rounds)
    ensures DistinctIds(Transcript(rounds))
    decreases |rounds|
  {
    hide GoesOn, RoundMessages, ToolIds, Distinct, Replied;
    if rounds != [] {
      RoundDistinct(rounds[0]);
      assert forall k :: 0 <= k < |rounds[1..]| ==> rounds[1..][k] == rounds[k + 1];
      TranscriptDistinct(rounds[1..]);
      hide DistinctIds;
      if GoesOn(rounds[0]) {
        DistinctConcat(RoundMessages(rounds[0]), Transcript(rounds[1..]));
      } else {
        assert RoundMessages(rounds[0]) + [] == RoundMessages(rounds[0]);
      }
    }
  }

  /**
   * Wherever a turn stops, the session stays healthy, and the next request repeats what was stored before the turn
   * and, after it, this turn with a made-up result for each call that got none.
   */
  lemma TurnLeavesHealthy(ms: seq<Message>, userText: string, rounds: seq<Round>, summary: Option<string>)
    requires Healthy(ms) && DistinctCalls(rounds)
    ensures var turn := [Plain("user", userText)] + Transcript(rounds);
            && Healthy(ms + turn)
            && InOrder(turn)
            && Prepared(ContextOf(summary, ms + turn)) == AddReasoning(ContextOf(summary, Told(ms) + Filled(turn)))
            && (StopOf(rounds) == EndTurn ==> Filled(turn) == turn)
  {
    hide Transcript, DistinctCalls, InOrder, Filled, Told, AddReasoning, DistinctIds, WireValid, StopOf;
    var user := Plain("user", userText);
    var turn := [user] + Transcript(rounds);
    TranscriptInOrder(rounds);
    PlainInOrder(user);
    InOrderConcat([user], Transcript(rounds));
    TranscriptDistinct(rounds);
    OneDistinct(user);
    DistinctConcat([user], Transcript(rounds));
    StoredConcat(ms, turn);
    DistinctConcat(ms, turn);
    RepairOfContext(summary, ms + turn);
    ToldConcat(ms, turn);
    if StopOf(rounds) == EndTurn {
      PlainIsValid(user);
      WireValidConcat([user], Transcript(rounds));
      FilledMeans(turn);
    }
  }

  lemma OneDistinct(m: Message)
    requires ToolIds(m) == []
    ensures DistinctIds([m])
  {
  }
}
