/**
 * The terminal's tool-calling loop, with computer use: several tool rounds, screenshots attached as user messages and
 * pruned again. What the model, the user and the tools do is a script, one entry per request; a script that ends
 * early stands for a loop that was aborted or is waiting at that point.
 */
module TuiTurn {
  import opened Sequences
  import opened Wrappers
  import opened Messages
  import opened RepairLaws
  import opened Interrupted
  import opened Requests
  import opened Sessions
  import opened SessionLaws
  import opened TuiTools
  import opened Turns

  /** `enabled` is the computer-use switch as read after the round, `caption` the text put on its last screenshot. */
  datatype Round = Round(start: Start, outcomes: seq<Outcome>, caption: string, enabled: bool)

  datatype Config = Config(system: Message, keepScreenshots: nat, maxRounds: nat, guards: Guards)

  /** The script of a round: the guards of its calls decide on the outcomes. */
  datatype Script = Script(start: Start, facts: seq<Facts>, caption: string, enabled: bool)

  /** A request, and what the session held when it was sent. */
  datatype Sent = Sent(messages: seq<Message>, offersTools: bool, stored: seq<Message>)

  datatype Log = Log(messages: seq<Message>, sent: seq<Sent>)

  /** One result per call, in call order, as far as the script goes. */
  function Results(calls: seq<ToolCall>, outcomes: seq<Outcome>): (r: seq<Message>)
    ensures ResultsFor(r, calls)
    ensures |r| == if |outcomes| < |calls| then |outcomes| else |calls|
  {
    seq(if |outcomes| < |calls| then |outcomes| else |calls|,
        k requires 0 <= k < |calls| && k < |outcomes| => ToolResult(calls[k].id, outcomes[k].text))
  }

  /** The last screenshot taken by the first `n` calls. */
  function LastPicture(outcomes: seq<Outcome>, n: nat): Option<Image>
    requires n <= |outcomes|
  {
    if n == 0 then None
    else
      var p := outcomes[n - 1].image;
      if p.Some? then p else LastPicture(outcomes, n - 1)
  }

  function Screenshot(caption: string, image: Image): Message {
    Plain("user", caption).(images := [image])
  }

  predicate Replied(r: Round) {
    r.start.Started? && Delivered(r.start.chunks) == |r.start.chunks|
  }

  function CallsIn(r: Round): seq<ToolCall>
    requires Replied(r)
  {
    ReplyOf(r.start.chunks).calls
  }

  /** The round called tools and has all results. */
  predicate GoesOn(r: Round) {
    Replied(r) && CallsIn(r) != [] && |r.outcomes| >= |CallsIn(r)|
  }

  function PictureMessage(r: Round): seq<Message>
    requires GoesOn(r)
  {
    var p := LastPicture(r.outcomes, |CallsIn(r)|);
    if p.Some? then [Screenshot(r.caption, p.value)] else []
  }

  /** What one round stores. */
  function RoundMessages(r: Round): seq<Message> {
    if !Replied(r) then []
    else
      [AssistantMessage(ReplyOf(r.start.chunks))] + Results(CallsIn(r), r.outcomes)
      + if GoesOn(r) then PictureMessage(r) else []
  }

  // ---- What is counted ----

  function OutcomeTokens(o: Outcome, count: string -> nat): nat {
    if o.counted then count(o.text) else 0
  }

  function ResultTokens(outcomes: seq<Outcome>, n: nat, count: string -> nat): nat
    requires n <= |outcomes|
  {
    if n == 0 then 0 else ResultTokens(outcomes, n - 1, count) + OutcomeTokens(outcomes[n - 1], count)
  }

  /** A screenshot counts as its caption and 1024 more. */
  function RoundTokens(r: Round, count: string -> nat): nat {
    if !Replied(r) then 0
    else
      var reply := ReplyOf(r.start.chunks);
      count(reply.content) + count(reply.reasoning)
      + ResultTokens(r.outcomes, |Results(reply.calls, r.outcomes)|, count)
      + if GoesOn(r) && PictureMessage(r) != [] then count(r.caption) + 1024 else 0
  }

  function LoopTokens(rounds: seq<Round>, count: string -> nat): nat
    decreases |rounds|
  {
    if rounds == [] then 0
    else RoundTokens(rounds[0], count) + if GoesOn(rounds[0]) then LoopTokens(rounds[1..], count) else 0
  }

  function Limit(c: Config): nat {
    if c.maxRounds == 0 then 1 else c.maxRounds
  }

  /** Whether the request after round number `n` offers tools again. */
  predicate OffersAgain(c: Config, n: nat, r: Round) {
    r.enabled && n + 1 < Limit(c)
  }

  function NextNumber(c: Config, n: nat, r: Round): nat {
    if OffersAgain(c, n, r) then n + 1 else n
  }

  /** What the session holds when a request is sent: before all but the first, old screenshots are pruned. */
  function Held(c: Config, ms: seq<Message>, opening: Option<seq<Message>>): seq<Message> {
    if opening.Some? then ms else Pruned(ms, c.keepScreenshots)
  }

  function SentFirst(c: Config, summary: Option<string>, ms: seq<Message>, opening: Option<seq<Message>>,
                     offers: bool): Sent {
    var held := Held(c, ms, opening);
    Sent(if opening.Some? then opening.value else BuildMessages(ContextOf(summary, held), c.system), offers, held)
  }

  /** The loop from a request on; `opening` is the ready-made conversation of the first one. */
  function Loop(c: Config, summary: Option<string>, ms: seq<Message>, opening: Option<seq<Message>>, offers: bool,
                n: nat, rounds: seq<Round>): Log
    decreases |rounds|
  {
    if rounds == [] then Log(ms, [])
    else
      var sent := SentFirst(c, summary, ms, opening, offers);
      var after := sent.stored + RoundMessages(rounds[0]);
      if GoesOn(rounds[0]) then
        var rest := Loop(c, summary, after, None, OffersAgain(c, n, rounds[0]), NextNumber(c, n, rounds[0]), rounds[1..]);
        Log(rest.messages, [sent] + rest.sent)
      else Log(after, [sent])
  }

  // ---- What the guards decide ----

  /** A round as it turns out, what was asked and done in it, and the trust it leaves. */
  datatype Decided = Decided(round: Round, acts: seq<Act>, trust: Trust)

  function DecidedRound(g: Guards, offered: bool, t: Trust, s: Script): Decided {
    var steps := if s.start.Started? && Delivered(s.start.chunks) == |s.start.chunks|
                 then ToolSteps(g, offered, t, ReplyOf(s.start.chunks).calls, s.facts)
                 else Steps([], [], t);
    Decided(Round(s.start, steps.outcomes, s.caption, s.enabled), steps.acts, steps.trust)
  }

  /** All rounds of a loop, with the acts of each. */
  datatype Course = Course(rounds: seq<Round>, acts: seq<seq<Act>>, trust: Trust)

  function CourseOf(c: Config, offers: bool, n: nat, t: Trust, script: seq<Script>): Course
    decreases |script|
  {
    if script == [] then Course([], [], t)
    else
      var d := DecidedRound(c.guards, offers, t, script[0]);
      if GoesOn(d.round) then
        var rest := CourseOf(c, OffersAgain(c, n, d.round), NextNumber(c, n, d.round), d.trust, script[1..]);
        Course([d.round] + rest.rounds, [d.acts] + rest.acts, rest.trust)
      else Course([d.round], [d.acts], d.trust)
  }

  method RunToolCallingLoop(session: Session, consent: Consent, c: Config, opening: seq<Message>, script: seq<Script>,
                            countTokens: string -> nat)
    returns (sent: seq<Sent>, acts: seq<seq<Act>>)
    modifies session, consent
    ensures session.summary == old(session.summary)
    ensures var course := CourseOf(c, true, 0, old(consent.State()), script);
            && acts == course.acts && consent.State() == course.trust
            && session.tokenCount == old(session.tokenCount) + LoopTokens(course.rounds, countTokens)
            && Log(session.messages, sent)
               == Loop(c, session.summary, old(session.messages), Some(opening), true, 0, course.rounds)
  {
    hide Loop, RoundMessages, GoesOn, BuildMessages, Pruned, Apply, ContextOf, Prepared, Retain, Limit, CourseOf,
      DecidedRound, LoopTokens, RoundTokens;
    ghost var course := CourseOf(c, true, 0, consent.State(), script);
    ghost var whole := Loop(c, session.summary, session.messages, Some(opening), true, 0, course.rounds);
    var messages := opening;
    var phase, round := 1, 0;
    var first := true;
    sent, acts := [], [];
    var i := 0;
    NothingSent(c, session.summary, session.messages, Some(opening), course);
    assert script[0..] == script;
    while i < |script|
      invariant 0 <= i <= |script|
      invariant session.summary == old(session.summary)
      invariant acts + CourseOf(c, phase == 1, round, consent.State(), script[i..]).acts == course.acts
      invariant session.tokenCount
                + LoopTokens(CourseOf(c, phase == 1, round, consent.State(), script[i..]).rounds, countTokens)
             == old(session.tokenCount) + LoopTokens(course.rounds, countTokens)
      invariant CourseOf(c, phase == 1, round, consent.State(), script[i..]).trust == course.trust
      invariant Ahead(c, session.summary, session.messages, if first then Some(opening) else None, phase == 1, round,
                      CourseOf(c, phase == 1, round, consent.State(), script[i..]).rounds, sent) == whole
      invariant first ==> messages == opening
    {
      NextCourse(c, phase == 1, round, consent.State(), script, i, acts);
      DecidedIsEnabled(c.guards, phase == 1, consent.State(), script[i]);
      NextRound(c, session.summary, session.messages, if first then Some(opening) else None, phase == 1, round,
                CourseOf(c, phase == 1, round, consent.State(), script[i..]).rounds, sent);
      NextTokens(CourseOf(c, phase == 1, round, consent.State(), script[i..]).rounds, countTokens);
      if first {
        first := false;
      } else {
        session.PruneImages(c.keepScreenshots);
        messages := BuildRequest(session, c.system);
      }
      sent := sent + [Sent(messages, phase == 1, session.messages)];
      var next, done := RunRound(session, consent, c.guards, phase == 1, script[i], countTokens);
      acts := acts + [done];
      if !next {
        return;
      }
      if script[i].enabled && round + 1 < Limit(c) {
        round := round + 1;
        phase := 1;
      } else {
        phase := 2;
      }
      i := i + 1;
    }
    NoScript(c, session.summary, session.messages, if first then Some(opening) else None, phase == 1, round,
             consent.State(), script, sent, acts);
    NoTokens(c, phase == 1, round, consent.State(), script, countTokens);
  }

  lemma NextTokens(rounds: seq<Round>, count: string -> nat)
    requires rounds != []
    ensures LoopTokens(rounds, count)
         == RoundTokens(rounds[0], count) + if GoesOn(rounds[0]) then LoopTokens(rounds[1..], count) else 0
  {
    hide RoundTokens, GoesOn;
  }

  lemma NoTokens(c: Config, offers: bool, n: nat, t: Trust, script: seq<Script>, count: string -> nat)
    ensures LoopTokens(CourseOf(c, offers, n, t, script[|script|..]).rounds, count) == 0
  {
  }

  lemma DecidedIsEnabled(g: Guards, offered: bool, t: Trust, s: Script)
    ensures DecidedRound(g, offered, t, s).round.enabled == s.enabled
  {
  }

  lemma NothingSent(c: Config, summary: Option<string>, ms: seq<Message>, opening: Option<seq<Message>>, course: Course)
    ensures Ahead(c, summary, ms, opening, true, 0, course.rounds, [])
         == Loop(c, summary, ms, opening, true, 0, course.rounds)
    ensures [] + course.acts == course.acts
  {
    hide Loop;
    var log := Loop(c, summary, ms, opening, true, 0, course.rounds);
    assert [] + log.sent == log.sent;
  }

  lemma NoScript(c: Config, summary: Option<string>, ms: seq<Message>, opening: Option<seq<Message>>,
                 offers: bool, n: nat, t: Trust, script: seq<Script>, sent: seq<Sent>, acts: seq<seq<Act>>)
    ensures var rest := CourseOf(c, offers, n, t, script[|script|..]);
            && Ahead(c, summary, ms, opening, offers, n, rest.rounds, sent) == Log(ms, sent)
            && acts + rest.acts == acts && rest.trust == t
  {
    assert script[|script|..] == [];
    assert sent + [] == sent && acts + [] == acts;
  }

  lemma NextCourse(c: Config, offers: bool, n: nat, t: Trust, script: seq<Script>, i: nat, before: seq<seq<Act>>)
    requires i < |script|
    ensures var d := DecidedRound(c.guards, offers, t, script[i]);
            var now := CourseOf(c, offers, n, t, script[i..]);
            if GoesOn(d.round) then
              var rest := CourseOf(c, OffersAgain(c, n, d.round), NextNumber(c, n, d.round), d.trust, script[i + 1..]);
              && now.rounds == [d.round] + rest.rounds && now.rounds[1..] == rest.rounds
              && before + now.acts == before + [d.acts] + rest.acts && now.trust == rest.trust
            else now == Course([d.round], [d.acts], d.trust)
  {
    hide GoesOn, DecidedRound, OffersAgain, NextNumber;
    assert script[i..][0] == script[i] && script[i..][1..] == script[i + 1..];
    var d := DecidedRound(c.guards, offers, t, script[i]);
    if GoesOn(d.round) {
      var rest := CourseOf(c, OffersAgain(c, n, d.round), NextNumber(c, n, d.round), d.trust, script[i + 1..]);
      Regroup(before, [d.acts], rest.acts);
      assert ([d.round] + rest.rounds)[1..] == rest.rounds;
    }
  }

  /** What the whole loop comes to, given what was sent so far. */
  function Ahead(c: Config, summary: Option<string>, ms: seq<Message>, opening: Option<seq<Message>>, offers: bool,
                 n: nat, rounds: seq<Round>, sent: seq<Sent>): Log {
    var rest := Loop(c, summary, ms, opening, offers, n, rounds);
    Log(rest.messages, sent + rest.sent)
  }

  lemma NextRound(c: Config, summary: Option<string>, ms: seq<Message>,
                  opening: Option<seq<Message>>, offers: bool, n: nat, rounds: seq<Round>, before: seq<Sent>)
    requires rounds != []
    ensures var sent := SentFirst(c, summary, ms, opening, offers);
            var after := sent.stored + RoundMessages(rounds[0]);
            Ahead(c, summary, ms, opening, offers, n, rounds, before)
            == if GoesOn(rounds[0])
                 then Ahead(c, summary, after, None, OffersAgain(c, n, rounds[0]), NextNumber(c, n, rounds[0]),
                            rounds[1..], before + [sent])
               else Log(after, before + [sent])
  {
    hide GoesOn, RoundMessages, SentFirst, OffersAgain, NextNumber;
    var sent := SentFirst(c, summary, ms, opening, offers);
    var rest := Loop(c, summary, sent.stored + RoundMessages(rounds[0]), None, OffersAgain(c, n, rounds[0]),
                     NextNumber(c, n, rounds[0]), rounds[1..]);
    Regroup(before, [sent], rest.sent);
  }

  /** A later request of the loop is a request of the loop that follows the first round. */
  lemma LaterSent(c: Config, summary: Option<string>, ms: seq<Message>,
                  opening: Option<seq<Message>>, offers: bool, n: nat, rounds: seq<Round>, k: nat)
    requires 0 < k < |Loop(c, summary, ms, opening, offers, n, rounds).sent|
    ensures rounds != [] && GoesOn(rounds[0])
    ensures var rest := Loop(c, summary, Held(c, ms, opening) + RoundMessages(rounds[0]), None,
                             OffersAgain(c, n, rounds[0]), NextNumber(c, n, rounds[0]), rounds[1..]);
            && k - 1 < |rest.sent|
            && Loop(c, summary, ms, opening, offers, n, rounds).sent[k] == rest.sent[k - 1]
  {
    hide GoesOn, RoundMessages, OffersAgain, NextNumber, BuildMessages, ContextOf, Held;
  }

  lemma FirstSent(c: Config, summary: Option<string>, ms: seq<Message>,
                  opening: Option<seq<Message>>, offers: bool, n: nat, rounds: seq<Round>)
    requires Loop(c, summary, ms, opening, offers, n, rounds).sent != []
    ensures rounds != []
    ensures Loop(c, summary, ms, opening, offers, n, rounds).sent[0] == SentFirst(c, summary, ms, opening, offers)
  {
    hide GoesOn, RoundMessages, OffersAgain, NextNumber, SentFirst;
  }

  /** One reply and its tools; `next` says whether the model is asked again. */
  method RunRound(session: Session, consent: Consent, g: Guards, offered: bool, script: Script,
                  countTokens: string -> nat)
    returns (next: bool, acts: seq<Act>)
    modifies session, consent
    ensures session.summary == old(session.summary)
    ensures var d := DecidedRound(g, offered, old(consent.State()), script);
            && session.messages == old(session.messages) + RoundMessages(d.round)
            && session.tokenCount == old(session.tokenCount) + RoundTokens(d.round, countTokens)
            && (next <==> GoesOn(d.round))
            && acts == d.acts && consent.State() == d.trust
  {
    hide AssistantMessage, Results, LastPicture, Apply, ToolSteps, ResultTokens;
    assert old(session.messages) + [] == old(session.messages);
    if !script.start.Started? {
      return false, [];
    }
    var end, reply := ReadStream(script.start.chunks);
    if end != Complete {
      return false, [];
    }
    ghost var d := DecidedRound(g, offered, consent.State(), script);
    var assistant := AssistantMessage(reply);
    session.PushMessage(assistant, countTokens(reply.content) + countTokens(reply.reasoning));
    if reply.calls == [] {
      NoCalls(g, offered, consent.State(), script.facts);
      NoResults(d.round.outcomes, countTokens);
      assert [assistant] + [] + [] == [assistant];
      return false, [];
    }
    var picture;
    next, picture, acts := RunTools(session, consent, g, offered, reply.calls, script.facts, countTokens);
    var results := Results(reply.calls, d.round.outcomes);
    Regroup(old(session.messages), [assistant], results);
    if !next {
      assert [assistant] + results + [] == [assistant] + results;
      return;
    }
    KeepPicture(session, script.caption, picture, countTokens);
    Regroup(old(session.messages), [assistant] + results, PictureMessage(d.round));
  }

  /** The newest screenshot of a round, if it took any, is shown to the model as a message of the user. */
  method KeepPicture(session: Session, caption: string, picture: Option<Image>, countTokens: string -> nat)
    modifies session
    ensures session.summary == old(session.summary)
    ensures session.messages
         == old(session.messages) + if picture.Some? then [Screenshot(caption, picture.value)] else []
    ensures session.tokenCount == old(session.tokenCount) + if picture.Some? then countTokens(caption) + 1024 else 0
  {
    hide Apply;
    if picture.Some? {
      session.PushMessage(Screenshot(caption, picture.value), countTokens(caption) + 1024);
    }
  }

  lemma NoCalls(g: Guards, offered: bool, t: Trust, facts: seq<Facts>)
    ensures ToolSteps(g, offered, t, [], facts) == Steps([], [], t)
  {
  }

  lemma NoResults(outcomes: seq<Outcome>, count: string -> nat)
    ensures Results([], outcomes) == [] && ResultTokens(outcomes, 0, count) == 0
  {
  }

  /** The tool calls of one reply, one by one, each with one result on every branch. */
  method RunTools(session: Session, consent: Consent, g: Guards, offered: bool, calls: seq<ToolCall>, facts: seq<Facts>,
                  countTokens: string -> nat)
    returns (done: bool, picture: Option<Image>, acts: seq<Act>)
    modifies session, consent
    ensures session.summary == old(session.summary)
    ensures var steps := ToolSteps(g, offered, old(consent.State()), calls, facts);
            && session.messages == old(session.messages) + Results(calls, steps.outcomes)
            && session.tokenCount
               == old(session.tokenCount)
                  + ResultTokens(steps.outcomes, |Results(calls, steps.outcomes)|, countTokens)
            && (done <==> |steps.outcomes| >= |calls|)
            && (done ==> picture == LastPicture(steps.outcomes, |calls|))
            && acts == steps.acts && consent.State() == steps.trust
  {
    hide Apply, LastPicture, ToolStep, ToolSteps, Behind, Results, ResultTokens;
    picture, acts := None, [];
    ghost var steps := ToolSteps(g, offered, consent.State(), calls, facts);
    ghost var outcomes: seq<Outcome> := [];
    FirstSteps(calls, facts, steps);
    NoPicture([]);
    NoResults([], countTokens);
    var k := 0;
    while k < |calls|
      invariant 0 <= k <= |calls| && k <= |facts| && |outcomes| == k
      invariant session.summary == old(session.summary)
      invariant session.messages == old(session.messages) + Results(calls, outcomes)
      invariant session.tokenCount == old(session.tokenCount) + ResultTokens(outcomes, k, countTokens)
      invariant Behind(outcomes, acts, ToolSteps(g, offered, consent.State(), calls[k..], facts[k..])) == steps
      invariant picture == LastPicture(outcomes, k)
    {
      NextSteps(g, offered, consent.State(), calls, facts, k, outcomes, acts);
      if k == |facts| {
        return false, None, acts;
      }
      var outcome, more := consent.RunTool(g, offered, calls[k].name, facts[k]);
      NextResult(calls, outcomes, outcome);
      Regroup(old(session.messages), Results(calls, outcomes), [ToolResult(calls[k].id, outcome.text)]);
      session.PushMessage(ToolResult(calls[k].id, outcome.text), if outcome.counted then countTokens(outcome.text) else 0);
      NextPicture(outcomes, outcome);
      MoreTokens(outcomes, outcome, countTokens);
      outcomes := outcomes + [outcome];
      acts := acts + more;
      if outcome.image.Some? {
        picture := outcome.image;
      }
      k := k + 1;
    }
    LastSteps(g, offered, consent.State(), calls, facts, outcomes, acts);
    done := true;
  }

  /** Steps put behind others. */
  function Behind(outcomes: seq<Outcome>, acts: seq<Act>, rest: Steps): Steps {
    Steps(outcomes + rest.outcomes, acts + rest.acts, rest.trust)
  }

  lemma FirstSteps(calls: seq<ToolCall>, facts: seq<Facts>, steps: Steps)
    ensures calls[0..] == calls && facts[0..] == facts && Behind([], [], steps) == steps
    ensures Results(calls, []) == [] && forall ms: seq<Message> :: ms + [] == ms
  {
  }

  lemma LastSteps(g: Guards, offered: bool, t: Trust, calls: seq<ToolCall>, facts: seq<Facts>,
                  outcomes: seq<Outcome>, acts: seq<Act>)
    requires |calls| <= |facts|
    ensures Behind(outcomes, acts, ToolSteps(g, offered, t, calls[|calls|..], facts[|calls|..])) == Steps(outcomes, acts, t)
  {
    assert calls[|calls|..] == [];
    assert outcomes + [] == outcomes && acts + [] == acts;
  }

  lemma NextSteps(g: Guards, offered: bool, t: Trust, calls: seq<ToolCall>, facts: seq<Facts>, k: nat,
                  outcomes: seq<Outcome>, acts: seq<Act>)
    requires k < |calls| && k <= |facts|
    ensures var now := Behind(outcomes, acts, ToolSteps(g, offered, t, calls[k..], facts[k..]));
            if k == |facts| then now == Steps(outcomes, acts, t)
            else
              var s := ToolStep(g, offered, t, calls[k].name, facts[k]);
              now == Behind(outcomes + [s.outcome], acts + s.acts,
                            ToolSteps(g, offered, s.trust, calls[k + 1..], facts[k + 1..]))
  {
    hide ToolStep;
    var cs, fs := calls[k..], facts[k..];
    assert cs[0] == calls[k] && cs[1..] == calls[k + 1..];
    if k < |facts| {
      assert fs[0] == facts[k] && fs[1..] == facts[k + 1..];
      var s := ToolStep(g, offered, t, calls[k].name, facts[k]);
      var rest := ToolSteps(g, offered, s.trust, calls[k + 1..], facts[k + 1..]);
      Regroup(outcomes, [s.outcome], rest.outcomes);
      Regroup(acts, s.acts, rest.acts);
    } else {
      assert fs == [];
      assert outcomes + [] == outcomes && acts + [] == acts;
    }
  }

  lemma NextResult(calls: seq<ToolCall>, outcomes: seq<Outcome>, o: Outcome)
    requires |outcomes| < |calls|
    ensures Results(calls, outcomes + [o]) == Results(calls, outcomes) + [ToolResult(calls[|outcomes|].id, o.text)]
  {
  }

  lemma MoreTokens(outcomes: seq<Outcome>, o: Outcome, count: string -> nat)
    ensures ResultTokens(outcomes + [o], |outcomes| + 1, count)
         == ResultTokens(outcomes, |outcomes|, count) + OutcomeTokens(o, count)
  {
    TokensOfFirst(outcomes, [o], |outcomes|, count);
  }

  lemma {:induction false} TokensOfFirst(outcomes: seq<Outcome>, more: seq<Outcome>, n: nat, count: string -> nat)
    requires n <= |outcomes|
    ensures ResultTokens(outcomes + more, n, count) == ResultTokens(outcomes, n, count)
    decreases n
  {
    if n > 0 {
      TokensOfFirst(outcomes, more, n - 1, count);
    }
  }

  lemma NoPicture(outcomes: seq<Outcome>)
    ensures LastPicture(outcomes, 0) == None
  {
  }

  lemma NextPicture(outcomes: seq<Outcome>, o: Outcome)
    ensures LastPicture(outcomes + [o], |outcomes| + 1)
         == if o.image.Some? then o.image else LastPicture(outcomes, |outcomes|)
  {
    PictureOfFirst(outcomes, [o], |outcomes|);
  }

  lemma {:induction false} PictureOfFirst(outcomes: seq<Outcome>, more: seq<Outcome>, n: nat)
    requires n <= |outcomes|
    ensures LastPicture(outcomes + more, n) == LastPicture(outcomes, n)
    decreases n
  {
    if n > 0 {
      PictureOfFirst(outcomes, more, n - 1);
    }
  }

  // ---- What the guards keep over a whole loop ----

  /**
   * Over every loop: no dangerous command runs and no action that is not read-only is performed without the leave the
   * settings require, trust withdrawn by the user included, and nobody is asked without need.
   */
  lemma {:induction false} LoopIsAllowed(c: Config, offers: bool, n: nat, t: Trust, script: seq<Script>)
    ensures var course := CourseOf(c, offers, n, t, script);
            && AllAllowed(c.guards, t, Flat(course.acts))
            && course.trust == TrustAfter(t, Flat(course.acts))
    decreases |script|
  {
    hide AllAllowed, TrustAfter, GoesOn, OffersAgain, NextNumber, DecidedRound;
    NoActs(c.guards, t);
    if script != [] {
      var d := DecidedRound(c.guards, offers, t, script[0]);
      RoundIsAllowed(c.guards, offers, t, script[0]);
      if GoesOn(d.round) {
        var rest := CourseOf(c, OffersAgain(c, n, d.round), NextNumber(c, n, d.round), d.trust, script[1..]);
        LoopIsAllowed(c, OffersAgain(c, n, d.round), NextNumber(c, n, d.round), d.trust, script[1..]);
        assert ([d.acts] + rest.acts)[1..] == rest.acts;
        AllAllowedConcat(c.guards, t, d.acts, Flat(rest.acts));
        TrustAfterConcat(t, d.acts, Flat(rest.acts));
      } else {
        assert [d.acts][1..] == [] && d.acts + [] == d.acts;
      }
    }
  }

  /**
   * Over every loop: a dangerous command that needs the user's yes runs without it if and only if the user answered some
   * question about a command with something that is neither yes nor no.
   */
  lemma CommandsNeedYesIff(c: Config, offers: bool, n: nat, t: Trust, script: seq<Script>)
    ensures var acts := Flat(CourseOf(c, offers, n, t, script).acts);
            (exists k :: 0 <= k < |acts| && WithoutYes(c.guards, t, acts, k))
            <==> (exists k :: 0 <= k < |acts| && Unclearly(acts, k))
  {
    hide CourseOf, Flat, AllAllowed, Followed, WithoutYes, Unclearly, TrustAfter;
    LoopIsAllowed(c, offers, n, t, script);
    LoopIsFollowed(c, offers, n, t, script);
    WithoutYesIff(c.guards, t, Flat(CourseOf(c, offers, n, t, script).acts));
  }

  lemma {:induction false} LoopIsFollowed(c: Config, offers: bool, n: nat, t: Trust, script: seq<Script>)
    ensures Followed(Flat(CourseOf(c, offers, n, t, script).acts))
    decreases |script|
  {
    hide Followed, GoesOn, OffersAgain, NextNumber, DecidedRound;
    NothingFollowed();
    if script != [] {
      var d := DecidedRound(c.guards, offers, t, script[0]);
      RoundIsFollowed(c.guards, offers, t, script[0]);
      if GoesOn(d.round) {
        var rest := CourseOf(c, OffersAgain(c, n, d.round), NextNumber(c, n, d.round), d.trust, script[1..]);
        LoopIsFollowed(c, OffersAgain(c, n, d.round), NextNumber(c, n, d.round), d.trust, script[1..]);
        assert ([d.acts] + rest.acts)[1..] == rest.acts;
        FollowedConcat(d.acts, Flat(rest.acts));
      } else {
        assert [d.acts][1..] == [] && d.acts + [] == d.acts;
      }
    }
  }

  lemma NothingFollowed()
    ensures Followed([])
  {
  }

  lemma RoundIsFollowed(g: Guards, offered: bool, t: Trust, s: Script)
    ensures Followed(DecidedRound(g, offered, t, s).acts)
  {
    hide Followed, ToolSteps;
    NothingFollowed();
    if s.start.Started? && Delivered(s.start.chunks) == |s.start.chunks| {
      ToolsAreFollowed(g, offered, t, ReplyOf(s.start.chunks).calls, s.facts);
    }
  }

  lemma RoundIsAllowed(g: Guards, offered: bool, t: Trust, s: Script)
    ensures var d := DecidedRound(g, offered, t, s); AllAllowed(g, t, d.acts) && d.trust == TrustAfter(t, d.acts)
    ensures !offered ==> NoAction(DecidedRound(g, offered, t, s).acts)
  {
    hide AllAllowed, TrustAfter, ToolSteps;
    NoActs(g, t);
    if s.start.Started? && Delivered(s.start.chunks) == |s.start.chunks| {
      ToolsAreAllowed(g, offered, t, ReplyOf(s.start.chunks).calls, s.facts);
    }
  }

  /** No computer action is performed in a round whose request offered no tools. */
  lemma {:induction false} NoActionWithoutTools(c: Config, summary: Option<string>, ms: seq<Message>,
                                                opening: Option<seq<Message>>, offers: bool, n: nat, t: Trust,
                                                script: seq<Script>, k: nat)
    requires k < |CourseOf(c, offers, n, t, script).acts|
    ensures var course := CourseOf(c, offers, n, t, script);
            var sent := Loop(c, summary, ms, opening, offers, n, course.rounds).sent;
            k < |sent| && (!sent[k].offersTools ==> NoAction(course.acts[k]))
    decreases k
  {
    hide GoesOn, OffersAgain, NextNumber, DecidedRound, RoundMessages, SentFirst, Held, NoAction, Loop;
    var d := DecidedRound(c.guards, offers, t, script[0]);
    var rounds := CourseOf(c, offers, n, t, script).rounds;
    RoundIsAllowed(c.guards, offers, t, script[0]);
    LoopFirst(c, summary, ms, opening, offers, n, rounds);
    if k > 0 {
      var rest := CourseOf(c, OffersAgain(c, n, d.round), NextNumber(c, n, d.round), d.trust, script[1..]);
      assert ([d.round] + rest.rounds)[1..] == rest.rounds;
      NoActionWithoutTools(c, summary, Held(c, ms, opening) + RoundMessages(d.round), None, OffersAgain(c, n, d.round),
                           NextNumber(c, n, d.round), d.trust, script[1..], k - 1);
    }
  }

  lemma LoopFirst(c: Config, summary: Option<string>, ms: seq<Message>, opening: Option<seq<Message>>,
                  offers: bool, n: nat, rounds: seq<Round>)
    requires rounds != []
    ensures var sent := Loop(c, summary, ms, opening, offers, n, rounds).sent;
            && sent != [] && sent[0].offersTools == offers
            && (GoesOn(rounds[0]) ==>
                  sent[1..] == Loop(c, summary, Held(c, ms, opening) + RoundMessages(rounds[0]), None,
                                    OffersAgain(c, n, rounds[0]), NextNumber(c, n, rounds[0]), rounds[1..]).sent)
  {
    hide GoesOn, OffersAgain, NextNumber, RoundMessages, BuildMessages, ContextOf, Held;
  }

  // ---- Bounded tool rounds ----

  function ToolRequests(sent: seq<Sent>): nat
    decreases |sent|
  {
    if sent == [] then 0 else (if sent[0].offersTools then 1 else 0) + ToolRequests(sent[1..])
  }

  /** At most max(1, max_rounds) requests of a turn offer tools. */
  lemma {:induction false} ToolRequestsAreBounded(c: Config, summary: Option<string>, ms: seq<Message>,
                                                  opening: Option<seq<Message>>, offers: bool, n: nat,
                                                  rounds: seq<Round>)
    requires n < Limit(c)
    ensures ToolRequests(Loop(c, summary, ms, opening, offers, n, rounds).sent)
         <= Limit(c) - n - (if offers then 0 else 1)
    decreases |rounds|
  {
    hide RoundMessages, GoesOn, BuildMessages, ContextOf, Held, Limit;
    if rounds != [] {
      var log := Loop(c, summary, ms, opening, offers, n, rounds);
      if GoesOn(rounds[0]) {
        var after := Held(c, ms, opening) + RoundMessages(rounds[0]);
        ToolRequestsAreBounded(c, summary, after, None, OffersAgain(c, n, rounds[0]), NextNumber(c, n, rounds[0]),
                               rounds[1..]);
        assert log.sent[1..] == Loop(c, summary, after, None, OffersAgain(c, n, rounds[0]),
                                     NextNumber(c, n, rounds[0]), rounds[1..]).sent;
      } else {
        assert log.sent[1..] == [];
      }
    }
  }

  // ---- What the session holds ----

  lemma RoundInOrder(r: Round)
    ensures InOrder(RoundMessages(r))
    ensures GoesOn(r) ==> WireValid(RoundMessages(r))
  {
    hide InOrder, WireValid, AssistantMessage, Results, PictureMessage;
    NothingIsValid();
    ValidIsInOrder([]);
    if Replied(r) {
      var turn := [AssistantMessage(ReplyOf(r.start.chunks))] + Results(CallsIn(r), r.outcomes);
      TurnIsInOrder(ReplyOf(r.start.chunks), Results(CallsIn(r), r.outcomes));
      if GoesOn(r) {
        PictureIsPlain(r);
        ValidIsInOrder(PictureMessage(r));
        InOrderConcat(turn, PictureMessage(r));
        WireValidConcat(turn, PictureMessage(r));
      } else {
        assert turn + [] == turn;
      }
    }
  }

  lemma PictureIsPlain(r: Round)
    requires GoesOn(r)
    ensures WireValid(PictureMessage(r))
  {
    hide WireValid, LastPicture;
    NothingIsValid();
    var p := LastPicture(r.outcomes, |CallsIn(r)|);
    if p.Some? {
      PlainIsValid(Screenshot(r.caption, p.value));
    }
  }

  lemma PrunedKeepsShape(ms: seq<Message>, keep: nat)
    ensures SameShape(Pruned(ms, keep), ms)
  {
    hide Marked, IMAGE_MARK, ImagesFrom;
  }

  /** Everything the finished rounds stored. */
  function Turn(rounds: seq<Round>): seq<Message>
    decreases |rounds|
  {
    if rounds == [] then [] else RoundMessages(rounds[0]) + Turn(rounds[1..])
  }

  lemma SameShapeConcat(a: seq<Message>, b: seq<Message>, t: seq<Message>)
    requires SameShape(a, b)
    ensures SameShape(a + t, b + t)
  {
    hide SameKind;
    forall k | 0 <= k < |a + t| ensures SameKind((a + t)[k], (b + t)[k]) {
      if k >= |a| {
        KindOfSelf((a + t)[k]);
        assert (a + t)[k] == (b + t)[k];
      }
    }
  }

  lemma KindOfSelf(m: Message)
    ensures SameKind(m, m)
  {
  }

  lemma SameShapeTransitive(a: seq<Message>, b: seq<Message>, c: seq<Message>)
    requires SameShape(a, b) && SameShape(b, c)
    ensures SameShape(a, c)
  {
  }

  lemma SameShapeSelf(a: seq<Message>)
    ensures SameShape(a, a)
  {
  }

  /**
   * When the `k`-th request is sent, the session holds what it held before, up to pruned images, and then every
   * message of the `k` finished rounds, each call with exactly one result in call order.
   */
  lemma {:induction false} RequestFollowsResults(c: Config, summary: Option<string>, ms: seq<Message>,
                                                 opening: Option<seq<Message>>, offers: bool, n: nat,
                                                 rounds: seq<Round>, k: nat)
    requires k < |Loop(c, summary, ms, opening, offers, n, rounds).sent|
    ensures k < |rounds| && forall j :: 0 <= j < k ==> GoesOn(rounds[j])
    ensures WireValid(Turn(rounds[..k]))
    ensures SameShape(Loop(c, summary, ms, opening, offers, n, rounds).sent[k].stored, ms + Turn(rounds[..k]))
    decreases k
  {
    hide WireValid, RoundMessages, GoesOn, SameShape, Loop, OffersAgain, NextNumber, BuildMessages, ContextOf, Turn;
    var held := Held(c, ms, opening);
    HeldKeepsShape(c, ms, opening);
    if k == 0 {
      FirstSent(c, summary, ms, opening, offers, n, rounds);
      NoTurn(rounds);
      assert ms + [] == ms;
    } else {
      LaterSent(c, summary, ms, opening, offers, n, rounds, k);
      var after := held + RoundMessages(rounds[0]);
      RequestFollowsResults(c, summary, after, None, OffersAgain(c, n, rounds[0]), NextNumber(c, n, rounds[0]),
                            rounds[1..], k - 1);
      RoundInOrder(rounds[0]);
      TurnStep(rounds, k);
      WireValidConcat(RoundMessages(rounds[0]), Turn(rounds[1..][..k - 1]));
      AfterRound(ms, held, rounds, k);
      SameShapeTransitive(Loop(c, summary, ms, opening, offers, n, rounds).sent[k].stored,
                          after + Turn(rounds[1..][..k - 1]), ms + Turn(rounds[..k]));
    }
  }

  lemma HeldKeepsShape(c: Config, ms: seq<Message>, opening: Option<seq<Message>>)
    ensures SameShape(Held(c, ms, opening), ms)
  {
    hide Pruned, SameShape;
    PrunedKeepsShape(ms, c.keepScreenshots);
    SameShapeSelf(ms);
  }

  lemma NoTurn(rounds: seq<Round>)
    ensures rounds[..0] == [] && Turn(rounds[..0]) == [] && WireValid(Turn(rounds[..0]))
  {
  }

  lemma TurnStep(rounds: seq<Round>, k: nat)
    requires 0 < k <= |rounds|
    ensures Turn(rounds[..k]) == RoundMessages(rounds[0]) + Turn(rounds[1..][..k - 1])
    ensures forall j :: 0 < j < k ==> rounds[j] == rounds[1..][j - 1]
  {
    hide RoundMessages;
    assert rounds[..k][1..] == rounds[1..][..k - 1];
  }

  lemma AfterRound(ms: seq<Message>, stored: seq<Message>, rounds: seq<Round>, k: nat)
    requires 0 < k <= |rounds| && SameShape(stored, ms)
    ensures SameShape(stored + RoundMessages(rounds[0]) + Turn(rounds[1..][..k - 1]), ms + Turn(rounds[..k]))
  {
    hide RoundMessages, SameShape, Turn;
    TurnStep(rounds, k);
    SameShapeConcat(stored, ms, Turn(rounds[..k]));
    Regroup(stored, RoundMessages(rounds[0]), Turn(rounds[1..][..k - 1]));
  }

  predicate DistinctCalls(rounds: seq<Round>) {
    forall k :: 0 <= k < |rounds| ==> Replied(rounds[k]) ==> Distinct(Ids(CallsIn(rounds[k])))
  }

  lemma RoundDistinct(r: Round)
    requires Replied(r) ==> Distinct(Ids(CallsIn(r)))
    ensures DistinctIds(RoundMessages(r))
  {
    hide Results, AssistantMessage, LastPicture, Distinct;
    if Replied(r) {
      ReplyAsks(ReplyOf(r.start.chunks));
      NoIdsDistinct();
    }
  }

  lemma NoIdsDistinct()
    ensures Distinct([])
  {
  }

  lemma HealthyConcat(ms: seq<Message>, block: seq<Message>)
    requires Healthy(ms) && InOrder(block) && DistinctIds(block)
    ensures Healthy(ms + block)
  {
    hide Interrupted.Stored, InOrder, ToolIds, Distinct;
    StoredConcat(ms, block);
  }

  /** Wherever the loop stops or is aborted, the session stays healthy. */
  lemma {:induction false} LoopStaysHealthy(c: Config, summary: Option<string>, ms: seq<Message>,
                                            opening: Option<seq<Message>>, offers: bool, n: nat, rounds: seq<Round>)
    requires Healthy(ms) && DistinctCalls(rounds)
    ensures Healthy(Loop(c, summary, ms, opening, offers, n, rounds).messages)
    decreases |rounds|
  {
    hide RoundMessages, GoesOn, BuildMessages, ContextOf, Held, Healthy, InOrder, DistinctIds, Replied, Distinct;
    hide OffersAgain, NextNumber;
    if rounds != [] {
      var after := Held(c, ms, opening) + RoundMessages(rounds[0]);
      HeldIsHealthy(c, ms, opening);
      RoundInOrder(rounds[0]);
      RoundDistinct(rounds[0]);
      HealthyConcat(Held(c, ms, opening), RoundMessages(rounds[0]));
      if GoesOn(rounds[0]) {
        assert forall k :: 0 <= k < |rounds[1..]| ==> rounds[1..][k] == rounds[k + 1];
        LoopStaysHealthy(c, summary, after, None, OffersAgain(c, n, rounds[0]), NextNumber(c, n, rounds[0]), rounds[1..]);
      }
    }
  }

  lemma HeldIsHealthy(c: Config, ms: seq<Message>, opening: Option<seq<Message>>)
    requires Healthy(ms)
    ensures Healthy(Held(c, ms, opening))
  {
    hide Healthy, Held;
    HeldKeepsShape(c, ms, opening);
    ShapeIsSymmetric(Held(c, ms, opening), ms);
    HealthySameShape(ms, Held(c, ms, opening));
  }

  lemma ShapeIsSymmetric(a: seq<Message>, b: seq<Message>)
    requires SameShape(a, b)
    ensures SameShape(b, a)
  {
  }

  // ---- What is sent ----

  /** How many messages other than results carry images; the API accepts images on user messages only. */
  function Pictures(ms: seq<Message>): nat
    decreases |ms|
  {
    if ms == [] then 0 else (if IsTool(ms[0]) || ms[0].images == [] then 0 else 1) + Pictures(ms[1..])
  }

  lemma {:induction false} PicturesOfNonTools(ms: seq<Message>)
    ensures Pictures(NonTools(ms)) == Pictures(ms)
    decreases |ms|
  {
    if ms != [] {
      PicturesOfNonTools(ms[1..]);
      if IsTool(ms[0]) {
        assert NonTools(ms) == NonTools(ms[1..]);
      } else {
        assert NonTools(ms)[0] == ms[0] && NonTools(ms)[1..] == NonTools(ms[1..]);
      }
    }
  }

  lemma {:induction false} PicturesOfReasoned(ms: seq<Message>)
    ensures Pictures(AddReasoning(ms)) == Pictures(ms)
    decreases |ms|
  {
    hide ToolIds, Blank, OMITTED;
    if ms != [] {
      assert AddReasoning(ms)[1..] == AddReasoning(ms[1..]);
      PicturesOfReasoned(ms[1..]);
    }
  }

  lemma {:induction false} PicturesOfRetained(ms: seq<Message>, keep: Message -> bool)
    ensures Pictures(Retain(ms, keep)) <= Pictures(ms)
    decreases |ms|
  {
    if ms != [] {
      PicturesOfRetained(ms[1..], keep);
      if keep(ms[0]) {
        assert Retain(ms, keep)[0] == ms[0] && Retain(ms, keep)[1..] == Retain(ms[1..], keep);
      } else {
        assert Retain(ms, keep) == Retain(ms[1..], keep);
      }
    }
  }

  lemma {:induction false} PicturesAreImages(ms: seq<Message>, from: nat)
    requires from <= |ms|
    ensures Pictures(ms[from..]) <= ImagesFrom(ms, from)
    decreases |ms| - from
  {
    if from < |ms| {
      PicturesAreImages(ms, from + 1);
      assert ms[from..][1..] == ms[from + 1..];
    }
  }

  lemma PicturesSent(context: seq<Message>, system: Message)
    requires system.images == []
    ensures Pictures(BuildMessages(context, system)) <= Pictures(context)
  {
    hide Prepared, NonTools, Retain, AddReasoning;
    var kept := Retain(Prepared(context), NotSystem);
    assert BuildMessages(context, system)[1..] == kept;
    PicturesOfRetained(Prepared(context), NotSystem);
    PicturesOfNonTools(Prepared(context));
    PreparedSaysTheSame(context);
    PicturesOfReasoned(NonTools(context));
    PicturesOfNonTools(context);
  }

  lemma PicturesOfContext(summary: Option<string>, ms: seq<Message>)
    ensures Pictures(ContextOf(summary, ms)) == Pictures(ms)
  {
    if summary.Some? {
      assert ContextOf(summary, ms)[1..] == ms;
    } else {
      assert ContextOf(summary, ms) == ms;
    }
  }

  /** A rebuilt request is accepted and shows at most `keep_screenshots` messages with images. */
  lemma RebuiltRequest(c: Config, summary: Option<string>, ms: seq<Message>)
    requires c.system.role == "system" && c.system.images == []
    ensures var messages := BuildMessages(ContextOf(summary, Pruned(ms, c.keepScreenshots)), c.system);
            Acceptable(messages) && Pictures(messages) <= c.keepScreenshots
  {
    hide BuildMessages, Acceptable, Pruned, ContextOf, Pictures;
    var stored := Pruned(ms, c.keepScreenshots);
    var context := ContextOf(summary, stored);
    RequestIsAcceptable(context, c.system);
    PicturesSent(context, c.system);
    PicturesOfContext(summary, stored);
    PicturesAreImages(stored, 0);
    assert stored[0..] == stored;
    PrunedImages(ms, c.keepScreenshots, 0);
  }

  /** Every request after the first. */
  lemma {:induction false} LaterRequestsAreAcceptable(c: Config, summary: Option<string>, ms: seq<Message>,
                                                      opening: Option<seq<Message>>, offers: bool, n: nat,
                                                      rounds: seq<Round>, k: nat)
    requires c.system.role == "system" && c.system.images == []
    requires k < |Loop(c, summary, ms, opening, offers, n, rounds).sent| && (k > 0 || opening.None?)
    ensures var sent := Loop(c, summary, ms, opening, offers, n, rounds).sent[k];
            Acceptable(sent.messages) && Pictures(sent.messages) <= c.keepScreenshots
    decreases k
  {
    hide RoundMessages, GoesOn, BuildMessages, Pruned, ContextOf, Acceptable, Pictures, Loop, OffersAgain, NextNumber;
    if k == 0 {
      FirstSent(c, summary, ms, opening, offers, n, rounds);
      RebuiltRequest(c, summary, ms);
    } else {
      LaterSent(c, summary, ms, opening, offers, n, rounds, k);
      LaterRequestsAreAcceptable(c, summary, Held(c, ms, opening) + RoundMessages(rounds[0]), None,
                                 OffersAgain(c, n, rounds[0]), NextNumber(c, n, rounds[0]), rounds[1..], k - 1);
    }
  }

  /** The first request, as a submitted prompt builds it: no images, summary kept, and accepted. */
  lemma OpeningIsAcceptable(system: Message, summary: Option<string>, ms: seq<Message>)
    requires system.role == "system" && system.images == []
    ensures var opening := [system] + Prepared(ContextOf(summary, Pruned(ms, 0)));
            Acceptable(opening) && Pictures(opening) == 0
  {
    hide Prepared, WireValid, ContextOf, Pruned, ToolIds, Blank, NonTools, AddReasoning;
    var context := ContextOf(summary, Pruned(ms, 0));
    var sent := Prepared(context);
    PreparedIsAcceptable(context);
    SystemAsksNothing(system);
    PlainInFront(system, sent);
    ReasonedInFront(system, sent, sent);
    assert ([system] + sent)[1..] == sent;
    PicturesOfNonTools(sent);
    PreparedSaysTheSame(context);
    PicturesOfReasoned(NonTools(context));
    PicturesOfNonTools(context);
    PicturesOfContext(summary, Pruned(ms, 0));
    PicturesAreImages(Pruned(ms, 0), 0);
    assert Pruned(ms, 0)[0..] == Pruned(ms, 0);
    PrunedImages(ms, 0, 0);
  }
}
