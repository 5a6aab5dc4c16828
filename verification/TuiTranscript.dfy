/**
 * What a loop of the terminal leaves behind, told from its script: which calls are carried out, what each result says,
 * what the session holds at each request and at the end, and which requests offer tools.
 */
module TuiTranscript {
  import opened Sequences
  import opened Wrappers
  import opened Messages
  import opened Interrupted
  import opened Requests
  import opened Sessions
  import opened SessionLaws
  import opened TuiTools
  import opened Turns
  import opened TuiTurn

  // ---- One call ----

  /** The user is asked: the call could be carried out, and it is neither harmless nor trusted. */
  predicate IsAsked(g: Guards, offered: bool, t: Trust, name: string, f: Facts) {
    || (name == COMMAND && f.dangerous && !f.elsewhere && !g.skipPermissions && f.name !in t.commands)
    || (name == COMPUTER && f.enabled && offered && f.supported && f.invalid.None?
        && g.requireConfirmation && !f.readOnly && !(t.computer && !f.revoked))
  }

  /** The user's answer stops the call; an unclear one stops an action, but not a command. */
  predicate IsStopped(name: string, a: Answer) {
    a.Reject? || a.Silence? || (name == COMPUTER && a.Unclear?)
  }

  predicate IsPossible(offered: bool, name: string, f: Facts) {
    name == COMMAND || (name == COMPUTER && f.enabled && offered && f.supported && f.invalid.None?)
  }

  predicate IsCarriedOut(g: Guards, offered: bool, t: Trust, name: string, f: Facts) {
    IsPossible(offered, name, f) && (IsAsked(g, offered, t, name, f) ==> !IsStopped(name, f.answer))
  }

  /** What a call leaves: the output or error of what was done, the user's refusal, or why it cannot be done. */
  predicate Reports(g: Guards, offered: bool, t: Trust, name: string, f: Facts, o: Outcome) {
    if IsCarriedOut(g, offered, t, name, f) then
      && (f.ending.Done? ==>
            o.text == f.ending.text && o.counted && o.image == (if name == COMPUTER then f.ending.image else None))
      && (f.ending.Failed? ==>
            && o.text == (if name == COMMAND then "error: " + f.ending.text else f.ending.text)
            && !o.counted && o.image == None)
    else
      && !o.counted && o.image == None
      && (IsPossible(offered, name, f) ==> o.text == "execution rejected by user")
      && (name != COMMAND && name != COMPUTER ==> o.text == "error: unknown tool `" + name + "`")
      && (name == COMPUTER && !IsPossible(offered, name, f) ==> Explains(o.text, offered, f))
  }

  /** Why no action is possible. */
  predicate Explains(text: string, offered: bool, f: Facts) {
    && (!f.supported ==> text == "error: " + "computer use is not supported on this platform")
    && (f.supported && !f.enabled ==> text == "error: " + "computer use is disabled; use /computer on")
    && (f.supported && f.enabled && !offered ==>
          text == "error: " + "computer use is only available during the tool-calling phase")
    && (f.supported && f.enabled && offered && f.invalid.Some? ==> text == f.invalid.value)
  }

  /** What is done: a withdrawal of trust comes first, then a question if one is needed, then the deed. */
  predicate Does(g: Guards, offered: bool, t: Trust, name: string, f: Facts, acts: seq<Act>) {
    var withdrawn := if f.revoked then [Revoked] else [];
    var question := if !IsAsked(g, offered, t, name, f) then []
                    else if name == COMMAND then [AskedCommand(f.name, f.answer)] else [AskedComputer(f.answer)];
    var deed := if !IsCarriedOut(g, offered, t, name, f) then []
                else if name == COMMAND then [Commanded(f.name, f.dangerous, f.elsewhere)]
                else [Performed(f.readOnly, f.enabled, f.supported, f.invalid.None?)];
    acts == withdrawn + question + deed
  }

  lemma OtherNames()
    ensures COMMAND != COMPUTER
  {
    assert COMMAND[3] != COMPUTER[3];
  }

  lemma ActionIsExplained(g: Guards, offered: bool, t: Trust, f: Facts)
    requires !IsPossible(offered, COMPUTER, f)
    ensures Explains(ComputerStep(g, offered, t, f).outcome.text, offered, f)
  {
    OtherNames();
  }

  lemma CommandReports(g: Guards, offered: bool, t: Trust, f: Facts)
    ensures Reports(g, offered, t, COMMAND, f, CommandStep(g, t, f).outcome)
  {
    hide Explains, COMMAND, COMPUTER;
    OtherNames();
  }

  lemma ActionReports(g: Guards, offered: bool, t: Trust, f: Facts)
    ensures var t' := if f.revoked then t.(computer := false) else t;
            Reports(g, offered, t, COMPUTER, f, ComputerStep(g, offered, t', f).outcome)
  {
    hide Explains, COMMAND, COMPUTER, Reason;
    OtherNames();
    var t' := if f.revoked then t.(computer := false) else t;
    if !IsPossible(offered, COMPUTER, f) {
      ActionIsExplained(g, offered, t', f);
    }
  }

  lemma CallReports(g: Guards, offered: bool, t: Trust, name: string, f: Facts)
    ensures Reports(g, offered, t, name, f, ToolStep(g, offered, t, name, f).outcome)
  {
    hide Explains, COMMAND, COMPUTER, CommandStep, ComputerStep, Reports;
    OtherNames();
    if name == COMMAND {
      CommandReports(g, offered, if f.revoked then t.(computer := false) else t, f);
      TrustedCommand(g, offered, t, f, CommandStep(g, if f.revoked then t.(computer := false) else t, f).outcome);
    } else if name == COMPUTER {
      ActionReports(g, offered, t, f);
    } else {
      UnknownReports(g, offered, t, name, f);
    }
  }

  /** Trust in computer use means nothing to a command. */
  lemma TrustedCommand(g: Guards, offered: bool, t: Trust, f: Facts, o: Outcome)
    requires Reports(g, offered, t.(computer := false), COMMAND, f, o) || Reports(g, offered, t, COMMAND, f, o)
    ensures Reports(g, offered, t, COMMAND, f, o)
  {
    hide Explains, COMMAND, COMPUTER;
    OtherNames();
  }

  lemma UnknownReports(g: Guards, offered: bool, t: Trust, name: string, f: Facts)
    requires name != COMMAND && name != COMPUTER
    ensures Reports(g, offered, t, name, f, NotDone("error: unknown tool `" + name + "`"))
  {
    hide Explains, COMMAND, COMPUTER;
  }

  lemma CommandDoes(g: Guards, offered: bool, t: Trust, f: Facts)
    requires !f.revoked
    ensures Does(g, offered, t, COMMAND, f, CommandStep(g, t, f).acts)
  {
    hide COMMAND, COMPUTER;
    OtherNames();
    NothingInFront(CommandStep(g, t, f).acts);
  }

  lemma ActionDoes(g: Guards, offered: bool, t: Trust, f: Facts)
    requires !f.revoked
    ensures Does(g, offered, t, COMPUTER, f, ComputerStep(g, offered, t, f).acts)
  {
    hide COMMAND, COMPUTER;
    OtherNames();
    NothingInFront(ComputerStep(g, offered, t, f).acts);
  }

  lemma NothingInFront(acts: seq<Act>)
    ensures [] + acts == acts && acts + [] == acts
  {
  }

  /** A withdrawal of trust comes before everything else, and is all the difference it makes. */
  lemma DoesRevoked(g: Guards, offered: bool, t: Trust, name: string, f: Facts, acts: seq<Act>)
    requires f.revoked && Does(g, offered, t.(computer := false), name, f.(revoked := false), acts)
    ensures Does(g, offered, t, name, f, [Revoked] + acts)
  {
    hide COMMAND, COMPUTER;
  }

  lemma CallDoes(g: Guards, offered: bool, t: Trust, name: string, f: Facts)
    ensures Does(g, offered, t, name, f, ToolStep(g, offered, t, name, f).acts)
  {
    hide COMMAND, COMPUTER, CommandStep, ComputerStep;
    OtherNames();
    var t', f' := if f.revoked then t.(computer := false) else t, f.(revoked := false);
    CommandDoes(g, offered, t', f');
    ActionDoes(g, offered, t', f');
    SameWithoutRevoking(g, offered, t', f);
    var s := if name == COMMAND then CommandStep(g, t', f).acts
             else if name == COMPUTER then ComputerStep(g, offered, t', f).acts else [];
    NothingInFront(s);
    if f.revoked {
      DoesRevoked(g, offered, t, name, f, s);
    }
  }

  lemma SameWithoutRevoking(g: Guards, offered: bool, t: Trust, f: Facts)
    ensures CommandStep(g, t, f) == CommandStep(g, t, f.(revoked := false))
    ensures ComputerStep(g, offered, t, f) == ComputerStep(g, offered, t, f.(revoked := false))
  {
    hide Reason;
    ReasonWithoutRevoking(f);
  }

  lemma ReasonWithoutRevoking(f: Facts)
    ensures Reason(f) == Reason(f.(revoked := false))
  {
  }

  // ---- The calls of one reply ----

  /** Every call up to the `|outcomes|`-th was settled with the trust its predecessors left; `parts` are their acts. */
  predicate AreSettled(g: Guards, offered: bool, t: Trust, calls: seq<ToolCall>, facts: seq<Facts>,
                       outcomes: seq<Outcome>, parts: seq<seq<Act>>) {
    && |parts| == |outcomes| == (if |facts| < |calls| then |facts| else |calls|)
    && forall k :: 0 <= k < |outcomes| ==>
         && Reports(g, offered, TrustAfter(t, Flat(parts[..k])), calls[k].name, facts[k], outcomes[k])
         && Does(g, offered, TrustAfter(t, Flat(parts[..k])), calls[k].name, facts[k], parts[k])
  }

  lemma {:induction false} CallsAreSettled(g: Guards, offered: bool, t: Trust, calls: seq<ToolCall>, facts: seq<Facts>)
    returns (parts: seq<seq<Act>>)
    ensures var steps := ToolSteps(g, offered, t, calls, facts);
            && AreSettled(g, offered, t, calls, facts, steps.outcomes, parts)
            && steps.acts == Flat(parts) && steps.trust == TrustAfter(t, steps.acts)
    decreases |calls|
  {
    hide ToolStep, TrustAfter, Reports, Does;
    NoActs(g, t);
    parts := [];
    if calls != [] && facts != [] {
      var s := ToolStep(g, offered, t, calls[0].name, facts[0]);
      CallReports(g, offered, t, calls[0].name, facts[0]);
      CallDoes(g, offered, t, calls[0].name, facts[0]);
      ToolIsAllowed(g, offered, t, calls[0].name, facts[0]);
      var rest := CallsAreSettled(g, offered, s.trust, calls[1..], facts[1..]);
      parts := [s.acts] + rest;
      assert parts[1..] == rest;
      TrustAfterConcat(t, s.acts, Flat(rest));
      forall k | 0 < k < |parts| ensures TrustAfter(t, Flat(parts[..k])) == TrustAfter(s.trust, Flat(rest[..k - 1])) {
        FlatFront(s.acts, rest, k);
        TrustAfterConcat(t, s.acts, Flat(rest[..k - 1]));
      }
      assert parts[..0] == [];
    }
  }

  lemma FlatFront(acts: seq<Act>, rest: seq<seq<Act>>, k: nat)
    requires 0 < k <= |rest| + 1
    ensures Flat(([acts] + rest)[..k]) == acts + Flat(rest[..k - 1])
  {
    assert ([acts] + rest)[..k][1..] == rest[..k - 1];
  }

  // ---- One round ----

  /** The newest screenshot among the first `n` outcomes. */
  predicate IsNewestPicture(outcomes: seq<Outcome>, n: nat, k: nat) {
    k < n <= |outcomes| && outcomes[k].image.Some? && forall j :: k < j < n ==> outcomes[j].image.None?
  }

  /** The reply of the model, one result per call, and the newest screenshot once all results are there. */
  predicate Records(ms: seq<Message>, s: Script, outcomes: seq<Outcome>) {
    if !IsRead(s.start) then ms == [] && outcomes == []
    else
      var calls, n := StartedCalls(s.start.chunks), |outcomes|;
      && n <= |calls| && |ms| > n
      && Speaks(ms[0], s.start.chunks)
      && (forall k :: 0 <= k < n ==> ms[1 + k] == ToolResult(calls[k].id, outcomes[k].text))
      && (n < |calls| || (forall k :: 0 <= k < n ==> outcomes[k].image.None?) ==> |ms| == 1 + n)
      && (forall k :: 0 <= k < n == |calls| && IsNewestPicture(outcomes, n, k) ==>
            |ms| == 2 + n && ms[1 + n] == Plain("user", s.caption).(images := [outcomes[k].image.value]))
  }

  lemma {:induction false} NewestPicture(outcomes: seq<Outcome>, n: nat)
    requires n <= |outcomes|
    ensures LastPicture(outcomes, n) == None <==> forall k :: 0 <= k < n ==> outcomes[k].image.None?
    ensures forall k: nat :: IsNewestPicture(outcomes, n, k) ==> LastPicture(outcomes, n) == outcomes[k].image
    decreases n
  {
    if n > 0 {
      NewestPicture(outcomes, n - 1);
      forall k: nat | IsNewestPicture(outcomes, n, k) && k < n - 1 ensures IsNewestPicture(outcomes, n - 1, k) {
      }
    }
  }

  lemma PartsOf(m: Message, results: seq<Message>, pictures: seq<Message>)
    ensures var ms := [m] + results + pictures;
            && |ms| == 1 + |results| + |pictures| && ms[0] == m
            && (forall k :: 0 <= k < |results| ==> ms[1 + k] == results[k])
            && (forall k :: 0 <= k < |pictures| ==> ms[1 + |results| + k] == pictures[k])
  {
  }

  lemma RecordsOf(s: Script, outcomes: seq<Outcome>, m: Message, results: seq<Message>, pictures: seq<Message>)
    requires IsRead(s.start) && |results| == |outcomes| <= |StartedCalls(s.start.chunks)|
    requires Speaks(m, s.start.chunks)
    requires forall k :: 0 <= k < |results| ==>
               results[k] == ToolResult(StartedCalls(s.start.chunks)[k].id, outcomes[k].text)
    requires |outcomes| < |StartedCalls(s.start.chunks)| || (forall k :: 0 <= k < |outcomes| ==> outcomes[k].image.None?)
             ==> pictures == []
    requires forall k :: 0 <= k < |outcomes| == |StartedCalls(s.start.chunks)| && IsNewestPicture(outcomes, |outcomes|, k) ==>
               pictures == [Plain("user", s.caption).(images := [outcomes[k].image.value])]
    ensures Records([m] + results + pictures, s, outcomes)
  {
    hide EndsEarly, StartedCalls, Speaks, IsNewestPicture, IsRead;
    PartsOf(m, results, pictures);
  }

  /** The pictures behind the results of a reply that was read. */
  function PicturesBehind(r: Round): seq<Message> {
    if GoesOn(r) then PictureMessage(r) else []
  }

  lemma PicturesAre(r: Round)
    requires Replied(r) && |r.outcomes| <= |CallsIn(r)|
    ensures |r.outcomes| < |CallsIn(r)| || (forall k :: 0 <= k < |r.outcomes| ==> r.outcomes[k].image.None?)
            ==> PicturesBehind(r) == []
    ensures forall k :: 0 <= k < |r.outcomes| == |CallsIn(r)| && IsNewestPicture(r.outcomes, |r.outcomes|, k) ==>
              PicturesBehind(r) == [Plain("user", r.caption).(images := [r.outcomes[k].image.value])]
  {
    hide LastPicture, Delivered, ReplyOf;
    NewestPicture(r.outcomes, |r.outcomes|);
  }

  lemma ReplyRecords(s: Script, outcomes: seq<Outcome>)
    requires IsRead(s.start) && |outcomes| <= |StartedCalls(s.start.chunks)|
    ensures Records(RoundMessages(Round(s.start, outcomes, s.caption, s.enabled)), s, outcomes)
  {
    hide EndsEarly, ReplyOf, StartedCalls, AssistantMessage, Speaks, LastPicture, IsNewestPicture, Records, GoesOn,
      PictureMessage;
    var r, calls := Round(s.start, outcomes, s.caption, s.enabled), StartedCalls(s.start.chunks);
    DeliveredMeans(s.start.chunks);
    ReplySays(s.start.chunks);
    AssistantSpeaks(s.start.chunks);
    PicturesAre(r);
    RecordsOf(s, outcomes, AssistantMessage(ReplyOf(s.start.chunks)), Results(calls, outcomes), PicturesBehind(r));
  }

  lemma NothingRecords(r: Round, s: Script)
    requires r.start == s.start && !IsRead(s.start)
    ensures Records(RoundMessages(r), s, [])
  {
    hide EndsEarly;
    if s.start.Started? {
      DeliveredMeans(s.start.chunks);
    }
  }

  lemma RoundRecords(g: Guards, offered: bool, t: Trust, s: Script)
    returns (outcomes: seq<Outcome>, parts: seq<seq<Act>>)
    ensures var d := DecidedRound(g, offered, t, s);
            && Records(RoundMessages(d.round), s, outcomes)
            && d.acts == Flat(parts) && d.trust == TrustAfter(t, d.acts)
            && (IsRead(s.start) ==>
                  AreSettled(g, offered, t, StartedCalls(s.start.chunks), s.facts, outcomes, parts))
            && (!IsRead(s.start) ==> d.acts == [])
            && (GoesOn(d.round) <==> Continues(s))
  {
    hide EndsEarly, ReplyOf, StartedCalls, ToolSteps, AreSettled, TrustAfter, AssistantMessage, Records, RoundMessages;
    NoActs(g, t);
    outcomes, parts := [], [];
    if !IsRead(s.start) {
      NothingRecords(DecidedRound(g, offered, t, s).round, s);
    }
    if s.start.Started? {
      var chunks := s.start.chunks;
      DeliveredMeans(chunks);
      ReplySays(chunks);
      if IsRead(s.start) {
        var calls := StartedCalls(chunks);
        outcomes := ToolSteps(g, offered, t, calls, s.facts).outcomes;
        parts := CallsAreSettled(g, offered, t, calls, s.facts);
        ReplyRecords(s, outcomes);
      }
    }
  }

  // ---- What is counted ----

  /** The tokens of the outputs among the results. */
  function OutputTokens(outcomes: seq<Outcome>, count: string -> nat): nat
    decreases |outcomes|
  {
    if outcomes == [] then 0
    else (if outcomes[0].counted then count(outcomes[0].text) else 0) + OutputTokens(outcomes[1..], count)
  }

  lemma {:induction false} OutputsAppend(outcomes: seq<Outcome>, o: Outcome, count: string -> nat)
    ensures OutputTokens(outcomes + [o], count) == OutputTokens(outcomes, count) + if o.counted then count(o.text) else 0
    decreases |outcomes|
  {
    if outcomes == [] {
      assert [o][1..] == [] && outcomes + [o] == [o];
    } else {
      assert (outcomes + [o])[1..] == outcomes[1..] + [o];
      OutputsAppend(outcomes[1..], o, count);
    }
  }

  lemma {:induction false} OutputsCount(outcomes: seq<Outcome>, n: nat, count: string -> nat)
    requires n <= |outcomes|
    ensures ResultTokens(outcomes, n, count) == OutputTokens(outcomes[..n], count)
    decreases n
  {
    if n > 0 {
      OutputsCount(outcomes, n - 1, count);
      assert outcomes[..n] == outcomes[..n - 1] + [outcomes[n - 1]];
      OutputsAppend(outcomes[..n - 1], outcomes[n - 1], count);
    }
  }

  /** What a round counts: the text and reasoning of its reply, the outputs of its calls, and 1024 more for a screenshot. */
  lemma RoundCounts(r: Round, count: string -> nat)
    requires IsRead(r.start) ==> |r.outcomes| <= |StartedCalls(r.start.chunks)|
    ensures RoundTokens(r, count)
         == if !IsRead(r.start) then 0
            else count(ContentText(r.start.chunks)) + count(ReasoningText(r.start.chunks))
                 + OutputTokens(r.outcomes, count)
                 + if |RoundMessages(r)| > 1 + |r.outcomes| then count(r.caption) + 1024 else 0
  {
    hide EndsEarly, ReplyOf, ResultTokens, OutputTokens, AssistantMessage, LastPicture, ContentText, ReasoningText,
      StartedCalls;
    if r.start.Started? {
      DeliveredMeans(r.start.chunks);
      ReplySays(r.start.chunks);
      OutputsCount(r.outcomes, |r.outcomes|, count);
      assert r.outcomes[..|r.outcomes|] == r.outcomes;
    }
  }

  /** A loop counts what its rounds count, up to the one it stops in. */
  lemma {:induction false} LoopCounts(rounds: seq<Round>, i: nat, count: string -> nat)
    requires i < |rounds| && (forall j :: 0 <= j < i ==> GoesOn(rounds[j])) && (i + 1 == |rounds| || !GoesOn(rounds[i]))
    ensures LoopTokens(rounds, count) == LoopTokens(rounds[..i], count) + RoundTokens(rounds[i], count)
    decreases i
  {
    hide RoundTokens, GoesOn;
    if i == 0 {
      assert rounds[..0] == [];
    } else {
      assert forall j :: 0 <= j < |rounds[1..]| ==> rounds[1..][j] == rounds[j + 1];
      LoopCounts(rounds[1..], i - 1, count);
      assert rounds[..i][1..] == rounds[1..][..i - 1];
    }
  }

  // ---- What the session holds ----

  lemma {:induction false} ImagesBehind(a: seq<Message>, b: seq<Message>, i: nat)
    requires i <= |a|
    ensures ImagesFrom(a + b, i) == ImagesFrom(a, i) + ImagesFrom(b, 0)
    decreases |a| - i
  {
    if i < |a| {
      ImagesBehind(a, b, i + 1);
    } else {
      ImagesOfTail(a, b, 0);
    }
  }

  lemma {:induction false} ImagesOfTail(a: seq<Message>, b: seq<Message>, i: nat)
    requires i <= |b|
    ensures ImagesFrom(a + b, |a| + i) == ImagesFrom(b, i)
    decreases |b| - i
  {
    if i < |b| {
      ImagesOfTail(a, b, i + 1);
    }
  }

  /** What was pruned before may as well be pruned now. */
  lemma PrunedAgain(a: seq<Message>, b: seq<Message>, keep: nat)
    ensures Pruned(Pruned(a, keep) + b, keep) == Pruned(a + b, keep)
  {
    hide Marked, IMAGE_MARK, ImagesFrom;
    var p := Pruned(a, keep);
    forall i | 0 <= i < |a + b| ensures Pruned(p + b, keep)[i] == Pruned(a + b, keep)[i] {
      if i < |a| {
        ImagesBehind(a, b, i);
        ImagesBehind(p, b, i);
        PrunedImages(a, keep, i);
        assert (p + b)[i] == p[i] && (a + b)[i] == a[i];
      } else {
        ImagesOfTail(a, b, i - |a|);
        ImagesOfTail(p, b, i - |a|);
      }
    }
  }

  /**
   * What the session holds when a request is sent: what it held before and all messages of the earlier rounds, with
   * images on the newest `keep_screenshots` bearers; nothing is pruned for the first request.
   */
  lemma {:induction false} HeldIs(c: Config, summary: Option<string>, ms: seq<Message>, opening: Option<seq<Message>>,
                                  offers: bool, n: nat, rounds: seq<Round>, k: nat)
    requires k < |Loop(c, summary, ms, opening, offers, n, rounds).sent|
    ensures k < |rounds| && forall j :: 0 <= j < k ==> GoesOn(rounds[j])
    ensures Loop(c, summary, ms, opening, offers, n, rounds).sent[k].stored
         == if k == 0 && opening.Some? then ms else Pruned(ms + Turn(rounds[..k]), c.keepScreenshots)
    decreases k
  {
    hide RoundMessages, GoesOn, Loop, OffersAgain, NextNumber, BuildMessages, ContextOf, Turn, Pruned;
    if k == 0 {
      FirstSent(c, summary, ms, opening, offers, n, rounds);
      NoTurn(rounds);
      assert ms + [] == ms;
    } else {
      LaterSent(c, summary, ms, opening, offers, n, rounds, k);
      var block := RoundMessages(rounds[0]);
      HeldIs(c, summary, Held(c, ms, opening) + block, None, OffersAgain(c, n, rounds[0]), NextNumber(c, n, rounds[0]),
             rounds[1..], k - 1);
      TurnStep(rounds, k);
      Regroup(Held(c, ms, opening), block, Turn(rounds[1..][..k - 1]));
      Regroup(ms, block, Turn(rounds[1..][..k - 1]));
      PrunedAgain(ms, Turn(rounds[..k]), c.keepScreenshots);
    }
  }

  /** At the end the session holds what it held at the last request, and what the last round stored. */
  lemma {:induction false} LeftIs(c: Config, summary: Option<string>, ms: seq<Message>, opening: Option<seq<Message>>,
                                  offers: bool, n: nat, rounds: seq<Round>)
    requires forall j :: 0 <= j < |rounds| - 1 ==> GoesOn(rounds[j])
    ensures var log := Loop(c, summary, ms, opening, offers, n, rounds);
            && |log.sent| == |rounds|
            && log.messages == if rounds == [] then ms
                               else log.sent[|rounds| - 1].stored + RoundMessages(rounds[|rounds| - 1])
    decreases |rounds|
  {
    hide RoundMessages, GoesOn, OffersAgain, NextNumber, BuildMessages, ContextOf, Held;
    if rounds != [] && GoesOn(rounds[0]) {
      assert forall j :: 0 <= j < |rounds[1..]| ==> rounds[1..][j] == rounds[j + 1];
      LeftIs(c, summary, Held(c, ms, opening) + RoundMessages(rounds[0]), None, OffersAgain(c, n, rounds[0]),
             NextNumber(c, n, rounds[0]), rounds[1..]);
    }
  }

  // ---- Which requests offer tools ----

  /**
   * A later request offers tools if and only if computer use is on after the round before it and fewer than
   * max(1, max_rounds) requests have offered tools so far.
   */
  lemma {:induction false} OffersToolsIff(c: Config, summary: Option<string>, ms: seq<Message>,
                                          opening: Option<seq<Message>>, offers: bool, n: nat, rounds: seq<Round>,
                                          k: nat)
    requires k < |Loop(c, summary, ms, opening, offers, n, rounds).sent| && k <= |rounds|
    ensures var sent := Loop(c, summary, ms, opening, offers, n, rounds).sent;
            if k == 0 then sent[k].offersTools == offers
            else sent[k].offersTools <==>
                   rounds[k - 1].enabled && n + ToolRequests(sent[..k]) + (if offers then 0 else 1) < Limit(c)
    decreases k
  {
    hide RoundMessages, GoesOn, BuildMessages, ContextOf, Held, Limit, Loop;
    if k == 0 {
      FirstSent(c, summary, ms, opening, offers, n, rounds);
    } else {
      LaterSent(c, summary, ms, opening, offers, n, rounds, k);
      LoopFirst(c, summary, ms, opening, offers, n, rounds);
      var sent := Loop(c, summary, ms, opening, offers, n, rounds).sent;
      OffersToolsIff(c, summary, Held(c, ms, opening) + RoundMessages(rounds[0]), None, OffersAgain(c, n, rounds[0]),
                     NextNumber(c, n, rounds[0]), rounds[1..], k - 1);
      FirstOf(sent, k);
      if k == 1 {
        assert sent[1..][..0] == [];
      }
    }
  }

  lemma FirstOf(sent: seq<Sent>, k: nat)
    requires 0 < k <= |sent|
    ensures ToolRequests(sent[..k]) == (if sent[0].offersTools then 1 else 0) + ToolRequests(sent[1..][..k - 1])
  {
    assert sent[..k][1..] == sent[1..][..k - 1];
  }

  // ---- Whole loops ----

  /** Every round but the last goes on, and the last only if the script ends there. */
  lemma {:induction false} CourseStops(c: Config, offers: bool, n: nat, t: Trust, script: seq<Script>)
    ensures var course := CourseOf(c, offers, n, t, script);
            && |course.acts| == |course.rounds| <= |script|
            && (forall j :: 0 <= j < |course.rounds| - 1 ==> GoesOn(course.rounds[j]))
            && (|course.rounds| < |script| ==> course.rounds != [] && !GoesOn(course.rounds[|course.rounds| - 1]))
    decreases |script|
  {
    hide GoesOn, OffersAgain, NextNumber, DecidedRound;
    if script != [] {
      var d := DecidedRound(c.guards, offers, t, script[0]);
      if GoesOn(d.round) {
        var on, next := OffersAgain(c, n, d.round), NextNumber(c, n, d.round);
        var rest := CourseOf(c, on, next, d.trust, script[1..]).rounds;
        CourseStops(c, on, next, d.trust, script[1..]);
        forall j | 0 <= j < |rest| ensures GoesOn(([d.round] + rest)[j]) {
          assert j > 0 ==> ([d.round] + rest)[j] == rest[j - 1];
        }
      }
    }
  }

  /** A round of a loop, decided with the tools its request offered and the trust all earlier acts left. */
  lemma {:induction false} RoundDecided(c: Config, summary: Option<string>, ms: seq<Message>,
                                        opening: Option<seq<Message>>, offers: bool, n: nat, t: Trust,
                                        script: seq<Script>, k: nat)
    requires k < |CourseOf(c, offers, n, t, script).rounds|
    ensures var course := CourseOf(c, offers, n, t, script);
            var sent := Loop(c, summary, ms, opening, offers, n, course.rounds).sent;
            && k < |sent| && k < |course.acts| && k < |script|
            && Decided(course.rounds[k], course.acts[k], TrustAfter(t, Flat(course.acts[..k + 1])))
               == DecidedRound(c.guards, sent[k].offersTools, TrustAfter(t, Flat(course.acts[..k])), script[k])
    decreases k
  {
    hide GoesOn, OffersAgain, NextNumber, DecidedRound, RoundMessages, Held, Loop, TrustAfter;
    var d := DecidedRound(c.guards, offers, t, script[0]);
    var course := CourseOf(c, offers, n, t, script);
    RoundIsAllowed(c.guards, offers, t, script[0]);
    NoActs(c.guards, t);
    LoopFirst(c, summary, ms, opening, offers, n, course.rounds);
    assert course.acts[..1] == [d.acts] && [d.acts][1..] == [] && d.acts + [] == d.acts;
    if k > 0 {
      var on, next := OffersAgain(c, n, d.round), NextNumber(c, n, d.round);
      var rest := CourseOf(c, on, next, d.trust, script[1..]);
      RoundDecided(c, summary, Held(c, ms, opening) + RoundMessages(d.round), None, on, next, d.trust, script[1..], k - 1);
      assert course.rounds[1..] == rest.rounds;
      FlatFront(d.acts, rest.acts, k);
      FlatFront(d.acts, rest.acts, k + 1);
      TrustAfterConcat(t, d.acts, Flat(rest.acts[..k - 1]));
      TrustAfterConcat(t, d.acts, Flat(rest.acts[..k]));
    }
  }

  /** The model called tools, and all of them have results. */
  predicate Continues(s: Script) {
    IsRead(s.start) && StartedCalls(s.start.chunks) != [] && |s.facts| >= |StartedCalls(s.start.chunks)|
  }

  /**
   * Every loop, round by round: what each round stores and does is told by its script, the tools its request offered
   * and the trust left by everything done before.
   */
  lemma LoopTells(c: Config, summary: Option<string>, ms: seq<Message>, opening: seq<Message>, t: Trust,
                  script: seq<Script>, k: nat)
    returns (outcomes: seq<Outcome>, parts: seq<seq<Act>>)
    requires k < |CourseOf(c, true, 0, t, script).rounds|
    ensures var course := CourseOf(c, true, 0, t, script);
            var sent := Loop(c, summary, ms, Some(opening), true, 0, course.rounds).sent;
            && k < |sent| && k < |course.acts| && k < |script|
            && Records(RoundMessages(course.rounds[k]), script[k], outcomes)
            && course.acts[k] == Flat(parts)
            && (IsRead(script[k].start) ==>
                  AreSettled(c.guards, sent[k].offersTools, TrustAfter(t, Flat(course.acts[..k])),
                             StartedCalls(script[k].start.chunks), script[k].facts, outcomes, parts))
            && (!IsRead(script[k].start) ==> course.acts[k] == [])
            && (GoesOn(course.rounds[k]) <==> Continues(script[k]))
  {
    hide CourseOf, Loop, RoundMessages, GoesOn, Records, AreSettled, Pruned, Turn, DecidedRound, TrustAfter, Continues,
      StartedCalls, IsRead, Flat;
    RoundDecided(c, summary, ms, Some(opening), true, 0, t, script, k);
    var course := CourseOf(c, true, 0, t, script);
    var offered := Loop(c, summary, ms, Some(opening), true, 0, course.rounds).sent[k].offersTools;
    outcomes, parts := RoundRecords(c.guards, offered, TrustAfter(t, Flat(course.acts[..k])), script[k]);
  }

  /**
   * Every loop stops behind the first round that calls no tools or lacks a result; what it leaves are all rounds up to
   * there, those before the last request with images on the newest bearers alone.
   */
  lemma LoopLeaves(c: Config, summary: Option<string>, ms: seq<Message>, opening: seq<Message>, t: Trust,
                   script: seq<Script>)
    ensures var rounds := CourseOf(c, true, 0, t, script).rounds;
            var log := Loop(c, summary, ms, Some(opening), true, 0, rounds);
            var n := |log.sent|;
            && n == |rounds| <= |script|
            && (forall k :: 0 <= k < n - 1 ==> Continues(script[k]))
            && (n < |script| ==> n > 0 && !Continues(script[n - 1]))
            && log.messages
               == if n <= 1 then ms + Turn(rounds)
                  else Pruned(ms + Turn(rounds[..n - 1]), c.keepScreenshots) + RoundMessages(rounds[n - 1])
  {
    hide CourseOf, Loop, RoundMessages, GoesOn, Records, AreSettled, Pruned, TrustAfter, Continues, StartedCalls, IsRead;
    var course := CourseOf(c, true, 0, t, script);
    var log := Loop(c, summary, ms, Some(opening), true, 0, course.rounds);
    CourseStops(c, true, 0, t, script);
    LeftIs(c, summary, ms, Some(opening), true, 0, course.rounds);
    forall k | 0 <= k < |course.rounds| ensures GoesOn(course.rounds[k]) <==> Continues(script[k]) {
      var outcomes, parts := LoopTells(c, summary, ms, opening, t, script, k);
    }
    var n := |log.sent|;
    if n > 0 {
      HeldIs(c, summary, ms, Some(opening), true, 0, course.rounds, n - 1);
    }
    if n == 1 {
      assert course.rounds[1..] == [];
      assert Turn(course.rounds) == RoundMessages(course.rounds[0]) + [];
    } else if n == 0 {
      assert ms + [] == ms;
    }
  }

  lemma BuiltFrom(summary: Option<string>, ms: seq<Message>, system: Message)
    requires Healthy(ms)
    ensures BuildMessages(ContextOf(summary, ms), system)
         == [system] + Retain(AddReasoning(ContextOf(summary, Told(ms))), NotSystem)
  {
    hide Healthy, ContextOf, Told, AddReasoning, Retain, ToolSequence.Repair;
    RepairOfContext(summary, ms);
  }

  /**
   * Every request behind the first, for a healthy history: the system message, and what the session holds without its
   * system messages, with results made up only for calls that were interrupted before the loop.
   */
  lemma {:induction false} RequestTells(c: Config, summary: Option<string>, ms: seq<Message>,
                                        opening: Option<seq<Message>>, offers: bool, n: nat, rounds: seq<Round>, k: nat)
    requires Healthy(ms) && DistinctCalls(rounds)
    requires k < |Loop(c, summary, ms, opening, offers, n, rounds).sent| && (k > 0 || opening.None?)
    ensures var sent := Loop(c, summary, ms, opening, offers, n, rounds).sent[k];
            && Healthy(sent.stored)
            && sent.messages
               == [c.system] + Retain(AddReasoning(ContextOf(summary, Told(sent.stored))), NotSystem)
    decreases k
  {
    hide RoundMessages, GoesOn, BuildMessages, ContextOf, Told, Healthy, Pruned, Loop, OffersAgain, NextNumber, AddReasoning,
      Retain, InOrder, DistinctIds, Replied, Distinct;
    HeldIsHealthy(c, ms, opening);
    if k == 0 {
      FirstSent(c, summary, ms, opening, offers, n, rounds);
      BuiltFrom(summary, Held(c, ms, opening), c.system);
    } else {
      LaterSent(c, summary, ms, opening, offers, n, rounds, k);
      RoundInOrder(rounds[0]);
      RoundDistinct(rounds[0]);
      HealthyConcat(Held(c, ms, opening), RoundMessages(rounds[0]));
      assert forall j :: 0 <= j < |rounds[1..]| ==> rounds[1..][j] == rounds[j + 1];
      RequestTells(c, summary, Held(c, ms, opening) + RoundMessages(rounds[0]), None, OffersAgain(c, n, rounds[0]),
                   NextNumber(c, n, rounds[0]), rounds[1..], k - 1);
    }
  }
}
