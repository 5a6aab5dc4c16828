/**
 * What every interleaving of ACP messages and turns keeps: one response per request, a turn's messages before its
 * response, cancellation that never reaches a later turn, and permission answers that reach their own turn once.
 */
module AcpProtocolLaws {
  import opened Wrappers
  import opened AcpProtocol

  // ---- One response per request ----

  function Responses(out: seq<Out>, r: nat): nat
    decreases |out|
  {
    if out == [] then 0
    else
      var last := out[|out| - 1];
      Responses(out[..|out| - 1], r) + if last.Response? && last.request == r then 1 else 0
  }

  lemma ResponsesAppend(out: seq<Out>, o: Out, r: nat)
    ensures Responses(out + [o], r) == Responses(out, r) + if o.Response? && o.request == r then 1 else 0
  {
    assert (out + [o])[..|out|] == out;
  }

  /** No response for this request is among the messages sent. */
  lemma {:induction false} NoResponse(out: seq<Out>, r: nat)
    ensures Responses(out, r) == 0 <==> forall i :: 0 <= i < |out| ==> !(out[i].Response? && out[i].request == r)
    decreases |out|
  {
    if out != [] {
      NoResponse(out[..|out| - 1], r);
      assert forall i :: 0 <= i < |out| - 1 ==> out[..|out| - 1][i] == out[i];
    }
  }

  /** A request that started a turn is answered when the turn is over. */
  predicate TurnAnswered(s: State, t: nat)
    requires t < |s.turns|
  {
    Responses(s.out, s.turns[t].request) == if s.turns[t].phase.Answered? then 1 else 0
  }

  predicate HasNoTurn(s: State, r: nat) {
    forall t :: 0 <= t < |s.turns| ==> s.turns[t].request != r
  }

  lemma SameHasNoTurn(s: State, s': State, r: nat)
    requires |s.turns| <= |s'.turns|
    requires forall t :: 0 <= t < |s.turns| ==> s'.turns[t].request == s.turns[t].request
    requires forall t :: |s.turns| <= t < |s'.turns| ==> s'.turns[t].request != r
    ensures HasNoTurn(s', r) <==> HasNoTurn(s, r)
  {
    if HasNoTurn(s', r) {
      forall t | 0 <= t < |s.turns| ensures s.turns[t].request != r {
        assert s'.turns[t].request != r;
      }
    }
  }

  /** Any other request has been answered; a notification never gets a response under an id. */
  predicate PlainAnswered(s: State, r: nat)
    requires r < |s.requests|
  {
    HasNoTurn(s, r) ==> Responses(s.out, r) == if s.requests[r].hasId then 1 else 0
  }

  predicate Replied(s: State) {
    && (forall t :: 0 <= t < |s.turns| ==> TurnAnswered(s, t))
    && (forall r :: 0 <= r < |s.requests| ==> PlainAnswered(s, r))
    && (forall i :: 0 <= i < |s.out| && s.out[i].Response? ==> s.out[i].request < |s.requests|)
  }

  /** Same requests, same turns up to phases that are not final, no new response. */
  predicate SameReplies(s: State, s': State) {
    && s'.requests == s.requests && |s'.turns| == |s.turns|
    && (forall t :: 0 <= t < |s.turns| ==>
          && s'.turns[t].request == s.turns[t].request
          && (s'.turns[t].phase.Answered? <==> s.turns[t].phase.Answered?))
    && (s'.out == s.out
        || (|s'.out| == |s.out| + 1 && s'.out[..|s.out|] == s.out && !s'.out[|s.out|].Response?))
  }

  lemma SameRepliesKeep(s: State, s': State)
    requires Replied(s) && SameReplies(s, s')
    ensures Replied(s')
  {
    forall r: nat ensures Responses(s'.out, r) == Responses(s.out, r) {
      if s'.out != s.out {
        assert s'.out == s.out + [s'.out[|s.out|]];
        ResponsesAppend(s.out, s'.out[|s.out|], r);
      }
    }
    forall t | 0 <= t < |s'.turns| ensures TurnAnswered(s', t) {
      assert TurnAnswered(s, t);
    }
    forall r | 0 <= r < |s'.requests| ensures PlainAnswered(s', r) {
      assert PlainAnswered(s, r);
      SameHasNoTurn(s, s', r);
    }
  }

  lemma AnsweredKeepsReplies(s: State, p: nat)
    requires p < |s.asks|
    ensures SameReplies(s, DeliverAnswer(s, p)) && DeliverAnswer(s, p).out == s.out
  {
  }

  lemma {:induction false} AnswerAllKeepsReplies(s: State, n: nat)
    requires n <= |s.asks|
    ensures SameReplies(s, AnswerAll(s, n)) && AnswerAll(s, n).out == s.out
    decreases n
  {
    hide DeliverAnswer;
    if n > 0 {
      AnswerAllKeepsReplies(s, n - 1);
      if AnswerAll(s, n - 1).asks[n - 1].pending {
        AnsweredKeepsReplies(AnswerAll(s, n - 1), n - 1);
      }
    }
  }

  lemma OtherStepsKeepReplies(s: State, e: Event)
    requires Enabled(s, e) && !e.Receive? && !e.Finish?
    ensures SameReplies(s, Next(s, e))
  {
    match e
    case ClientReply(p) =>
      if p < |s.asks| {
        AnsweredKeepsReplies(s, p);
      }
    case StdinClosed => AnswerAllKeepsReplies(s, |s.asks|);
    case Emit(t) => assert Next(s, e).out == s.out + [Update(t)];
    case AskFor(t) => assert Next(s, e).out == s.out + [Permission(|s.asks|)];
    case _ =>
  }

  lemma EffectOnTurns(s: State, r: Request)
    ensures Effect(s, r).turns
         == if StartsTurn(s, r) then s.turns + [Turn(r.call.session, |s.requests|, 0, Spawned)] else s.turns
  {
    hide Immediate;
  }

  /** A request is answered at once or starts a turn, never both. */
  lemma AnsweredOrStarted(s: State, r: Request)
    ensures r.hasId ==> (Immediate(s, r).None? <==> StartsTurn(s, r))
    ensures !r.hasId ==> !StartsTurn(s, r)
  {
  }

  lemma ReceiveKeepsReplied(s: State, r: Request)
    requires Guarded(s) && Replied(s)
    ensures Replied(Next(s, Receive(r)))
  {
    hide Immediate, Effect, StartsTurn;
    var s', n := Next(s, Receive(r)), |s.requests|;
    EffectOnTurns(s, r);
    AnsweredOrStarted(s, r);
    var reply := Immediate(s, r);
    forall q: nat
      ensures Responses(s'.out, q) == Responses(s.out, q) + if q == n && r.hasId && reply.Some? then 1 else 0
    {
      if reply.Some? {
        ResponsesAppend(s.out, if r.hasId then Response(n, reply.value) else NullReply(reply.value), q);
      } else {
        assert s.out + [] == s.out;
      }
    }
    NoResponse(s.out, n);
    forall t | 0 <= t < |s'.turns| ensures TurnAnswered(s', t) {
      if t < |s.turns| {
        assert TurnAnswered(s, t) && TurnNamed(s, t);
      }
    }
    forall q | 0 <= q < |s'.requests| ensures PlainAnswered(s', q) {
      if q < n {
        assert PlainAnswered(s, q);
        SameHasNoTurn(s, s', q);
      } else if StartsTurn(s, r) {
        assert s'.turns[|s.turns|].request == n;
      }
    }
  }

  lemma FinishKeepsReplied(s: State, t: nat)
    requires Guarded(s) && Replied(s) && Enabled(s, Finish(t))
    ensures Replied(Next(s, Finish(t)))
  {
    var s', q := Next(s, Finish(t)), s.turns[t].request;
    forall r: nat ensures Responses(s'.out, r) == Responses(s.out, r) + if r == q then 1 else 0 {
      ResponsesAppend(s.out, Response(q, Success), r);
    }
    assert TurnNamed(s, t);
    forall u | 0 <= u < |s'.turns| ensures TurnAnswered(s', u) {
      assert TurnAnswered(s, u) && Apart(s, u, t);
    }
    forall r | 0 <= r < |s'.requests| ensures PlainAnswered(s', r) {
      assert PlainAnswered(s, r);
      SameHasNoTurn(s, s', r);
    }
  }

  lemma StepKeepsReplied(s: State, e: Event)
    requires Guarded(s) && Replied(s) && Enabled(s, e)
    ensures Replied(Next(s, e))
  {
    hide Guarded, Replied, Next, SameReplies;
    match e
    case Receive(r) => ReceiveKeepsReplied(s, r);
    case Finish(t) => FinishKeepsReplied(s, t);
    case _ =>
      OtherStepsKeepReplies(s, e);
      SameRepliesKeep(s, Next(s, e));
  }

  /** Each request with an id has exactly one response, or a turn that is not over; none has two. */
  lemma OneResponse(s: State, r: nat)
    requires Guarded(s) && Replied(s) && r < |s.requests|
    ensures Responses(s.out, r) <= 1
    ensures Responses(s.out, r) == 1
       <==> s.requests[r].hasId && forall t :: 0 <= t < |s.turns| && s.turns[t].request == r ==> s.turns[t].phase.Answered?
  {
    assert PlainAnswered(s, r);
    if !HasNoTurn(s, r) {
      var t :| 0 <= t < |s.turns| && s.turns[t].request == r;
      assert TurnAnswered(s, t) && TurnNamed(s, t);
      forall u | 0 <= u < |s.turns| && u != t ensures s.turns[u].request != r {
        assert Apart(s, u, t);
      }
    }
  }

  /** Which notifications are answered although JSON-RPC 2.0 (section 4.1) forbids it: all but prompt and cancel. */
  lemma NotificationsAnswered(s: State, r: Request)
    requires !r.hasId
    ensures Answer(s, r) != [] <==> !r.call.Prompt? && !r.call.Cancel?
  {
  }

  /** Replies sent without an id. */
  function NullReplies(out: seq<Out>): nat
    decreases |out|
  {
    if out == [] then 0 else NullReplies(out[..|out| - 1]) + if out[|out| - 1].NullReply? then 1 else 0
  }

  /** Notifications received other than prompt and cancel. */
  function OtherNotifications(requests: seq<Request>): nat
    decreases |requests|
  {
    if requests == [] then 0
    else
      var last := requests[|requests| - 1];
      OtherNotifications(requests[..|requests| - 1]) + if !last.hasId && !last.call.Prompt? && !last.call.Cancel? then 1 else 0
  }

  lemma CountsAppend(out: seq<Out>, o: Out, requests: seq<Request>, r: Request)
    ensures NullReplies(out + [o]) == NullReplies(out) + if o.NullReply? then 1 else 0
    ensures NullReplies(out + []) == NullReplies(out)
    ensures OtherNotifications(requests + [r])
         == OtherNotifications(requests) + if !r.hasId && !r.call.Prompt? && !r.call.Cancel? then 1 else 0
  {
    assert (out + [o])[..|out|] == out && out + [] == out;
    assert (requests + [r])[..|requests|] == requests;
  }

  /** Each step sends as many replies without an id as it receives such notifications. */
  lemma StepKeepsNullReplies(s: State, e: Event)
    requires Enabled(s, e) && NullReplies(s.out) == OtherNotifications(s.requests)
    ensures NullReplies(Next(s, e).out) == OtherNotifications(Next(s, e).requests)
  {
    hide NullReplies, OtherNotifications, Immediate;
    match e
    case Receive(r) =>
      if !r.hasId {
        NotificationsAnswered(s, r);
      }
      if Answer(s, r) != [] {
        CountsAppend(s.out, Answer(s, r)[0], s.requests, r);
      } else {
        CountsAppend(s.out, Update(0), s.requests, r);
      }
    case StdinClosed => AnswerAllKeepsReplies(s, |s.asks|);
    case Emit(t) => CountsAppend(s.out, Update(t), [], Request(true, true, Unknown));
    case AskFor(t) => CountsAppend(s.out, Permission(|s.asks|), [], Request(true, true, Unknown));
    case Finish(t) => CountsAppend(s.out, Response(s.turns[t].request, Success), [], Request(true, true, Unknown));
    case _ =>
  }

  // ---- A turn's messages come before its response ----

  /** The turn a message belongs to. */
  function Sender(s: State, o: Out): Option<nat> {
    match o
    case Update(t) => Some(t)
    case Permission(p) => if p < |s.asks| then Some(s.asks[p].turn) else None
    case _ => None
  }

  predicate InSequence(s: State, i: nat, j: nat)
    requires i < |s.out| && j < |s.out|
  {
    var sender := Sender(s, s.out[j]);
    i < j && s.out[i].Response? && sender.Some? && sender.value < |s.turns| ==>
      s.turns[sender.value].request != s.out[i].request
  }

  /** Messages of a turn name an existing turn and request, and none follows the turn's response. */
  predicate Sequenced(s: State) {
    && (forall i, j :: 0 <= i < |s.out| && 0 <= j < |s.out| ==> InSequence(s, i, j))
    && (forall j :: 0 <= j < |s.out| ==> Sender(s, s.out[j]).Some? ==> Sender(s, s.out[j]).value < |s.turns|)
    && (forall j :: 0 <= j < |s.out| && s.out[j].Permission? ==> s.out[j].ask < |s.asks|)
  }

  /** What the order of messages depends on is only extended. */
  predicate Extends(s: State, s': State) {
    && |s'.turns| >= |s.turns| && |s'.asks| >= |s.asks|
    && (forall t :: 0 <= t < |s.turns| ==> s'.turns[t].request == s.turns[t].request)
    && (forall p :: 0 <= p < |s.asks| ==> s'.asks[p].turn == s.asks[p].turn)
  }

  lemma SilentKeepsSequence(s: State, s': State)
    requires Sequenced(s) && Extends(s, s') && s'.out == s.out
    ensures Sequenced(s')
  {
    forall i, j | 0 <= i < |s'.out| && 0 <= j < |s'.out| ensures InSequence(s', i, j) {
      assert InSequence(s, i, j);
    }
  }

  lemma SpokenKeepsSequence(s: State, s': State, o: Out)
    requires Sequenced(s) && Extends(s, s') && s'.out == s.out + [o]
    requires Sender(s', o).Some? ==>
               && Sender(s', o).value < |s.turns|
               && Responses(s.out, s.turns[Sender(s', o).value].request) == 0
    requires o.Permission? ==> o.ask < |s'.asks|
    ensures Sequenced(s')
  {
    if Sender(s', o).Some? {
      NoResponse(s.out, s.turns[Sender(s', o).value].request);
    }
    forall i, j | 0 <= i < |s'.out| && 0 <= j < |s'.out| ensures InSequence(s', i, j) {
      if i < |s.out| && j < |s.out| {
        assert InSequence(s, i, j);
      }
    }
  }

  lemma AnsweredExtends(s: State, p: nat)
    requires p < |s.asks|
    ensures Extends(s, DeliverAnswer(s, p)) && DeliverAnswer(s, p).out == s.out
  {
  }

  lemma {:induction false} AnswerAllExtends(s: State, n: nat)
    requires n <= |s.asks|
    ensures Extends(s, AnswerAll(s, n)) && AnswerAll(s, n).out == s.out
    decreases n
  {
    hide DeliverAnswer;
    if n > 0 {
      AnswerAllExtends(s, n - 1);
      if AnswerAll(s, n - 1).asks[n - 1].pending {
        AnsweredExtends(AnswerAll(s, n - 1), n - 1);
      }
    }
  }

  lemma StepExtends(s: State, e: Event)
    requires Enabled(s, e)
    ensures Extends(s, Next(s, e))
    ensures e.ClientReply? || e.StdinClosed? || e.Fresh? || e.ObserveCancel? || e.Stop? || e.Release? ==>
              Next(s, e).out == s.out
  {
    hide Immediate;
    match e
    case ClientReply(p) =>
      if p < |s.asks| {
        AnsweredExtends(s, p);
      }
    case StdinClosed => AnswerAllExtends(s, |s.asks|);
    case _ =>
  }

  lemma StepKeepsSequence(s: State, e: Event)
    requires Guarded(s) && Replied(s) && Sequenced(s) && Enabled(s, e)
    ensures Sequenced(Next(s, e))
  {
    hide Guarded, Sequenced, Extends, Immediate, Effect;
    StepExtends(s, e);
    match e
    case Receive(r) =>
      if Answer(s, r) == [] {
        assert s.out + [] == s.out;
        SilentKeepsSequence(s, Next(s, e));
      } else {
        SpokenKeepsSequence(s, Next(s, e), Answer(s, r)[0]);
      }
    case Emit(t) =>
      assert TurnAnswered(s, t);
      SpokenKeepsSequence(s, Next(s, e), Update(t));
    case AskFor(t) =>
      assert TurnAnswered(s, t);
      SpokenKeepsSequence(s, Next(s, e), Permission(|s.asks|));
    case Finish(t) => SpokenKeepsSequence(s, Next(s, e), Response(s.turns[t].request, Success));
    case _ => SilentKeepsSequence(s, Next(s, e));
  }

  // ---- Cancellation ----

  predicate HandleToken(s: State, h: nat)
    requires h < |s.handles|
  {
    s.handles[h].token < |s.tokens| && s.tokens[s.handles[h].token].session == h
  }

  /** A turn past its start has a token of its session; while it runs, that is the one the session holds. */
  predicate TurnToken(s: State, t: nat)
    requires t < |s.turns|
  {
    var turn := s.turns[t];
    !turn.phase.Spawned? ==>
      && turn.token < |s.tokens| && s.tokens[turn.token].session == turn.session
      && (Holds(turn) && turn.session < |s.handles| ==> turn.token == s.handles[turn.session].token)
  }

  predicate TokenAge(s: State, k: nat)
    requires k < |s.tokens|
  {
    s.tokens[k].born < s.clock && match s.tokens[k].cancelled case None => true case Some(c) => s.tokens[k].born < c < s.clock
  }

  predicate Tokened(s: State) {
    && (forall h :: 0 <= h < |s.handles| ==> HandleToken(s, h))
    && (forall t :: 0 <= t < |s.turns| ==> TurnToken(s, t))
    && (forall k :: 0 <= k < |s.tokens| ==> TokenAge(s, k))
  }

  /** Tokens are only added or cancelled now; handles and turns keep theirs. */
  predicate SameTokens(s: State, s': State) {
    && s'.clock == s.clock + 1 && |s'.tokens| >= |s.tokens| && |s'.handles| == |s.handles| && |s'.turns| == |s.turns|
    && (forall k :: 0 <= k < |s.tokens| ==> s'.tokens[k] in {s.tokens[k], s.tokens[k].(cancelled := Some(s.clock))})
    && |s'.tokens| == |s.tokens|
    && (forall h :: 0 <= h < |s.handles| ==> s'.handles[h].token == s.handles[h].token)
    && (forall t :: 0 <= t < |s.turns| ==>
          && s'.turns[t].session == s.turns[t].session && s'.turns[t].token == s.turns[t].token
          && (s'.turns[t].phase.Spawned? <==> s.turns[t].phase.Spawned?)
          && (Holds(s'.turns[t]) ==> Holds(s.turns[t])))
  }

  lemma SameTokensKeep(s: State, s': State)
    requires Tokened(s) && SameTokens(s, s')
    ensures Tokened(s')
  {
    forall h | 0 <= h < |s'.handles| ensures HandleToken(s', h) {
      assert HandleToken(s, h);
    }
    forall t | 0 <= t < |s'.turns| ensures TurnToken(s', t) {
      assert TurnToken(s, t);
    }
    forall k | 0 <= k < |s'.tokens| ensures TokenAge(s', k) {
      assert TokenAge(s, k);
    }
  }

  lemma NewSessionKeepsTokened(s: State, s': State)
    requires Guarded(s) && Tokened(s) && s'.clock == s.clock + 1 && s'.turns == s.turns
    requires s'.handles == s.handles + [Handle(true, false, |s.tokens|)]
    requires s'.tokens == s.tokens + [Token(|s.handles|, s.clock, None)]
    ensures Tokened(s')
  {
    forall h | 0 <= h < |s'.handles| ensures HandleToken(s', h) {
      if h < |s.handles| {
        assert HandleToken(s, h);
      }
    }
    forall t | 0 <= t < |s'.turns| ensures TurnToken(s', t) {
      assert TurnToken(s, t) && TurnNamed(s, t);
    }
    forall k | 0 <= k < |s'.tokens| ensures TokenAge(s', k) {
      if k < |s.tokens| {
        assert TokenAge(s, k);
      }
    }
  }

  lemma NewTurnKeepsTokened(s: State, r: Request)
    requires Tokened(s) && StartsTurn(s, r)
    ensures Tokened(Next(s, Receive(r)))
  {
    var s' := Next(s, Receive(r));
    forall h | 0 <= h < |s'.handles| ensures HandleToken(s', h) {
      assert HandleToken(s, h);
    }
    forall t | 0 <= t < |s'.turns| ensures TurnToken(s', t) {
      if t < |s.turns| {
        assert TurnToken(s, t);
      }
    }
    forall k | 0 <= k < |s'.tokens| ensures TokenAge(s', k) {
      assert TokenAge(s, k);
    }
  }

  lemma FreshKeepsTokened(s: State, t: nat)
    requires Guarded(s) && Tokened(s) && Enabled(s, Fresh(t))
    ensures Tokened(Next(s, Fresh(t)))
  {
    var s' := Next(s, Fresh(t));
    forall h | 0 <= h < |s'.handles| ensures HandleToken(s', h) {
      assert HandleToken(s, h);
    }
    forall u | 0 <= u < |s'.turns| ensures TurnToken(s', u) {
      assert TurnToken(s, u) && Apart(s, u, t);
    }
    forall k | 0 <= k < |s'.tokens| ensures TokenAge(s', k) {
      if k < |s.tokens| {
        assert TokenAge(s, k);
      }
    }
  }

  lemma AnsweredKeepsTokens(s: State, p: nat)
    requires p < |s.asks|
    ensures var s' := DeliverAnswer(s, p); SameTokens(s, s'.(clock := s.clock + 1)) && s'.clock == s.clock
  {
  }

  lemma {:induction false} AnswerAllKeepsTokens(s: State, n: nat)
    requires n <= |s.asks|
    ensures var s' := AnswerAll(s, n); SameTokens(s, s'.(clock := s.clock + 1)) && s'.clock == s.clock && s'.tokens == s.tokens
    decreases n
  {
    if n > 0 {
      AnswerAllKeepsTokens(s, n - 1);
    }
  }

  lemma ReceiveKeepsTokens(s: State, r: Request)
    requires !StartsTurn(s, r) && !(Dispatched(r) && r.call.NewSession?)
    ensures SameTokens(s, Next(s, Receive(r)))
  {
    hide Immediate;
  }

  lemma OtherStepsKeepTokens(s: State, e: Event)
    requires Enabled(s, e) && !e.Receive? && !e.Fresh?
    ensures SameTokens(s, Next(s, e))
  {
    match e
    case ClientReply(p) =>
      if p < |s.asks| {
        AnsweredKeepsTokens(s, p);
      }
    case StdinClosed => AnswerAllKeepsTokens(s, |s.asks|);
    case _ =>
  }

  lemma StepKeepsTokened(s: State, e: Event)
    requires Guarded(s) && Tokened(s) && Enabled(s, e)
    ensures Tokened(Next(s, e))
  {
    hide Guarded, Tokened, SameTokens, Immediate;
    match e
    case Receive(r) =>
      if StartsTurn(s, r) {
        NewTurnKeepsTokened(s, r);
      } else if Dispatched(r) && r.call.NewSession? {
        NewSessionKeepsTokened(s, Next(s, e));
      } else {
        ReceiveKeepsTokens(s, r);
        SameTokensKeep(s, Next(s, e));
      }
    case Fresh(t) => FreshKeepsTokened(s, t);
    case _ =>
      OtherStepsKeepTokens(s, e);
      SameTokensKeep(s, Next(s, e));
  }

  /** A turn that can observe a cancellation was cancelled after it took its token. */
  lemma CancelledLater(s: State, t: nat)
    requires Tokened(s) && Enabled(s, ObserveCancel(t))
    ensures s.tokens[s.turns[t].token].session == s.turns[t].session
    ensures s.tokens[s.turns[t].token].born < s.tokens[s.turns[t].token].cancelled.value
  {
    assert TurnToken(s, t);
    assert TokenAge(s, s.turns[t].token);
  }

  /** The turn has its token and that is cancelled. */
  predicate Cancelled(s: State, t: nat) {
    t < |s.turns| && !s.turns[t].phase.Spawned? && s.turns[t].token < |s.tokens|
    && s.tokens[s.turns[t].token].cancelled.Some?
  }

  /** The state in which the turn has taken its token. */
  function Settled(s: State, t: nat): State
    requires t < |s.turns| && s.turns[t].session < |s.handles|
  {
    if s.turns[t].phase.Spawned? then Next(s, Fresh(t)) else s
  }

  /** A cancel, or a close, reaches the session's running turn exactly when that has taken its token; earlier it is lost. */
  lemma CancelReaches(s: State, t: nat, r: Request)
    requires Guarded(s) && Tokened(s) && t < |s.turns| && Holds(s.turns[t]) && Dispatched(r)
    requires r.call == Method.Cancel(s.turns[t].session) || r.call == Close(s.turns[t].session)
    requires IsOpen(s, s.turns[t].session)
    ensures var s' := Next(s, Receive(r));
            && t < |s'.turns| && s'.turns[t].session < |s'.handles|
            && (Cancelled(Settled(s', t), t) <==> !s.turns[t].phase.Spawned?)
  {
    assert TurnNamed(s, t) && TurnToken(s, t) && HandleToken(s, s.turns[t].session);
  }

  // ---- The guard seen from outside ----

  /** A prompt starts a turn exactly when it is a well-formed request with text for an open session without a running turn. */
  lemma PromptStartsIff(s: State, r: Request)
    requires Guarded(s) && r.call.Prompt?
    ensures StartsTurn(s, r)
       <==> && r.hasId && r.version2 && !r.call.blank && IsOpen(s, r.call.session)
            && forall t :: 0 <= t < |s.turns| ==> !HeldBy(s, r.call.session, t)
  {
    if IsOpen(s, r.call.session) {
      assert GuardRight(s, r.call.session);
    }
  }

  /** Once every turn of a session has cleared its guard, the next prompt is not turned away as busy. */
  lemma NotBusyAfterwards(s: State, h: nat, r: Request)
    requires Guarded(s) && h < |s.handles| && r.call.Prompt? && r.call.session == h
    requires forall t :: 0 <= t < |s.turns| && s.turns[t].session == h ==> !Holds(s.turns[t])
    ensures Immediate(s, r) != Some(Failure(SESSION_BUSY))
  {
    assert GuardRight(s, h);
  }

  /** At most one turn of a session is between its start and the clearing of its guard. */
  lemma OneRunningTurn(s: State, t: nat, u: nat)
    requires Guarded(s) && t < |s.turns| && u < |s.turns| && s.turns[t].session == s.turns[u].session
    requires Holds(s.turns[t]) && Holds(s.turns[u])
    ensures t == u
  {
    assert Apart(s, t, u);
  }

  /** When a turn answers, it no longer holds its session's guard. */
  lemma GuardClearedFirst(s: State, t: nat)
    requires Guarded(s) && Enabled(s, Finish(t))
    ensures !Holds(s.turns[t])
    ensures s.turns[t].session < |s.handles|
    ensures s.handles[s.turns[t].session].running ==>
              exists u :: 0 <= u < |s.turns| && u != t && HeldBy(s, s.turns[t].session, u)
  {
    assert TurnNamed(s, t);
    assert GuardRight(s, s.turns[t].session);
  }

  // ---- Permissions ----

  predicate AskRight(s: State, p: nat)
    requires p < |s.asks|
  {
    && s.asks[p].turn < |s.turns|
    && s.asks[p].replies == if s.asks[p].pending then 0 else 1
  }

  /** A turn that waits for an answer can still get it. */
  predicate WaitRight(s: State, t: nat)
    requires t < |s.turns|
  {
    s.turns[t].phase.Asking? ==>
      var p := s.turns[t].phase.ask;
      p < |s.asks| && s.asks[p].turn == t && s.asks[p].pending
  }

  predicate Permitted(s: State) {
    && (forall p :: 0 <= p < |s.asks| ==> AskRight(s, p))
    && (forall t :: 0 <= t < |s.turns| ==> WaitRight(s, t))
  }

  lemma AnsweredKeepsPermitted(s: State, p: nat)
    requires Permitted(s) && p < |s.asks| && s.asks[p].pending
    ensures Permitted(DeliverAnswer(s, p)) && |DeliverAnswer(s, p).asks| == |s.asks| && !DeliverAnswer(s, p).asks[p].pending
    ensures forall q :: 0 <= q < |s.asks| && !s.asks[q].pending ==> !DeliverAnswer(s, p).asks[q].pending
  {
    var s' := DeliverAnswer(s, p);
    forall q | 0 <= q < |s'.asks| ensures AskRight(s', q) {
      assert AskRight(s, q);
    }
    forall t | 0 <= t < |s'.turns| ensures WaitRight(s', t) {
      assert WaitRight(s, t) && AskRight(s, p);
    }
  }

  lemma {:induction false} AnswerAllKeepsPermitted(s: State, n: nat)
    requires Permitted(s) && n <= |s.asks|
    ensures Permitted(AnswerAll(s, n))
    ensures forall q :: 0 <= q < n ==> !AnswerAll(s, n).asks[q].pending
    decreases n
  {
    hide Permitted, DeliverAnswer;
    if n > 0 {
      AnswerAllKeepsPermitted(s, n - 1);
      if AnswerAll(s, n - 1).asks[n - 1].pending {
        AnsweredKeepsPermitted(AnswerAll(s, n - 1), n - 1);
      }
    }
  }

  /** Turns and asks that matter for permissions are kept. */
  lemma PlainStepKeepsPermitted(s: State, s': State)
    requires Permitted(s) && s'.asks == s.asks && |s'.turns| >= |s.turns|
    requires forall t :: 0 <= t < |s.turns| ==> s'.turns[t].phase.Asking? ==> s'.turns[t].phase == s.turns[t].phase
    requires forall t :: |s.turns| <= t < |s'.turns| ==> !s'.turns[t].phase.Asking?
    ensures Permitted(s')
  {
    forall q | 0 <= q < |s'.asks| ensures AskRight(s', q) {
      assert AskRight(s, q);
    }
    forall t | 0 <= t < |s'.turns| ensures WaitRight(s', t) {
      if t < |s.turns| {
        assert WaitRight(s, t);
      }
    }
  }

  lemma AskKeepsPermitted(s: State, t: nat)
    requires Permitted(s) && Enabled(s, AskFor(t))
    ensures Permitted(Next(s, AskFor(t)))
  {
    var s' := Next(s, AskFor(t));
    forall q | 0 <= q < |s'.asks| ensures AskRight(s', q) {
      if q < |s.asks| {
        assert AskRight(s, q);
      }
    }
    forall u | 0 <= u < |s'.turns| ensures WaitRight(s', u) {
      assert WaitRight(s, u);
    }
  }

  lemma ClockKeepsPermitted(s: State, clock: nat)
    requires Permitted(s)
    ensures Permitted(s.(clock := clock))
  {
    PlainStepKeepsPermitted(s, s.(clock := clock));
  }

  lemma StepKeepsPermitted(s: State, e: Event)
    requires Permitted(s) && Enabled(s, e)
    ensures Permitted(Next(s, e))
  {
    hide Permitted, Immediate, DeliverAnswer, AnswerAll;
    match e
    case ClientReply(p) =>
      if p < |s.asks| && s.asks[p].pending {
        AnsweredKeepsPermitted(s, p);
        ClockKeepsPermitted(DeliverAnswer(s, p), s.clock + 1);
      } else {
        ClockKeepsPermitted(s, s.clock + 1);
      }
    case StdinClosed =>
      AnswerAllKeepsPermitted(s, |s.asks|);
      ClockKeepsPermitted(AnswerAll(s, |s.asks|), s.clock + 1);
    case AskFor(t) => AskKeepsPermitted(s, t);
    case Receive(r) =>
      EffectOnTurns(s, r);
      EffectOnAsks(s, r);
      PlainStepKeepsPermitted(s, Next(s, e));
    case _ => PlainStepKeepsPermitted(s, Next(s, e));
  }

  lemma EffectOnAsks(s: State, r: Request)
    ensures Effect(s, r).asks == s.asks
  {
    hide Immediate;
  }

  /** A permission answer is used at most once, and only by the turn that asked and still waits. */
  lemma AnswerReachesAsker(s: State, p: nat)
    requires Permitted(s) && p < |s.asks|
    ensures s.asks[p].replies <= 1 && s.asks[p].turn < |s.turns|
    ensures var s', asker := Next(s, ClientReply(p)), s.asks[p].turn;
            && s'.handles == s.handles && s'.out == s.out && |s'.turns| == |s.turns|
            && (forall t :: 0 <= t < |s.turns| && t != asker ==> s'.turns[t] == s.turns[t])
            && (s.turns[asker].phase == Asking(p) ==> s'.turns[asker].phase == Active)
            && (s.turns[asker].phase != Asking(p) ==> s'.turns[asker] == s.turns[asker])
  {
    assert AskRight(s, p);
    assert WaitRight(s, s.asks[p].turn);
  }

  /** Closing the input wakes every waiting turn. */
  lemma NobodyWaitsAfterClose(s: State)
    requires Permitted(s)
    ensures var s' := Next(s, StdinClosed); forall t :: 0 <= t < |s'.turns| ==> !s'.turns[t].phase.Asking?
  {
    AnswerAllKeepsPermitted(s, |s.asks|);
    var s' := AnswerAll(s, |s.asks|);
    forall t | 0 <= t < |s'.turns| ensures !s'.turns[t].phase.Asking? {
      assert WaitRight(s', t);
    }
  }

  // ---- Whole runs ----

  predicate Good(s: State) {
    Guarded(s) && Replied(s) && Sequenced(s) && Tokened(s) && Permitted(s)
  }

  predicate Possible(s: State, events: seq<Event>)
    decreases |events|
  {
    events == [] || (Enabled(s, events[0]) && Possible(Next(s, events[0]), events[1..]))
  }

  function Run(s: State, events: seq<Event>): State
    requires Possible(s, events)
    decreases |events|
  {
    if events == [] then s else Run(Next(s, events[0]), events[1..])
  }

  lemma {:induction false} RunIsGood(s: State, events: seq<Event>)
    requires Good(s) && Possible(s, events)
    ensures Good(Run(s, events))
    decreases |events|
  {
    hide Guarded, Replied, Sequenced, Tokened, Permitted, Next, Enabled;
    if events != [] {
      StepIsGuarded(s, events[0]);
      StepKeepsReplied(s, events[0]);
      StepKeepsSequence(s, events[0]);
      StepKeepsTokened(s, events[0]);
      StepKeepsPermitted(s, events[0]);
      RunIsGood(Next(s, events[0]), events[1..]);
    }
  }

  /**
   * Over every run of the server: it sends exactly one reply without an id for each message without an id that is neither
   * a prompt nor a cancel, malformed ones included. JSON-RPC 2.0 (section 4.1) asks for none when it is a notification.
   */
  lemma {:induction false} NullRepliesExactly(s: State, events: seq<Event>)
    requires Possible(s, events) && NullReplies(s.out) == OtherNotifications(s.requests)
    ensures NullReplies(Run(s, events).out) == OtherNotifications(Run(s, events).requests)
    decreases |events|
  {
    hide Next, Enabled, NullReplies, OtherNotifications;
    if events != [] {
      StepKeepsNullReplies(s, events[0]);
      NullRepliesExactly(Next(s, events[0]), events[1..]);
    }
  }

  lemma StartIsGood()
    ensures Good(START)
  {
  }

  /** Every state the server can reach from its start. */
  lemma ReachableIsGood(events: seq<Event>)
    requires Possible(START, events)
    ensures Good(Run(START, events))
  {
    hide Good, Next, Enabled;
    StartIsGood();
    RunIsGood(START, events);
  }
}
