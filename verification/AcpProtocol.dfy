/**
 * The ACP server's sessions, turns, cancellation tokens and permission requests as a step relation.
 *
 * The read loop dispatches one message at a time; every running turn is a task of its own that sends updates, asks
 * for permission, observes its cancellation token, clears the session's guard and only then answers its request.
 */
module AcpProtocol {
  import opened Wrappers

  const INVALID_REQUEST := -32600
  const METHOD_NOT_FOUND := -32601
  const INVALID_PARAMS := -32602
  const SESSION_NOT_FOUND := -32001
  const SESSION_BUSY := -32004

  /** Sessions are named by the number created before them; an unknown session is a number that is out of range. */
  datatype Method =
    | Initialize
    | NewSession
    | Prompt(session: nat, blank: bool)
    | Close(session: nat)
    | SetMode(session: nat, supported: bool)
    | SetModel(session: nat, supported: bool)
    | Cancel(session: nat)
    | Unknown
    | Malformed

  /** A request carries an id; without one it is a notification, or a malformed message that names none. */
  datatype Request = Request(hasId: bool, version2: bool, call: Method)

  datatype Reply = Success | Failure(code: int)

  datatype Phase = Spawned | Active | Asking(ask: nat) | Ending | Released | Answered

  datatype Turn = Turn(session: nat, request: nat, token: nat, phase: Phase)

  datatype Handle = Handle(open: bool, running: bool, token: nat)

  /** A cancellation token, with the number of steps taken when it was created and when it was cancelled. */
  datatype Token = Token(session: nat, born: nat, cancelled: Option<nat>)

  datatype Ask = Ask(turn: nat, pending: bool, replies: nat)

  datatype Out = Response(request: nat, reply: Reply) | NullReply(reply: Reply) | Update(turn: nat) | Permission(ask: nat)

  datatype State = State(clock: nat, handles: seq<Handle>, tokens: seq<Token>, turns: seq<Turn>,
                         requests: seq<Request>, asks: seq<Ask>, out: seq<Out>)

  const START := State(0, [], [], [], [], [], [])

  datatype Event =
    | Receive(request: Request)
    | ClientReply(ask: nat)
    | StdinClosed
    | Fresh(turn: nat)
    | Emit(turn: nat)
    | AskFor(turn: nat)
    | ObserveCancel(turn: nat)
    | Stop(turn: nat)
    | Release(turn: nat)
    | Finish(turn: nat)

  predicate IsOpen(s: State, session: nat) {
    session < |s.handles| && s.handles[session].open
  }

  /** The immediate answer to a message, or none when a turn was started or a notification needs no answer. */
  function Immediate(s: State, r: Request): Option<Reply> {
    if r.call.Malformed? then Some(Failure(INVALID_REQUEST))
    else if r.hasId && !r.version2 then Some(Failure(INVALID_REQUEST))
    else
      match r.call
      case Initialize => Some(Success)
      case NewSession => Some(Success)
      case Prompt(session, blank) =>
        if !r.hasId then None
        else if !IsOpen(s, session) then Some(Failure(SESSION_NOT_FOUND))
        else if s.handles[session].running then Some(Failure(SESSION_BUSY))
        else if blank then Some(Failure(INVALID_PARAMS))
        else None
      case Close(session) => Some(if IsOpen(s, session) then Success else Failure(SESSION_NOT_FOUND))
      case SetMode(session, supported) =>
        Some(if !IsOpen(s, session) then Failure(SESSION_NOT_FOUND)
             else if supported then Success else Failure(INVALID_PARAMS))
      case SetModel(session, supported) =>
        Some(if !IsOpen(s, session) then Failure(SESSION_NOT_FOUND)
             else if supported then Success else Failure(INVALID_PARAMS))
      case Cancel(_) => if r.hasId then Some(Success) else None
      case Unknown => Some(Failure(METHOD_NOT_FOUND))
      case Malformed => Some(Failure(INVALID_REQUEST))
  }

  /** Whether the message gets past the envelope checks. */
  predicate Dispatched(r: Request) {
    !r.call.Malformed? && (r.hasId ==> r.version2)
  }

  predicate StartsTurn(s: State, r: Request) {
    Dispatched(r) && r.call.Prompt? && r.hasId && Immediate(s, r).None?
  }

  /** Cancels the token that session `h` holds now. */
  function CancelCurrent(s: State, h: nat): State
    requires h < |s.handles|
  {
    var k := s.handles[h].token;
    if k < |s.tokens| && s.tokens[k].cancelled.None?
      then s.(tokens := s.tokens[k := s.tokens[k].(cancelled := Some(s.clock))])
    else s
  }

  /** The effect of a message, before its answer is sent. */
  function Effect(s: State, r: Request): State {
    if !Dispatched(r) then s
    else
      match r.call
      case NewSession =>
        s.(handles := s.handles + [Handle(true, false, |s.tokens|)],
           tokens := s.tokens + [Token(|s.handles|, s.clock, None)])
      case Prompt(session, _) =>
        if StartsTurn(s, r) then
          s.(handles := s.handles[session := s.handles[session].(running := true)],
             turns := s.turns + [Turn(session, |s.requests|, 0, Spawned)])
        else s
      case Close(session) =>
        if IsOpen(s, session) then
          var s' := CancelCurrent(s, session);
          s'.(handles := s'.handles[session := s'.handles[session].(open := false)])
        else s
      case Cancel(session) => if IsOpen(s, session) then CancelCurrent(s, session) else s
      case _ => s
  }

  function Answer(s: State, r: Request): seq<Out> {
    var reply := Immediate(s, r);
    if reply.None? then [] else [if r.hasId then Response(|s.requests|, reply.value) else NullReply(reply.value)]
  }

  predicate InPhase(s: State, t: nat, phase: Phase) {
    t < |s.turns| && s.turns[t].phase == phase
  }

  predicate Enabled(s: State, e: Event) {
    match e
    case Receive(_) => true
    case ClientReply(_) => true
    case StdinClosed => true
    case Fresh(t) => InPhase(s, t, Spawned) && s.turns[t].session < |s.handles|
    case Emit(t) => InPhase(s, t, Active)
    case AskFor(t) => InPhase(s, t, Active)
    case ObserveCancel(t) =>
      && t < |s.turns| && (s.turns[t].phase.Active? || s.turns[t].phase.Asking?)
      && s.turns[t].token < |s.tokens| && s.tokens[s.turns[t].token].cancelled.Some?
    case Stop(t) => InPhase(s, t, Active)
    case Release(t) => InPhase(s, t, Ending) && s.turns[t].session < |s.handles|
    case Finish(t) => InPhase(s, t, Released)
  }

  function ToPhase(s: State, t: nat, phase: Phase): State
    requires t < |s.turns|
  {
    s.(turns := s.turns[t := s.turns[t].(phase := phase)])
  }

  /** The answer to a permission request reaches its turn if that is still waiting for it. */
  function DeliverAnswer(s: State, p: nat): State
    requires p < |s.asks|
  {
    var ask := s.asks[p];
    var s' := s.(asks := s.asks[p := Ask(ask.turn, false, ask.replies + 1)]);
    if InPhase(s, ask.turn, Asking(p)) then ToPhase(s', ask.turn, Active) else s'
  }

  /** Every pending permission request fails. */
  function AnswerAll(s: State, n: nat): State
    requires n <= |s.asks|
    ensures |AnswerAll(s, n).asks| == |s.asks|
    decreases n
  {
    if n == 0 then s
    else
      var s' := AnswerAll(s, n - 1);
      if s'.asks[n - 1].pending then DeliverAnswer(s', n - 1) else s'
  }

  function Next(s: State, e: Event): State
    requires Enabled(s, e)
  {
    var s' :=
      match e
      case Receive(r) =>
        var after := Effect(s, r);
        after.(requests := s.requests + [r], out := s.out + Answer(s, r))
      case ClientReply(p) => if p < |s.asks| && s.asks[p].pending then DeliverAnswer(s, p) else s
      case StdinClosed => AnswerAll(s, |s.asks|)
      case Fresh(t) =>
        var h := s.turns[t].session;
        var k := |s.tokens|;
        s.(tokens := s.tokens + [Token(h, s.clock, None)],
           handles := s.handles[h := s.handles[h].(token := k)],
           turns := s.turns[t := s.turns[t].(token := k, phase := Active)])
      case Emit(t) => s.(out := s.out + [Update(t)])
      case AskFor(t) =>
        ToPhase(s, t, Asking(|s.asks|)).(asks := s.asks + [Ask(t, true, 0)], out := s.out + [Permission(|s.asks|)])
      case ObserveCancel(t) => ToPhase(s, t, Ending)
      case Stop(t) => ToPhase(s, t, Ending)
      case Release(t) =>
        var h := s.turns[t].session;
        ToPhase(s, t, Released).(handles := s.handles[h := s.handles[h].(running := false)])
      case Finish(t) => ToPhase(s, t, Answered).(out := s.out + [Response(s.turns[t].request, Success)]);
    s'.(clock := s.clock + 1)
  }

  // ---- The guard: one running turn per session ----

  /** The turn is between the guard's set and its clear. */
  predicate Holds(t: Turn) {
    !t.phase.Released? && !t.phase.Answered?
  }

  predicate TurnNamed(s: State, t: nat)
    requires t < |s.turns|
  {
    s.turns[t].session < |s.handles| && s.turns[t].request < |s.requests| && s.requests[s.turns[t].request].hasId
  }

  /** Two turns are of different requests, and of different sessions if both hold the guard. */
  predicate Apart(s: State, t: nat, u: nat)
    requires t < |s.turns| && u < |s.turns|
  {
    t != u ==>
      && s.turns[t].request != s.turns[u].request
      && (Holds(s.turns[t]) && Holds(s.turns[u]) ==> s.turns[t].session != s.turns[u].session)
  }

  predicate HeldBy(s: State, h: nat, t: nat) {
    t < |s.turns| && Holds(s.turns[t]) && s.turns[t].session == h
  }

  predicate GuardRight(s: State, h: nat)
    requires h < |s.handles|
  {
    s.handles[h].running <==> exists t :: 0 <= t < |s.turns| && HeldBy(s, h, t)
  }

  predicate Guarded(s: State) {
    && (forall t :: 0 <= t < |s.turns| ==> TurnNamed(s, t))
    && (forall t, u :: 0 <= t < |s.turns| && 0 <= u < |s.turns| ==> Apart(s, t, u))
    && (forall h :: 0 <= h < |s.handles| ==> GuardRight(s, h))
  }

  /** A state with the same guards, turns that differ only in token and phase, and the same holders. */
  predicate SameGuards(s: State, s': State) {
    && |s'.handles| == |s.handles| && |s'.turns| == |s.turns| && s.requests <= s'.requests
    && (forall h :: 0 <= h < |s.handles| ==> s'.handles[h].running == s.handles[h].running)
    && (forall t :: 0 <= t < |s.turns| ==>
          && s'.turns[t].session == s.turns[t].session && s'.turns[t].request == s.turns[t].request
          && (Holds(s'.turns[t]) <==> Holds(s.turns[t])))
  }

  lemma SameGuardsKeep(s: State, s': State)
    requires Guarded(s) && SameGuards(s, s')
    ensures Guarded(s')
  {
    forall t | 0 <= t < |s'.turns| ensures TurnNamed(s', t) {
      assert TurnNamed(s, t);
    }
    forall t, u | 0 <= t < |s'.turns| && 0 <= u < |s'.turns| ensures Apart(s', t, u) {
      assert Apart(s, t, u);
    }
    forall h | 0 <= h < |s'.handles| ensures GuardRight(s', h) {
      assert GuardRight(s, h);
      assert forall t :: 0 <= t < |s.turns| ==> (HeldBy(s', h, t) <==> HeldBy(s, h, t));
    }
  }

  lemma AnsweredKeepsGuards(s: State, p: nat)
    requires p < |s.asks|
    ensures SameGuards(s, DeliverAnswer(s, p))
  {
  }

  lemma {:induction false} AnswerAllKeepsGuards(s: State, n: nat)
    requires n <= |s.asks|
    ensures SameGuards(s, AnswerAll(s, n))
    decreases n
  {
    hide DeliverAnswer;
    if n > 0 {
      AnswerAllKeepsGuards(s, n - 1);
      if AnswerAll(s, n - 1).asks[n - 1].pending {
        AnsweredKeepsGuards(AnswerAll(s, n - 1), n - 1);
      }
    }
  }

  lemma NewSessionIsGuarded(s: State, s': State)
    requires Guarded(s) && s'.turns == s.turns && s.requests <= s'.requests
    requires |s'.handles| == |s.handles| + 1 && s'.handles[..|s.handles|] == s.handles
    requires !s'.handles[|s.handles|].running
    ensures Guarded(s')
  {
    forall t | 0 <= t < |s'.turns| ensures TurnNamed(s', t) {
      assert TurnNamed(s, t);
    }
    forall t, u | 0 <= t < |s'.turns| && 0 <= u < |s'.turns| ensures Apart(s', t, u) {
      assert Apart(s, t, u);
    }
    forall h | 0 <= h < |s'.handles| ensures GuardRight(s', h) {
      if h < |s.handles| {
        assert GuardRight(s, h);
        assert s'.handles[h] == s'.handles[..|s.handles|][h];
        assert forall t :: 0 <= t < |s.turns| ==> (HeldBy(s', h, t) <==> HeldBy(s, h, t));
      } else {
        forall t | 0 <= t < |s'.turns| ensures !HeldBy(s', h, t) {
          assert TurnNamed(s, t);
        }
      }
    }
  }

  lemma NewTurnIsGuarded(s: State, r: Request)
    requires Guarded(s) && StartsTurn(s, r)
    ensures Guarded(Next(s, Receive(r)))
  {
    var s' := Next(s, Receive(r));
    var session, n := r.call.session, |s.turns|;
    assert GuardRight(s, session);
    forall t | 0 <= t < |s'.turns| ensures TurnNamed(s', t) {
      if t < n {
        assert TurnNamed(s, t);
      }
    }
    forall t, u | 0 <= t < |s'.turns| && 0 <= u < |s'.turns| ensures Apart(s', t, u) {
      if t < n && u < n {
        assert Apart(s, t, u);
      } else if t < n {
        assert TurnNamed(s, t) && !HeldBy(s, session, t);
      } else if u < n {
        assert TurnNamed(s, u) && !HeldBy(s, session, u);
      }
    }
    forall h | 0 <= h < |s'.handles| ensures GuardRight(s', h) {
      assert GuardRight(s, h);
      if h == session {
        assert HeldBy(s', h, n);
      } else {
        assert forall t :: 0 <= t < n ==> (HeldBy(s', h, t) <==> HeldBy(s, h, t));
      }
    }
  }

  lemma ReleaseIsGuarded(s: State, t: nat)
    requires Guarded(s) && Enabled(s, Release(t))
    ensures Guarded(Next(s, Release(t)))
  {
    var s' := Next(s, Release(t));
    forall u | 0 <= u < |s'.turns| ensures TurnNamed(s', u) {
      assert TurnNamed(s, u);
    }
    forall u, v | 0 <= u < |s'.turns| && 0 <= v < |s'.turns| ensures Apart(s', u, v) {
      assert Apart(s, u, v);
    }
    forall h | 0 <= h < |s'.handles| ensures GuardRight(s', h) {
      assert GuardRight(s, h);
      forall u | 0 <= u < |s'.turns| ensures HeldBy(s', h, u) <==> HeldBy(s, h, u) && u != t {
        assert Apart(s, u, t);
      }
      if h == s.turns[t].session {
        forall u | 0 <= u < |s'.turns| ensures !HeldBy(s', h, u) {
          assert Apart(s, u, t);
        }
      }
    }
  }

  lemma ReceiveKeepsGuards(s: State, r: Request)
    requires !StartsTurn(s, r) && !(Dispatched(r) && r.call.NewSession?)
    ensures SameGuards(s, Next(s, Receive(r)))
  {
    hide Immediate;
  }

  lemma StepIsGuarded(s: State, e: Event)
    requires Guarded(s) && Enabled(s, e)
    ensures Guarded(Next(s, e))
  {
    hide Guarded, DeliverAnswer, AnswerAll, Immediate, SameGuards;
    match e
    case Receive(r) =>
      if StartsTurn(s, r) {
        NewTurnIsGuarded(s, r);
      } else if Dispatched(r) && r.call.NewSession? {
        NewSessionIsGuarded(s, Next(s, e));
      } else {
        ReceiveKeepsGuards(s, r);
        SameGuardsKeep(s, Next(s, e));
      }
    case Release(t) => ReleaseIsGuarded(s, t);
    case _ =>
      OtherStepsKeepGuards(s, e);
      SameGuardsKeep(s, Next(s, e));
  }

  lemma OtherStepsKeepGuards(s: State, e: Event)
    requires Enabled(s, e) && !e.Receive? && !e.Release?
    ensures SameGuards(s, Next(s, e))
  {
    match e
    case ClientReply(p) =>
      if p < |s.asks| {
        AnsweredKeepsGuards(s, p);
      }
    case StdinClosed => AnswerAllKeepsGuards(s, |s.asks|);
    case _ =>
  }
}
