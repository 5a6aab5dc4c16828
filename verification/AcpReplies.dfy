/**
 * What the ACP server says, message by message: which reply each request gets, told from the requests received so far and
 * the turns that are running, and that a turn's response is its result.
 */
module AcpReplies {
  import opened AcpProtocol
  import opened AcpProtocolLaws

  // ---- Sessions, from the requests received ----

  /** The message is a request or notification the server looks at: readable, and version 2.0 if it has an id. */
  predicate Proper(r: Request) {
    !r.call.Malformed? && !(r.hasId && !r.version2)
  }

  /** How many sessions the messages have opened. */
  function Opened(rs: seq<Request>): nat
    decreases |rs|
  {
    if rs == [] then 0
    else
      var last := rs[|rs| - 1];
      Opened(rs[..|rs| - 1]) + if Proper(last) && last.call.NewSession? then 1 else 0
  }

  /** Message `i` closes session `n`, which had been opened before it. */
  predicate Closes(rs: seq<Request>, i: nat, n: nat)
    requires i < |rs|
  {
    Proper(rs[i]) && rs[i].call == Close(n) && n < Opened(rs[..i])
  }

  predicate Closed(rs: seq<Request>, n: nat) {
    exists i :: 0 <= i < |rs| && Closes(rs, i, n)
  }

  /** The session was opened and not closed since. */
  predicate OpenAfter(rs: seq<Request>, n: nat) {
    n < Opened(rs) && !Closed(rs, n)
  }

  /** The server's handles are the sessions of the messages. */
  predicate Tracked(s: State) {
    && |s.handles| == Opened(s.requests)
    && forall n :: 0 <= n < |s.handles| ==> (s.handles[n].open <==> !Closed(s.requests, n))
  }

  lemma OneMore(rs: seq<Request>, r: Request, n: nat)
    ensures Opened(rs + [r]) == Opened(rs) + if Proper(r) && r.call.NewSession? then 1 else 0
    ensures Closed(rs + [r], n) <==> Closed(rs, n) || (Proper(r) && r.call == Close(n) && n < Opened(rs))
  {
    var more := rs + [r];
    assert more[..|rs|] == rs;
    forall i | 0 <= i < |rs| ensures Closes(more, i, n) <==> Closes(rs, i, n) {
      assert more[..i] == rs[..i];
    }
    if Closed(more, n) {
      var i :| 0 <= i < |more| && Closes(more, i, n);
      assert i < |rs| ==> Closes(rs, i, n);
    }
    if Closed(rs, n) {
      var i :| 0 <= i < |rs| && Closes(rs, i, n);
      assert Closes(more, i, n);
    }
    if Proper(r) && r.call == Close(n) && n < Opened(rs) {
      assert Closes(more, |rs|, n);
    }
  }

  lemma {:induction false} ClosedWasOpened(rs: seq<Request>, n: nat)
    ensures Closed(rs, n) ==> n < Opened(rs)
    decreases |rs|
  {
    hide Closed;
    NothingClosed(n);
    if rs != [] {
      var init, last := rs[..|rs| - 1], rs[|rs| - 1];
      assert rs == init + [last];
      OneMore(init, last, n);
      ClosedWasOpened(init, n);
    }
  }

  lemma NothingClosed(n: nat)
    ensures !Closed([], n)
  {
  }

  lemma ReceiveTracks(s: State, r: Request)
    requires Tracked(s)
    ensures Tracked(Next(s, Receive(r)))
  {
    hide Immediate, Closed, Opened, Effect, Tracked;
    var s' := Next(s, Receive(r));
    assert s'.requests == s.requests + [r];
    SessionsAfter(s, r);
    TrackedMeans(s);
    forall n | 0 <= n < |s'.handles| ensures s'.handles[n].open <==> !Closed(s'.requests, n) {
      OneMore(s.requests, r, n);
      ClosedWasOpened(s.requests, n);
    }
    OneMore(s.requests, r, 0);
    TrackedMeans(s');
  }

  lemma TrackedMeans(s: State)
    ensures Tracked(s)
       <==> |s.handles| == Opened(s.requests)
            && forall n :: 0 <= n < |s.handles| ==> (s.handles[n].open <==> !Closed(s.requests, n))
  {
  }

  /** Only a new session adds a handle, and only a close changes whether one is open. */
  lemma SessionsAfter(s: State, r: Request)
    ensures var s' := Next(s, Receive(r));
            && |s'.handles| == |s.handles| + (if Proper(r) && r.call.NewSession? then 1 else 0)
            && forall n :: 0 <= n < |s'.handles| ==>
                 (s'.handles[n].open <==> n == |s.handles| || (s.handles[n].open && !(Proper(r) && r.call == Close(n))))
  {
    assert StartsTurn(s, r) ==> IsOpen(s, r.call.session);
    hide Immediate;
  }

  /** Steps other than receiving a message leave requests and the openness of sessions alone. */
  predicate SameSessions(s: State, s': State) {
    && s'.requests == s.requests && |s'.handles| == |s.handles|
    && forall n :: 0 <= n < |s.handles| ==> s'.handles[n].open == s.handles[n].open
  }

  lemma {:induction false} AnswerAllKeepsSessions(s: State, n: nat)
    requires n <= |s.asks|
    ensures AnswerAll(s, n).handles == s.handles && AnswerAll(s, n).requests == s.requests && AnswerAll(s, n).out == s.out
    decreases n
  {
    if n > 0 {
      AnswerAllKeepsSessions(s, n - 1);
    }
  }

  lemma OtherStepsTrack(s: State, e: Event)
    requires Enabled(s, e) && !e.Receive? && Tracked(s)
    ensures SameSessions(s, Next(s, e)) && Tracked(Next(s, e))
  {
    hide Closed, Opened;
    if e.StdinClosed? {
      AnswerAllKeepsSessions(s, |s.asks|);
    }
  }

  // ---- The reply to a message ----

  /** A turn of the session is between the start of its prompt and the clearing of the guard. */
  predicate Busy(s: State, n: nat) {
    exists t :: 0 <= t < |s.turns| && HeldBy(s, n, t)
  }

  function Addressed(s: State, r: Request, reply: Reply): seq<Out> {
    [if r.hasId then Response(|s.requests|, reply) else NullReply(reply)]
  }

  /** The message asks for something of a session. */
  predicate Concerns(r: Request) {
    (r.call.Prompt? && r.hasId) || r.call.Close? || r.call.SetMode? || r.call.SetModel?
  }

  /** The messages `x` the server sends on receiving `r`, each kind exactly under its condition. */
  predicate Rightly(s: State, r: Request, x: seq<Out>) {
    var rs := s.requests;
    && (x == Addressed(s, r, Failure(INVALID_REQUEST)) <==> !Proper(r))
    && (x == Addressed(s, r, Failure(METHOD_NOT_FOUND)) <==> Proper(r) && r.call.Unknown?)
    && (x == Addressed(s, r, Failure(SESSION_NOT_FOUND)) <==>
          Proper(r) && Concerns(r) && !OpenAfter(rs, r.call.session))
    && (x == Addressed(s, r, Failure(SESSION_BUSY)) <==>
          Proper(r) && r.call.Prompt? && r.hasId && OpenAfter(rs, r.call.session) && Busy(s, r.call.session))
    && (x == Addressed(s, r, Failure(INVALID_PARAMS)) <==>
          && Proper(r) && Concerns(r) && OpenAfter(rs, r.call.session)
          && (|| (r.call.Prompt? && !Busy(s, r.call.session) && r.call.blank)
              || ((r.call.SetMode? || r.call.SetModel?) && !r.call.supported)))
    && (x == Addressed(s, r, Success) <==>
          && Proper(r)
          && (|| r.call.Initialize? || r.call.NewSession? || (r.call.Cancel? && r.hasId)
              || (r.call.Close? && OpenAfter(rs, r.call.session))
              || ((r.call.SetMode? || r.call.SetModel?) && OpenAfter(rs, r.call.session) && r.call.supported)))
    && (x == [] <==>
          && Proper(r)
          && (|| ((r.call.Prompt? || r.call.Cancel?) && !r.hasId)
              || (r.call.Prompt? && OpenAfter(rs, r.call.session) && !Busy(s, r.call.session) && !r.call.blank)))
  }

  lemma OpenIsTracked(s: State, n: nat)
    requires Tracked(s)
    ensures IsOpen(s, n) <==> OpenAfter(s.requests, n)
  {
    hide Closed, Opened;
  }

  lemma BusyIsRunning(s: State, n: nat)
    requires Guarded(s) && n < |s.handles|
    ensures s.handles[n].running <==> Busy(s, n)
  {
    assert GuardRight(s, n);
  }

  lemma ReceiveIsRight(s: State, r: Request)
    requires Guarded(s) && Tracked(s)
    ensures var s' := Next(s, Receive(r));
            && s.out <= s'.out && Rightly(s, r, s'.out[|s.out|..])
            && s'.requests == s.requests + [r]
  {
    hide Guarded, Tracked, OpenAfter, Busy, Effect;
    if Concerns(r) {
      OpenIsTracked(s, r.call.session);
      if r.call.session < |s.handles| {
        BusyIsRunning(s, r.call.session);
      }
    }
    var s' := Next(s, Receive(r));
    assert s'.out[|s.out|..] == Answer(s, r);
  }

  // ---- Every step of every run ----

  /** What a step sends. */
  predicate SendsRightly(s: State, e: Event)
    requires Enabled(s, e)
  {
    var out := Next(s, e).out;
    s.out <= out &&
    var x := out[|s.out|..];
    match e
    case Receive(r) => Rightly(s, r, x)
    case Finish(t) => x == [Response(s.turns[t].request, Success)]
    case Emit(t) => x == [Update(t)]
    case AskFor(t) => x == [Permission(|s.asks|)]
    case _ => x == []
  }

  lemma StepSendsRightly(s: State, e: Event)
    requires Guarded(s) && Tracked(s) && Enabled(s, e)
    ensures SendsRightly(s, e) && Tracked(Next(s, e))
  {
    match e
    case Receive(r) =>
      hide Guarded, Tracked, Rightly, Effect, Answer;
      ReceiveIsRight(s, r);
      ReceiveTracks(s, r);
    case StdinClosed =>
      AnswerAllKeepsSessions(s, |s.asks|);
      OtherStepsTrack(s, e);
    case _ =>
      hide Guarded, Tracked;
      OtherStepsTrack(s, e);
  }

  predicate AlwaysRightly(s: State, events: seq<Event>)
    requires Possible(s, events)
    decreases |events|
  {
    events == [] || (SendsRightly(s, events[0]) && AlwaysRightly(Next(s, events[0]), events[1..]))
  }

  lemma {:induction false} RunSendsRightly(s: State, events: seq<Event>)
    requires Guarded(s) && Tracked(s) && Possible(s, events)
    ensures AlwaysRightly(s, events) && Guarded(Run(s, events)) && Tracked(Run(s, events))
    decreases |events|
  {
    hide Guarded, Tracked, SendsRightly, Next, Enabled;
    if events != [] {
      StepSendsRightly(s, events[0]);
      StepIsGuarded(s, events[0]);
      RunSendsRightly(Next(s, events[0]), events[1..]);
    }
  }

  /**
   * In every run of the server, each step sends exactly what it should: a message gets the reply that its session's history
   * and the running turns call for, a turn that is over its result, and nothing else is sent.
   */
  lemma ServerSendsRightly(events: seq<Event>)
    requires Possible(START, events)
    ensures AlwaysRightly(START, events)
  {
    hide AlwaysRightly, Possible;
    assert Guarded(START) && Tracked(START) by {
      StartIsGood();
    }
    RunSendsRightly(START, events);
  }

  // ---- A turn's response ----

  /** No response to the prompt of a turn says anything but success. */
  predicate TurnsSucceed(s: State) {
    && (forall i :: 0 <= i < |s.out| && s.out[i].Response? ==> s.out[i].request < |s.requests|)
    && forall i, t ::
         0 <= i < |s.out| && 0 <= t < |s.turns| && s.out[i].Response? && s.out[i].request == s.turns[t].request ==>
           s.out[i].reply == Success
  }

  lemma StepTurnsSucceed(s: State, e: Event)
    requires Guarded(s) && TurnsSucceed(s) && Enabled(s, e)
    ensures TurnsSucceed(Next(s, e))
  {
    match e
    case Receive(r) => ReceiveTurnsSucceed(s, r);
    case StdinClosed =>
      AnswerAllKeepsReplies(s, |s.asks|);
    case Finish(t) =>
      assert TurnNamed(s, t);
    case _ =>
  }

  lemma ReceiveTurnsSucceed(s: State, r: Request)
    requires Guarded(s) && TurnsSucceed(s)
    ensures TurnsSucceed(Next(s, Receive(r)))
  {
    hide Immediate;
    var s' := Next(s, Receive(r));
    forall i, t | 0 <= i < |s'.out| && 0 <= t < |s'.turns| && s'.out[i].Response?
      && s'.out[i].request == s'.turns[t].request
      ensures s'.out[i].reply == Success
    {
      if t < |s.turns| {
        assert TurnNamed(s, t);
      }
    }
  }

  lemma {:induction false} RunTurnsSucceed(s: State, events: seq<Event>)
    requires Guarded(s) && TurnsSucceed(s) && Possible(s, events)
    ensures TurnsSucceed(Run(s, events))
    decreases |events|
  {
    hide Guarded, TurnsSucceed, Next, Enabled;
    if events != [] {
      StepTurnsSucceed(s, events[0]);
      StepIsGuarded(s, events[0]);
      RunTurnsSucceed(Next(s, events[0]), events[1..]);
    }
  }

  // ---- What cancels ----

  /** The message cancels the token that an open session holds. */
  predicate Cancelling(s: State, e: Event, k: nat) {
    && e.Receive? && Proper(e.request) && (e.request.call.Cancel? || e.request.call.Close?)
    && OpenAfter(s.requests, e.request.call.session) && e.request.call.session < |s.handles|
    && s.handles[e.request.call.session].token == k
  }

  lemma {:induction false} AnswerAllKeepsTokenList(s: State, n: nat)
    requires n <= |s.asks|
    ensures AnswerAll(s, n).tokens == s.tokens
    decreases n
  {
    if n > 0 {
      AnswerAllKeepsTokenList(s, n - 1);
    }
  }

  /** Over all steps: a token is cancelled by a cancel or a close of the session that holds it, and by nothing else. */
  lemma CancelledExactly(s: State, e: Event, k: nat)
    requires Tracked(s) && Enabled(s, e) && k < |Next(s, e).tokens|
    ensures Next(s, e).tokens[k].cancelled.Some?
       <==> k < |s.tokens| && (s.tokens[k].cancelled.Some? || Cancelling(s, e, k))
  {
    hide Immediate, Tracked, OpenAfter, AnswerAll;
    match e
    case Receive(r) =>
      if r.call.Cancel? || r.call.Close? {
        OpenIsTracked(s, r.call.session);
      }
    case StdinClosed => AnswerAllKeepsTokenList(s, |s.asks|);
    case _ =>
  }

  // ---- A closed session stays closed ----

  lemma {:induction false} RunExtendsRequests(s: State, events: seq<Event>)
    requires Possible(s, events)
    ensures s.requests <= Run(s, events).requests
    decreases |events|
  {
    hide Enabled;
    if events != [] {
      if events[0].StdinClosed? {
        AnswerAllKeepsSessions(s, |s.asks|);
      }
      StepExtendsRequests(s, events[0]);
      RunExtendsRequests(Next(s, events[0]), events[1..]);
    }
  }

  lemma StepExtendsRequests(s: State, e: Event)
    requires Enabled(s, e)
    ensures s.requests <= Next(s, e).requests
  {
    hide Immediate;
    if e.StdinClosed? {
      AnswerAllKeepsSessions(s, |s.asks|);
    }
  }

  lemma {:induction false} ClosedStays(rs: seq<Request>, more: seq<Request>, n: nat)
    requires rs <= more && Closed(rs, n)
    ensures Closed(more, n)
  {
    var i :| 0 <= i < |rs| && Closes(rs, i, n);
    assert more[..i] == rs[..i] && more[i] == rs[i];
    assert Closes(more, i, n);
  }

  /** Once a session has been closed, every later prompt for it is told that there is no such session. */
  lemma PromptAfterClose(before: State, close: Request, events: seq<Event>, prompt: Request)
    requires Guarded(before) && Tracked(before)
    requires Proper(close) && close.call.Close? && OpenAfter(before.requests, close.call.session)
    requires Possible(Next(before, Receive(close)), events)
    requires Proper(prompt) && prompt.hasId && prompt.call.Prompt? && prompt.call.session == close.call.session
    ensures Next(before, Receive(close)).out == before.out + Addressed(before, close, Success)
    ensures var s := Run(Next(before, Receive(close)), events);
            Next(s, Receive(prompt)).out == s.out + [Response(|s.requests|, Failure(SESSION_NOT_FOUND))]
  {
    hide Guarded, Tracked, Possible, Run, Closed, Opened, Next;
    var n := close.call.session;
    var closed := Next(before, Receive(close));
    ReceiveIsRight(before, close);
    OneMore(before.requests, close, n);
    ReceiveTracks(before, close);
    StepIsGuarded(before, Receive(close));
    RunSendsRightly(closed, events);
    var s := Run(closed, events);
    RunExtendsRequests(closed, events);
    ClosedStays(closed.requests, s.requests, n);
    ReceiveIsRight(s, prompt);
    Ends(before.out, closed.out, Addressed(before, close, Success));
    Ends(s.out, Next(s, Receive(prompt)).out, [Response(|s.requests|, Failure(SESSION_NOT_FOUND))]);
  }

  lemma Ends(a: seq<Out>, b: seq<Out>, x: seq<Out>)
    requires a <= b && b[|a|..] == x
    ensures b == a + x
  {
    assert b == b[..|a|] + b[|a|..];
  }
}
