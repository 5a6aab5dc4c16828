/**
 * What the waiters of the queue are told, from the events alone: the result a processing step reports, or `false` when
 * the message is refused, left behind by a consumer that ends, or lost to a panic.
 */
module ChatQueueAnswers {
  import opened ChatQueue
  import opened ChatQueueLaws

  // ---- Messages and their enqueueing ----

  /** The messages a run enqueues, in order: their chat, and whether someone waits for the result. */
  function Enqueued(events: seq<Event>): seq<(string, bool)>
    decreases |events|
  {
    if events == [] then []
    else (if events[0].Enqueue? then [(events[0].chat, events[0].waits)] else []) + Enqueued(events[1..])
  }

  predicate SameMessages(tickets: seq<Ticket>, messages: seq<(string, bool)>) {
    && |tickets| == |messages|
    && forall u :: 0 <= u < |tickets| ==> (tickets[u].chat, tickets[u].waits) == messages[u]
  }

  lemma StepEnqueues(s: State, e: Event)
    requires Enabled(s, e) && |s.answers| == |s.tickets|
    ensures s.tickets <= Next(s, e).tickets
    ensures SameMessages(Next(s, e).tickets[|s.tickets|..], Enqueued([e]))
  {
    hide Tell;
    assert [e][1..] == [];
  }

  /** Tickets are handed out in the order of the enqueueing, one per message, and keep its chat and its waiter. */
  lemma {:induction false} TicketsAreMessages(s: State, events: seq<Event>)
    requires Possible(s, events)
    ensures s.tickets <= Run(s, events).tickets
    ensures SameMessages(Run(s, events).tickets[|s.tickets|..], Enqueued(events))
    decreases |events|
  {
    hide Next, Enabled;
    if events != [] {
      var s' := Next(s, events[0]);
      StepEnqueues(s, events[0]);
      TicketsAreMessages(s', events[1..]);
      var all := Run(s, events).tickets;
      assert [events[0]][1..] == [];
      assert all[|s.tickets|..] == s'.tickets[|s.tickets|..] + all[|s'.tickets|..];
    }
  }

  // ---- What a step tells a waiter ----

  /** The message is at one of the positions `from` to `to` of the channel. */
  predicate Holds(c: Channel, u: nat, from: int, to: int) {
    exists i :: 0 <= i < |c.received| && from <= i < to && c.received[i] == u
  }

  /** The message whose processing the channel's consumer has begun and not ended. */
  predicate IsProcessing(c: Channel, u: nat) {
    c.phase == Processing && Holds(c, u, c.taken - 1, c.taken)
  }

  predicate Waits(s: State, u: nat) {
    u < |s.tickets| && s.tickets[u].waits
  }

  /** The answer the waiter of message `u` gets in a step, if any. */
  function Told(s: State, e: Event, u: nat): seq<bool>
    requires Enabled(s, e)
  {
    match e
    case Enqueue(chat, waits) =>
      if u == |s.tickets| && waits && chat in s.consumers && s.consumers[chat] < |s.channels|
         && !Open(s.channels[s.consumers[chat]]) then [false] else []
    case Finish(c, ok) => if Waits(s, u) && IsProcessing(s.channels[c], u) then [ok] else []
    case Crash(c) => if Waits(s, u) && Holds(s.channels[c], u, s.channels[c].taken - 1, |s.channels[c].received|)
                     then [false] else []
    case DropReceiver(c) => if Waits(s, u) && Holds(s.channels[c], u, s.channels[c].taken, |s.channels[c].received|)
                            then [false] else []
    case _ => []
  }

  lemma WithinIsHeld(s: State, u: nat, c: nat, from: nat, to: nat)
    requires Valid(s) && u < |s.tickets| && c < |s.channels|
    ensures Within(s, u, c, from, to) <==> Holds(s.channels[c], u, from, to)
  {
    hide AnswersMatch, MapValid;
    TicketOfValid(s, u);
    if Holds(s.channels[c], u, from, to) {
      var i :| 0 <= i < |s.channels[c].received| && from <= i < to && s.channels[c].received[i] == u;
      assert PositionFilled(s, c, i);
    }
  }

  lemma StepTells(s: State, e: Event, u: nat)
    requires Valid(s) && Enabled(s, e) && |s.answers| == |s.tickets| && u < |Next(s, e).tickets|
    ensures |Next(s, e).answers| == |Next(s, e).tickets|
    ensures Next(s, e).answers[u] == (if u < |s.tickets| then s.answers[u] else []) + Told(s, e, u)
  {
    hide AnswersMatch, MapValid, PlacesMatch, Holds;
    if u < |s.tickets| {
      match e
      case Finish(c, ok) =>
        assert ChannelValid(s.channels[c]);
        WithinIsHeld(s, u, c, |s.channels[c].results|, |s.channels[c].results| + 1);
      case Crash(c) =>
        assert ChannelValid(s.channels[c]);
        WithinIsHeld(s, u, c, |s.channels[c].results|, |s.channels[c].received|);
      case DropReceiver(c) =>
        assert ChannelValid(s.channels[c]);
        WithinIsHeld(s, u, c, s.channels[c].taken, |s.channels[c].received|);
      case _ =>
    }
  }

  // ---- Over runs ----

  /** All a run tells the waiter of message `u`, in order. */
  function ToldIn(s: State, events: seq<Event>, u: nat): seq<bool>
    requires Possible(s, events)
    decreases |events|
  {
    if events == [] then [] else Told(s, events[0], u) + ToldIn(Next(s, events[0]), events[1..], u)
  }

  lemma {:induction false} RunTells(s: State, events: seq<Event>, u: nat)
    requires Valid(s) && Possible(s, events) && u < |Run(s, events).tickets|
    ensures |Run(s, events).answers| == |Run(s, events).tickets|
    ensures Run(s, events).answers[u] == (if u < |s.tickets| then s.answers[u] else []) + ToldIn(s, events, u)
    decreases |events|
  {
    hide Valid, Next, Enabled, Told;
    if events != [] {
      var s' := Next(s, events[0]);
      StepIsValid(s, events[0]);
      RunTells(s', events[1..], u);
      StepEnqueues(s, events[0]);
      if u < |s'.tickets| {
        StepTells(s, events[0], u);
      } else {
        NothingToldYet(s, events[0], u);
      }
    }
  }

  lemma NothingToldYet(s: State, e: Event, u: nat)
    requires Enabled(s, e) && |s.answers| == |s.tickets| && u >= |Next(s, e).tickets|
    ensures Told(s, e, u) == []
  {
    hide Tell, Holds;
  }

  /** At some point of the run a step tells the waiter `answer`. */
  predicate SometimeTold(s: State, events: seq<Event>, u: nat, answer: bool)
    requires Possible(s, events)
    decreases |events|
  {
    events != [] && (Told(s, events[0], u) == [answer] || SometimeTold(Next(s, events[0]), events[1..], u, answer))
  }

  lemma {:induction false} ToldMeans(s: State, events: seq<Event>, u: nat, answer: bool)
    requires Possible(s, events)
    ensures answer in ToldIn(s, events, u) <==> SometimeTold(s, events, u, answer)
    decreases |events|
  {
    hide Next, Enabled, Told;
    if events != [] {
      ToldMeans(Next(s, events[0]), events[1..], u, answer);
      ToldOnce(s, events[0], u);
    }
  }

  lemma ToldOnce(s: State, e: Event, u: nat)
    requires Enabled(s, e)
    ensures |Told(s, e, u)| <= 1
  {
  }

  /**
   * In every run the waiter of message `u` has heard exactly `true` if and only if some step ended the processing of that
   * message with `true`, and exactly `false` if and only if some step ended it with `false`, refused it, or lost it.
   */
  lemma AnswersAreTold(events: seq<Event>, u: nat)
    requires Possible(START, events) && u < |Run(START, events).tickets|
    ensures |Run(START, events).answers| == |Run(START, events).tickets|
    ensures Run(START, events).answers[u] == [true] <==> SometimeTold(START, events, u, true)
    ensures Run(START, events).answers[u] == [false] <==> SometimeTold(START, events, u, false)
    ensures |Run(START, events).answers[u]| <= 1
  {
    hide Possible, Run, Next, Told, Valid;
    StartIsValid();
    RunTells(START, events, u);
    assert [] + ToldIn(START, events, u) == ToldIn(START, events, u);
    WaiterHearsOnce(events, u);
    ToldMeans(START, events, u, true);
    ToldMeans(START, events, u, false);
  }
}
