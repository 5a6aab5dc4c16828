/**
 * What holds over every interleaving of the queue, and what holds only when nothing is enqueued between a consumer's
 * end and the removal of its map entry.
 */
module ChatQueueLaws {
  import opened ChatQueue

  // ---- Every run ----

  predicate Possible(s: State, events: seq<Event>)
    decreases |events|
  {
    |s.answers| == |s.tickets|
    && (events == [] || (Enabled(s, events[0]) && Possible(Next(s, events[0]), events[1..])))
  }

  function Run(s: State, events: seq<Event>): State
    requires Possible(s, events)
    decreases |events|
  {
    if events == [] then s else Run(Next(s, events[0]), events[1..])
  }

  lemma {:induction false} RunIsValid(s: State, events: seq<Event>)
    requires Valid(s) && Possible(s, events)
    ensures Valid(Run(s, events))
    decreases |events|
  {
    hide Valid, Next;
    if events != [] {
      StepIsValid(s, events[0]);
      RunIsValid(Next(s, events[0]), events[1..]);
    }
  }

  lemma StartIsValid()
    ensures Valid(START)
  {
  }

  /** Every state the queue can reach from its start. */
  lemma ReachableIsValid(events: seq<Event>)
    requires Possible(START, events)
    ensures Valid(Run(START, events))
  {
    hide Valid, Next;
    StartIsValid();
    RunIsValid(START, events);
  }

  /** In every run a waiter hears at most once, never before its message is settled, and `true` only for its success. */
  lemma WaiterHearsOnce(events: seq<Event>, u: nat)
    requires Possible(START, events) && u < |Run(START, events).tickets|
    ensures var s := Run(START, events);
            && TicketPlaced(s, u) && |s.answers| == |s.tickets| && |s.answers[u]| <= 1
            && (|s.answers[u]| == 1 <==> s.tickets[u].waits && (StatusOf(s, u).Done? || StatusOf(s, u).Lost?))
            && (s.answers[u] == [true] <==> s.tickets[u].waits && StatusOf(s, u) == Done(true))
  {
    ReachableIsValid(events);
    hide ChannelsValid, MapValid, PlacesMatch, StatusOf, Run, Possible;
    PlacedTicket(Run(START, events), u);
  }

  // ---- Processed at most once ----

  /** Processing of the message has begun. */
  predicate Started(s: State, u: nat)
    requires u < |s.tickets| && TicketPlaced(s, u)
  {
    var p := s.tickets[u].place;
    p.In? && p.index < s.channels[p.channel].taken
  }

  /** The ticket whose processing the event begins. */
  predicate Starts(s: State, e: Event, u: nat)
    requires Enabled(s, e)
  {
    match e
    case Enqueue(chat, _) => u == |s.tickets| && !(chat in s.consumers && s.consumers[chat] < |s.channels|)
    case Receive(c) => s.channels[c].received[s.channels[c].taken] == u
    case _ => false
  }

  lemma StepStarts(s: State, e: Event, u: nat)
    requires Valid(s) && Enabled(s, e) && Valid(Next(s, e)) && u < |s.tickets|
    ensures u < |Next(s, e).tickets| && TicketPlaced(s, u) && TicketPlaced(Next(s, e), u)
    ensures Started(Next(s, e), u) <==> Started(s, u) || Starts(s, e, u)
    ensures !(Started(s, u) && Starts(s, e, u))
  {
    hide AnswersMatch, MapValid, Tell, TicketPlaced, PositionFilled;
    PlacedTicket(s, u);
    PlacedTicket(Next(s, e), u);
    StepStartsPlaced(s, e, u);
  }

  lemma StepStartsPlaced(s: State, e: Event, u: nat)
    requires Valid(s) && Enabled(s, e) && Valid(Next(s, e)) && u < |s.tickets|
    requires TicketPlaced(s, u) && u < |Next(s, e).tickets| && TicketPlaced(Next(s, e), u)
    ensures Started(Next(s, e), u) <==> Started(s, u) || Starts(s, e, u)
    ensures !(Started(s, u) && Starts(s, e, u))
  {
    hide AnswersMatch, MapValid, Tell;
    if e.Receive? {
      assert PositionFilled(s, e.channel, s.channels[e.channel].taken);
    }
  }

  lemma NewTicketStarts(s: State, e: Event, u: nat)
    requires Valid(s) && Enabled(s, e) && Valid(Next(s, e)) && |s.tickets| <= u < |Next(s, e).tickets|
    ensures TicketPlaced(Next(s, e), u)
    ensures Started(Next(s, e), u) <==> Starts(s, e, u)
  {
    hide AnswersMatch, MapValid, Tell, PositionFilled;
    PlacedTicket(Next(s, e), u);
    if e.Enqueue? && e.chat in s.consumers && s.consumers[e.chat] < |s.channels| {
      assert ChannelValid(s.channels[s.consumers[e.chat]]);
    }
  }

  function StartCount(s: State, events: seq<Event>, u: nat): nat
    requires Possible(s, events)
    decreases |events|
  {
    if events == [] then 0
    else (if Starts(s, events[0], u) then 1 else 0) + StartCount(Next(s, events[0]), events[1..], u)
  }

  lemma {:induction false} StartedIsFinal(s: State, events: seq<Event>, u: nat)
    requires Valid(s) && Possible(s, events) && u < |s.tickets|
    ensures TicketPlaced(s, u) && StartCount(s, events, u) <= if Started(s, u) then 0 else 1
    decreases |events|
  {
    hide Valid, Next, Starts, Started, TicketPlaced;
    TicketOfValid(s, u);
    if events != [] {
      StepIsValid(s, events[0]);
      StepStarts(s, events[0], u);
      StartedIsFinal(Next(s, events[0]), events[1..], u);
    }
  }

  lemma TicketOfValid(s: State, u: nat)
    requires Valid(s) && u < |s.tickets|
    ensures TicketPlaced(s, u)
  {
    hide ChannelsValid, MapValid, AnswersMatch;
    PlacedTicket(s, u);
  }

  /** Over every run, each message is processed at most once. */
  lemma {:induction false} ProcessedAtMostOnce(s: State, events: seq<Event>, u: nat)
    requires Valid(s) && Possible(s, events) && u >= |s.tickets|
    ensures StartCount(s, events, u) <= 1
    decreases |events|
  {
    hide Valid, Next, Starts, Started, TicketPlaced;
    if events != [] {
      StepIsValid(s, events[0]);
      OnlyNewStarts(s, events[0], u);
      var s' := Next(s, events[0]);
      if u < |s'.tickets| {
        NewTicketStarts(s, events[0], u);
        StartedIsFinal(s', events[1..], u);
      } else {
        ProcessedAtMostOnce(s', events[1..], u);
      }
    }
  }

  lemma OnlyNewStarts(s: State, e: Event, u: nat)
    requires Valid(s) && Enabled(s, e) && u >= |s.tickets|
    ensures Starts(s, e, u) ==> u < |Next(s, e).tickets|
    ensures |Next(s, e).tickets| >= |s.tickets|
  {
    if e.Receive? {
      assert PositionFilled(s, e.channel, s.channels[e.channel].taken);
    }
  }

  // ---- First in, first out ----

  lemma {:induction false} PositionsAscend(s: State, c: nat, i: nat, j: nat)
    requires Valid(s) && c < |s.channels| && i < j < |s.channels[c].received|
    ensures s.channels[c].received[i] < s.channels[c].received[j]
    decreases j
  {
    assert PositionFilled(s, c, j);
    if i < j - 1 {
      PositionsAscend(s, c, i, j - 1);
    }
  }

  /** On one channel, a message starts only after every earlier one is done. */
  lemma FirstInFirstOut(s: State, u: nat, v: nat)
    requires Valid(s) && u < v < |s.tickets|
    ensures TicketPlaced(s, u) && TicketPlaced(s, v)
    ensures s.tickets[u].place.In? && s.tickets[v].place.In?
            && s.tickets[u].place.channel == s.tickets[v].place.channel && Started(s, v)
            ==> StatusOf(s, u).Done?
  {
    hide AnswersMatch, MapValid;
    TicketOfValid(s, u);
    TicketOfValid(s, v);
    var p, q := s.tickets[u].place, s.tickets[v].place;
    if p.In? && q.In? && p.channel == q.channel && Started(s, v) {
      assert ChannelValid(s.channels[p.channel]);
      if q.index < p.index {
        PositionsAscend(s, p.channel, q.index, p.index);
      }
    }
  }

  // ---- One consumer per chat ----

  /** Nothing is enqueued between a consumer's end and the removal of its entry, and no processing crashes. */
  predicate Quiet(s: State, e: Event) {
    && !e.Crash?
    && (e.Enqueue? ==> e.chat in s.consumers && s.consumers[e.chat] < |s.channels| ==>
          s.channels[s.consumers[e.chat]].phase in {Processing, Idle})
  }

  predicate Live(c: Channel) {
    c.phase in {Processing, Idle, Expired, Leaving}
  }

  /** A consumer that is still there is the one its chat's entry leads to. */
  predicate OwnsEntry(s: State, c: nat)
    requires c < |s.channels|
  {
    && s.channels[c].phase != Crashed
    && (Live(s.channels[c]) ==> HasSender(s, c))
    && (s.channels[c].phase in {Expired, Leaving, Gone} ==> s.channels[c].taken == |s.channels[c].received|)
  }

  predicate EntryIsLive(s: State, chat: string)
    requires chat in s.consumers
  {
    s.consumers[chat] < |s.channels| && Live(s.channels[s.consumers[chat]])
  }

  /** Channels of one chat follow each other: an earlier one is gone. */
  predicate Successive(s: State, c: nat, d: nat)
    requires c < |s.channels| && d < |s.channels|
  {
    c < d && s.channels[c].chat == s.channels[d].chat ==> s.channels[c].phase == Gone
  }

  /** Later messages of one chat are on the same channel or a later one. */
  predicate InTurn(s: State, u: nat, v: nat)
    requires u < |s.tickets| && v < |s.tickets|
  {
    && s.tickets[u].place.In? && s.tickets[v].place.In?
    && (u < v && s.tickets[u].chat == s.tickets[v].chat ==>
          s.tickets[u].place.channel <= s.tickets[v].place.channel)
  }

  predicate Serial(s: State) {
    && (forall c :: 0 <= c < |s.channels| ==> OwnsEntry(s, c))
    && (forall chat :: chat in s.consumers ==> EntryIsLive(s, chat))
    && (forall c, d :: 0 <= c < |s.channels| && 0 <= d < |s.channels| ==> Successive(s, c, d))
    && (forall u, v :: 0 <= u < |s.tickets| && 0 <= v < |s.tickets| ==> InTurn(s, u, v))
  }

  /** A step that only changes the phase or the progress of one channel, without ending its life. */
  lemma UpdateIsSerial(s: State, c: nat, ch: Channel, from: nat, to: nat, answer: bool)
    requires Serial(s) && c < |s.channels| && |s.answers| == |s.tickets|
    requires Live(s.channels[c]) && Live(ch) && ch.chat == s.channels[c].chat
    requires ch.phase in {Expired, Leaving} ==> ch.taken == |ch.received|
    ensures Serial(Update(s, c, ch, from, to, answer))
  {
    hide Tell;
    var s' := Update(s, c, ch, from, to, answer);
    forall k | 0 <= k < |s'.channels| ensures OwnsEntry(s', k) {
      assert OwnsEntry(s, k);
    }
    forall chat | chat in s'.consumers ensures EntryIsLive(s', chat) {
      assert EntryIsLive(s, chat);
    }
    forall k, d | 0 <= k < |s'.channels| && 0 <= d < |s'.channels| ensures Successive(s', k, d) {
      assert Successive(s, k, d);
    }
    forall u, v | 0 <= u < |s'.tickets| && 0 <= v < |s'.tickets| ensures InTurn(s', u, v) {
      assert InTurn(s, u, v);
    }
  }

  lemma RemovalIsSerial(s: State, c: nat)
    requires Serial(s) && MapValid(s) && c < |s.channels| && s.channels[c].phase == Leaving
    requires |s.answers| == |s.tickets|
    ensures Serial(Next(s, RemoveEntry(c)))
  {
    hide Tell;
    var s' := Next(s, RemoveEntry(c));
    assert OwnsEntry(s, c);
    forall k | 0 <= k < |s'.channels| ensures OwnsEntry(s', k) {
      assert OwnsEntry(s, k);
    }
    forall chat | chat in s'.consumers ensures EntryIsLive(s', chat) {
      assert EntryIsLive(s, chat);
    }
    forall k, d | 0 <= k < |s'.channels| && 0 <= d < |s'.channels| ensures Successive(s', k, d) {
      assert Successive(s, k, d);
    }
    forall u, v | 0 <= u < |s'.tickets| && 0 <= v < |s'.tickets| ensures InTurn(s', u, v) {
      assert InTurn(s, u, v);
    }
  }

  lemma QueuedIsSerial(s: State, chat: string, waits: bool)
    requires Valid(s) && Serial(s) && chat in s.consumers && s.channels[s.consumers[chat]].phase in {Processing, Idle}
    ensures Serial(Queued(s, s.consumers[chat], chat, waits))
  {
    hide AnswersMatch, PositionFilled;
    var c := s.consumers[chat];
    var s' := Queued(s, c, chat, waits);
    forall k | 0 <= k < |s'.channels| ensures OwnsEntry(s', k) {
      assert OwnsEntry(s, k);
    }
    forall x | x in s'.consumers ensures EntryIsLive(s', x) {
      assert EntryIsLive(s, x);
    }
    forall k, d | 0 <= k < |s'.channels| && 0 <= d < |s'.channels| ensures Successive(s', k, d) {
      assert Successive(s, k, d);
    }
    forall u, v | 0 <= u < |s'.tickets| && 0 <= v < |s'.tickets| ensures InTurn(s', u, v) {
      if u < |s.tickets| && v < |s.tickets| {
        assert InTurn(s, u, v);
      } else if u < |s.tickets| {
        assert InTurn(s, u, u);
        LiveIsLast(s, u, c);
      } else if v < |s.tickets| {
        assert InTurn(s, v, v);
      }
    }
  }

  /** No message of the chat is on a channel behind the live one. */
  lemma LiveIsLast(s: State, u: nat, c: nat)
    requires Valid(s) && Serial(s) && u < |s.tickets| && c < |s.channels| && Live(s.channels[c])
    ensures TicketPlaced(s, u)
    ensures s.tickets[u].place.In? && s.tickets[u].chat == s.channels[c].chat ==> s.tickets[u].place.channel <= c
  {
    hide AnswersMatch, PositionFilled;
    TicketOfValid(s, u);
    if s.tickets[u].place.In? {
      assert Successive(s, c, s.tickets[u].place.channel);
    }
  }

  lemma SpawnedIsSerial(s: State, chat: string, waits: bool)
    requires Valid(s) && Serial(s) && !(chat in s.consumers)
    ensures Serial(Spawned(s, chat, waits))
  {
    hide AnswersMatch, PositionFilled;
    var s' := Spawned(s, chat, waits);
    forall k | 0 <= k < |s'.channels| ensures OwnsEntry(s', k) {
      if k < |s.channels| {
        assert OwnsEntry(s, k);
      }
    }
    forall x | x in s'.consumers ensures EntryIsLive(s', x) {
      assert x != chat ==> EntryIsLive(s, x);
    }
    forall k, d | 0 <= k < |s'.channels| && 0 <= d < |s'.channels| ensures Successive(s', k, d) {
      if k < |s.channels| {
        assert OwnsEntry(s, k);
        if d < |s.channels| {
          assert Successive(s, k, d);
        }
      }
    }
    forall u, v | 0 <= u < |s'.tickets| && 0 <= v < |s'.tickets| ensures InTurn(s', u, v) {
      if u < |s.tickets| {
        TicketOfValid(s, u);
        assert InTurn(s, u, u);
      }
      if v < |s.tickets| {
        assert InTurn(s, v, v);
      }
      if u < |s.tickets| && v < |s.tickets| {
        assert InTurn(s, u, v);
      }
    }
  }

  lemma QuietStepIsSerial(s: State, e: Event)
    requires Valid(s) && Serial(s) && Enabled(s, e) && Quiet(s, e)
    ensures Serial(Next(s, e))
  {
    hide AnswersMatch, PlacesMatch, Serial, Update, Queued, Spawned, Refused;
    match e
    case Enqueue(chat, waits) =>
      if chat in s.consumers {
        EntryLeads(s, chat);
        QueuedIsSerial(s, chat, waits);
      } else {
        SpawnedIsSerial(s, chat, waits);
      }
    case Finish(c, ok) =>
      var ch := s.channels[c];
      UpdateIsSerial(s, c, ch.(results := ch.results + [ok], phase := Idle), |ch.results|, |ch.results| + 1, ok);
    case Crash(c) =>
    case Receive(c) =>
      var ch := s.channels[c];
      UpdateIsSerial(s, c, ch.(taken := ch.taken + 1, phase := Processing), 0, 0, false);
    case Timeout(c) => UpdateIsSerial(s, c, s.channels[c].(phase := Expired), 0, 0, false);
    case Closed(c) => UpdateIsSerial(s, c, s.channels[c].(phase := Expired), 0, 0, false);
    case DropReceiver(c) =>
      ExpiredIsDrained(s, c);
      var ch := s.channels[c];
      UpdateIsSerial(s, c, ch.(phase := Leaving), ch.taken, |ch.received|, false);
    case RemoveEntry(c) => RemovalIsSerial(s, c);
  }

  lemma EntryLeads(s: State, chat: string)
    requires MapValid(s) && chat in s.consumers
    ensures s.consumers[chat] < |s.channels| && s.channels[s.consumers[chat]].chat == chat
  {
  }

  lemma ExpiredIsDrained(s: State, c: nat)
    requires Serial(s) && c < |s.channels| && s.channels[c].phase == Expired
    ensures s.channels[c].taken == |s.channels[c].received|
  {
    assert OwnsEntry(s, c);
  }

  /** In a serial state no accepted message is lost, and none waits on a channel that nobody reads. */
  lemma SerialLosesNothing(s: State, u: nat)
    requires Valid(s) && Serial(s) && u < |s.tickets|
    ensures TicketPlaced(s, u) && !StatusOf(s, u).Lost?
    ensures StatusOf(s, u).Waiting? ==> s.channels[s.tickets[u].place.channel].phase in {Processing, Idle}
  {
    hide AnswersMatch, PositionFilled;
    TicketOfValid(s, u);
    assert InTurn(s, u, u);
    assert OwnsEntry(s, s.tickets[u].place.channel);
    assert ChannelValid(s.channels[s.tickets[u].place.channel]);
  }

  /** In a serial state a message starts only after every earlier one of its chat is done: one at a time, in order. */
  lemma SerialPerChat(s: State, u: nat, v: nat)
    requires Valid(s) && Serial(s) && u < v < |s.tickets| && s.tickets[u].chat == s.tickets[v].chat
    ensures TicketPlaced(s, u) && TicketPlaced(s, v)
    ensures Started(s, v) ==> StatusOf(s, u).Done?
  {
    hide AnswersMatch, PositionFilled;
    TicketOfValid(s, u);
    TicketOfValid(s, v);
    FirstInFirstOut(s, u, v);
    assert InTurn(s, u, v);
    var c := s.tickets[u].place.channel;
    assert Successive(s, c, s.tickets[v].place.channel);
    assert OwnsEntry(s, c) && ChannelValid(s.channels[c]);
  }

  predicate AllQuiet(s: State, events: seq<Event>)
    requires Possible(s, events)
    decreases |events|
  {
    events == [] || (Quiet(s, events[0]) && AllQuiet(Next(s, events[0]), events[1..]))
  }

  /** Runs without an enqueue inside that window keep the queue serial. */
  lemma {:induction false} QuietRunIsSerial(s: State, events: seq<Event>)
    requires Valid(s) && Serial(s) && Possible(s, events) && AllQuiet(s, events)
    ensures Valid(Run(s, events)) && Serial(Run(s, events))
    decreases |events|
  {
    hide Valid, Serial, Next, Quiet;
    if events != [] {
      StepIsValid(s, events[0]);
      QuietStepIsSerial(s, events[0]);
      QuietRunIsSerial(Next(s, events[0]), events[1..]);
    }
  }

  // ---- One consumer per chat, panics included ----

  predicate HasConsumer(s: State, chat: string) {
    exists c :: 0 <= c < |s.channels| && Live(s.channels[c]) && s.channels[c].chat == chat
  }

  /** No chat has two consumers. */
  predicate Single(s: State) {
    forall c, d ::
      0 <= c < |s.channels| && 0 <= d < |s.channels| && c != d && Live(s.channels[c]) && Live(s.channels[d]) ==>
        s.channels[c].chat != s.channels[d].chat
  }

  /** A message starts a consumer, as its chat has no entry, while a consumer of the chat is still there. */
  predicate Doubles(s: State, e: Event) {
    e.Enqueue? && e.chat !in s.consumers && HasConsumer(s, e.chat)
  }

  /** A step adds a consumer only by starting one for a chat without an entry; consumers never change their chat. */
  lemma ConsumersAfter(s: State, e: Event, c: nat)
    requires Valid(s) && Enabled(s, e) && c < |Next(s, e).channels| && Live(Next(s, e).channels[c])
    ensures c < |s.channels| ==> Live(s.channels[c]) && s.channels[c].chat == Next(s, e).channels[c].chat
    ensures c >= |s.channels| ==> e.Enqueue? && e.chat !in s.consumers && Next(s, e).channels[c].chat == e.chat
  {
    hide ChannelsValid, PlacesMatch, AnswersMatch, Tell;
  }

  lemma NewConsumer(s: State, e: Event)
    requires Valid(s) && e.Enqueue? && e.chat !in s.consumers
    ensures var s' := Next(s, e);
            |s'.channels| == |s.channels| + 1 && s'.channels[|s.channels|].phase == Processing
            && s'.channels[|s.channels|].chat == e.chat && s'.channels[..|s.channels|] == s.channels
  {
    hide ChannelsValid, PlacesMatch, AnswersMatch;
  }

  lemma ProcessingIsLive(c: Channel)
    requires c.phase == Processing
    ensures Live(c)
  {
  }

  /** A step gives a chat a second consumer exactly when it is such an enqueue. */
  lemma StepSingleIff(s: State, e: Event)
    requires Valid(s) && Single(s) && Enabled(s, e) && |s.answers| == |s.tickets|
    ensures Single(Next(s, e)) <==> !Doubles(s, e)
  {
    hide Valid, Live, Next;
    var s' := Next(s, e);
    if !Single(s') {
      var c, d :| 0 <= c < |s'.channels| && 0 <= d < |s'.channels| && c != d && Live(s'.channels[c])
        && Live(s'.channels[d]) && s'.channels[c].chat == s'.channels[d].chat;
      ConsumersAfter(s, e, c);
      ConsumersAfter(s, e, d);
      ChannelsGrow(s, e);
      assert c >= |s.channels| || d >= |s.channels|;
    }
    if Doubles(s, e) {
      NewConsumer(s, e);
      ProcessingIsLive(s'.channels[|s.channels|]);
      var d :| 0 <= d < |s.channels| && Live(s.channels[d]) && s.channels[d].chat == e.chat;
      assert s'.channels[..|s.channels|][d] == s'.channels[d];
    }
  }

  lemma ChannelsGrow(s: State, e: Event)
    requires Valid(s) && Enabled(s, e)
    ensures |s.channels| <= |Next(s, e).channels| <= |s.channels| + 1
  {
    hide ChannelsValid, PlacesMatch, AnswersMatch, Tell;
  }

  predicate AlwaysSingle(s: State, events: seq<Event>)
    requires Possible(s, events)
    decreases |events|
  {
    Single(s) && (events == [] || AlwaysSingle(Next(s, events[0]), events[1..]))
  }

  predicate NeverDoubles(s: State, events: seq<Event>)
    requires Possible(s, events)
    decreases |events|
  {
    events == [] || (!Doubles(s, events[0]) && NeverDoubles(Next(s, events[0]), events[1..]))
  }

  /**
   * Over every run, panics included: a chat never has two consumers if and only if no message for a chat without an entry
   * arrives while a consumer of the chat is still there.
   */
  lemma {:induction false} SingleIffNeverDoubles(s: State, events: seq<Event>)
    requires Valid(s) && Single(s) && Possible(s, events)
    ensures AlwaysSingle(s, events) <==> NeverDoubles(s, events)
    decreases |events|
  {
    hide Valid, Single, Next, Doubles;
    if events != [] {
      StepIsValid(s, events[0]);
      StepSingleIff(s, events[0]);
      if Single(Next(s, events[0])) {
        SingleIffNeverDoubles(Next(s, events[0]), events[1..]);
      }
    }
  }

  // ---- Consumers and their entries ----

  /** A consumer that is still there is the one its chat's entry leads to. */
  predicate Owned(s: State) {
    forall c :: 0 <= c < |s.channels| && Live(s.channels[c]) ==> HasSender(s, c)
  }

  /** The message finds an entry whose consumer has dropped its receiver and not yet removed the entry. */
  predicate Evicts(s: State, e: Event) {
    && e.Enqueue? && e.chat in s.consumers && s.consumers[e.chat] < |s.channels|
    && s.channels[s.consumers[e.chat]].phase == Leaving
  }

  /** Two consumers of one chat cannot both have its entry. */
  lemma OwnedIsSingle(s: State)
    requires Owned(s)
    ensures Single(s)
  {
  }

  /** A step leaves each chat's consumer its entry exactly when it is not such an enqueue. */
  lemma StepOwnedIff(s: State, e: Event)
    requires Valid(s) && Owned(s) && Enabled(s, e)
    ensures Owned(Next(s, e)) <==> !Evicts(s, e)
  {
    hide ChannelsValid, PlacesMatch, AnswersMatch, Tell;
    var s' := Next(s, e);
    if Evicts(s, e) {
      var c := s.consumers[e.chat];
      assert s'.channels[c] == s.channels[c] && Live(s'.channels[c]) && !HasSender(s', c);
    } else {
      forall c | 0 <= c < |s'.channels| && Live(s'.channels[c]) ensures HasSender(s', c) {
        assert c < |s.channels| && Live(s.channels[c]) ==> HasSender(s, c);
      }
    }
  }

  predicate AlwaysOwned(s: State, events: seq<Event>)
    requires Possible(s, events)
    decreases |events|
  {
    Owned(s) && (events == [] || AlwaysOwned(Next(s, events[0]), events[1..]))
  }

  predicate NeverEvicts(s: State, events: seq<Event>)
    requires Possible(s, events)
    decreases |events|
  {
    events == [] || (!Evicts(s, events[0]) && NeverEvicts(Next(s, events[0]), events[1..]))
  }

  /**
   * Over every run, panics included: each consumer keeps its chat's entry if and only if no message arrives between the
   * drop of a receiver and the removal of its entry.
   */
  lemma {:induction false} OwnedIffNeverEvicts(s: State, events: seq<Event>)
    requires Valid(s) && Owned(s) && Possible(s, events)
    ensures AlwaysOwned(s, events) <==> NeverEvicts(s, events)
    decreases |events|
  {
    hide Valid, Owned, Next, Evicts;
    if events != [] {
      StepIsValid(s, events[0]);
      StepOwnedIff(s, events[0]);
      if Owned(Next(s, events[0])) {
        OwnedIffNeverEvicts(Next(s, events[0]), events[1..]);
      }
    }
  }

  // ---- The window loses messages ----

  /** The message is on no channel, or on one that takes nothing any more. */
  predicate Doomed(s: State, u: nat)
    requires u < |s.tickets| && TicketPlaced(s, u)
  {
    var p := s.tickets[u].place;
    p.In? ==> s.channels[p.channel].phase in {Expired, Leaving, Gone, Crashed} && p.index >= s.channels[p.channel].taken
  }

  lemma {:induction false} DoomedForever(s: State, events: seq<Event>, u: nat)
    requires Valid(s) && Possible(s, events) && u < |s.tickets| && TicketPlaced(s, u) && Doomed(s, u)
    ensures u < |Run(s, events).tickets| && TicketPlaced(Run(s, events), u)
    ensures Doomed(Run(s, events), u) && !Started(Run(s, events), u)
    ensures StartCount(s, events, u) == 0
    decreases |events|
  {
    hide Valid, Next, Starts, Started, TicketPlaced, Doomed;
    if events == [] {
      DoomedIsNotStarted(s, u);
    } else {
      StepIsValid(s, events[0]);
      DoomedStep(s, events[0], u);
      DoomedForever(Next(s, events[0]), events[1..], u);
    }
  }

  lemma DoomedIsNotStarted(s: State, u: nat)
    requires u < |s.tickets| && TicketPlaced(s, u) && Doomed(s, u)
    ensures !Started(s, u)
  {
  }

  lemma DoomedStep(s: State, e: Event, u: nat)
    requires Valid(s) && Enabled(s, e) && Valid(Next(s, e)) && u < |s.tickets| && TicketPlaced(s, u) && Doomed(s, u)
    ensures u < |Next(s, e).tickets| && TicketPlaced(Next(s, e), u) && Doomed(Next(s, e), u)
    ensures !Starts(s, e, u)
  {
    hide AnswersMatch, MapValid, Tell;
    TicketOfValid(Next(s, e), u);
    if e.Receive? {
      assert PositionFilled(s, e.channel, s.channels[e.channel].taken);
    }
  }

  /** In every state: a message that finds its chat's entry leading to a consumer that has ended, and only such a one, is
      never processed. */
  lemma WindowLosesExactly(s: State, chat: string, waits: bool)
    requires Valid(s)
    ensures var s' := Next(s, Enqueue(chat, waits));
            && Valid(s') && TicketPlaced(s', |s.tickets|)
            && (Doomed(s', |s.tickets|)
                <==> chat in s.consumers && s.consumers[chat] < |s.channels|
                     && s.channels[s.consumers[chat]].phase !in {Processing, Idle})
  {
    hide AnswersMatch, PositionFilled;
    var s' := Next(s, Enqueue(chat, waits));
    EnqueueIsValid(s, chat, waits);
    TicketOfValid(s', |s.tickets|);
    if chat in s.consumers && s.consumers[chat] < |s.channels| {
      var c := s.consumers[chat];
      assert ChannelValid(s.channels[c]);
      if Open(s.channels[c]) {
        assert s'.tickets[|s.tickets|].place == In(c, |s.channels[c].received|);
      } else {
        assert s'.tickets[|s.tickets|].place == Rejected;
      }
    }
  }

  // ---- Panics ----

  /** A panic loses the message in processing and all that wait behind it, and changes no other message's fate. */
  lemma CrashLosesExactly(s: State, c: nat, u: nat)
    requires Valid(s) && Enabled(s, Crash(c)) && u < |s.tickets|
    ensures var s' := Next(s, Crash(c));
            && Valid(s') && TicketPlaced(s, u) && u < |s'.tickets| && TicketPlaced(s', u)
            && StatusOf(s', u) == if s.tickets[u].place.In? && s.tickets[u].place.channel == c && !StatusOf(s, u).Done?
                                  then Lost else StatusOf(s, u)
  {
    hide AnswersMatch, MapValid, PositionFilled;
    CrashIsValid(s, c);
    TicketOfValid(s, u);
    TicketOfValid(Next(s, Crash(c)), u);
    assert ChannelValid(s.channels[c]);
  }

  /** The crashed consumer's entry stays; the next message of its chat is turned away and clears it. */
  lemma CrashTurnsNextAway(s: State, c: nat, waits: bool)
    requires Valid(s) && Enabled(s, Crash(c)) && HasSender(s, c)
    ensures var chat := s.channels[c].chat;
            var crashed := Next(s, Crash(c));
            var next := Next(crashed, Enqueue(chat, waits));
            && HasSender(crashed, c)
            && next.tickets[|s.tickets|].place == Rejected && chat !in next.consumers
            && next.answers[|s.tickets|] == (if waits then [false] else [])
            && Starts(next, Enqueue(chat, waits), |next.tickets|)
  {
    hide AnswersMatch, PlacesMatch;
  }

  // ---- Leaving in one step ----

  /** A consumer with an empty channel leaves and removes its entry at once. */
  function LeaveAtOnce(s: State, c: nat): State
    requires Enabled(s, Timeout(c)) && |s.answers| == |s.tickets|
  {
    Next(Next(Next(s, Timeout(c)), DropReceiver(c)), RemoveEntry(c))
  }

  datatype AtomicStep = One(event: Event) | Leave(channel: nat)

  /** No consumer is between its end and the removal of its entry. */
  predicate NoWindow(s: State) {
    forall c :: 0 <= c < |s.channels| ==> s.channels[c].phase in {Processing, Idle, Gone, Crashed}
  }

  predicate AtomicEnabled(s: State, a: AtomicStep) {
    match a
    case One(e) => Enabled(s, e) && (e.Enqueue? || e.Finish? || e.Crash? || e.Receive?)
    case Leave(c) => Enabled(s, Timeout(c))
  }

  function AtomicNext(s: State, a: AtomicStep): State
    requires AtomicEnabled(s, a) && |s.answers| == |s.tickets|
  {
    match a
    case One(e) => Next(s, e)
    case Leave(c) => LeaveAtOnce(s, c)
  }

  lemma NoWindowIsQuiet(s: State, e: Event)
    requires Serial(s) && NoWindow(s) && !e.Crash?
    ensures Quiet(s, e)
  {
    if e.Enqueue? && e.chat in s.consumers {
      assert EntryIsLive(s, e.chat);
    }
  }

  lemma AtomicStepIsSerial(s: State, a: AtomicStep)
    requires Valid(s) && Serial(s) && NoWindow(s) && AtomicEnabled(s, a) && !(a.One? && a.event.Crash?)
    ensures Serial(AtomicNext(s, a))
  {
    hide ChannelsValid, PlacesMatch, AnswersMatch, Serial, Tell;
    match a
    case One(e) =>
      NoWindowIsQuiet(s, e);
      QuietStepIsSerial(s, e);
    case Leave(c) =>
      StepIsValid(s, Timeout(c));
      QuietStepIsSerial(s, Timeout(c));
      var s1 := Next(s, Timeout(c));
      StepIsValid(s1, DropReceiver(c));
      QuietStepIsSerial(s1, DropReceiver(c));
      QuietStepIsSerial(Next(s1, DropReceiver(c)), RemoveEntry(c));
  }

  lemma AtomicStepIsOwned(s: State, a: AtomicStep)
    requires Valid(s) && Owned(s) && NoWindow(s) && AtomicEnabled(s, a)
    ensures Valid(AtomicNext(s, a)) && Owned(AtomicNext(s, a)) && NoWindow(AtomicNext(s, a))
  {
    hide ChannelsValid, PlacesMatch, AnswersMatch, Owned, Tell;
    match a
    case One(e) =>
      StepIsValid(s, e);
      StepOwnedIff(s, e);
    case Leave(c) =>
      StepIsValid(s, Timeout(c));
      StepOwnedIff(s, Timeout(c));
      var s1 := Next(s, Timeout(c));
      StepIsValid(s1, DropReceiver(c));
      StepOwnedIff(s1, DropReceiver(c));
      var s2 := Next(s1, DropReceiver(c));
      StepIsValid(s2, RemoveEntry(c));
      StepOwnedIff(s2, RemoveEntry(c));
  }

  predicate AtomicPossible(s: State, steps: seq<AtomicStep>)
    decreases |steps|
  {
    |s.answers| == |s.tickets|
    && (steps == [] || (AtomicEnabled(s, steps[0]) && AtomicPossible(AtomicNext(s, steps[0]), steps[1..])))
  }

  function AtomicRun(s: State, steps: seq<AtomicStep>): State
    requires AtomicPossible(s, steps)
    decreases |steps|
  {
    if steps == [] then s else AtomicRun(AtomicNext(s, steps[0]), steps[1..])
  }

  predicate NeverPanics(steps: seq<AtomicStep>) {
    forall k :: 0 <= k < |steps| ==> !(steps[k].One? && steps[k].event.Crash?)
  }

  /** Had a consumer left in one step, a chat would have one consumer at most in every run, panics included. */
  lemma {:induction false} AtomicRunIsOwned(s: State, steps: seq<AtomicStep>)
    requires Valid(s) && Owned(s) && NoWindow(s) && AtomicPossible(s, steps)
    ensures Valid(AtomicRun(s, steps)) && Owned(AtomicRun(s, steps)) && Single(AtomicRun(s, steps))
    decreases |steps|
  {
    hide ChannelsValid, PlacesMatch, MapValid, AnswersMatch, Owned, Single, NoWindow, AtomicNext;
    OwnedIsSingle(s);
    if steps != [] {
      AtomicStepIsOwned(s, steps[0]);
      AtomicRunIsOwned(AtomicNext(s, steps[0]), steps[1..]);
    }
  }

  lemma SerialIsOwned(s: State)
    requires Serial(s)
    ensures Owned(s)
  {
    forall c | 0 <= c < |s.channels| && Live(s.channels[c]) ensures HasSender(s, c) {
      assert OwnsEntry(s, c);
    }
  }

  /** And without panics every run would be serial, and lose nothing. */
  lemma {:induction false} AtomicRunIsSerial(s: State, steps: seq<AtomicStep>)
    requires Valid(s) && Serial(s) && NoWindow(s) && AtomicPossible(s, steps) && NeverPanics(steps)
    ensures Valid(AtomicRun(s, steps)) && Serial(AtomicRun(s, steps))
    decreases |steps|
  {
    hide ChannelsValid, PlacesMatch, MapValid, AnswersMatch, Serial, Owned, NoWindow, AtomicNext;
    if steps != [] {
      SerialIsOwned(s);
      AtomicStepIsSerial(s, steps[0]);
      AtomicStepIsOwned(s, steps[0]);
      AtomicRunIsSerial(AtomicNext(s, steps[0]), steps[1..]);
    }
  }

  // ---- Where the source falls short ----

  /** One consumer has processed one message and dropped its receiver; its entry is still there. */
  function EntryLeft(chat: string): State {
    State(map[chat := 0], [Channel(chat, [0], 1, [true], Leaving)], [Ticket(chat, false, In(0, 0))], [[]])
  }

  function SecondConsumer(chat: string): State {
    State(map[chat := 1],
          [Channel(chat, [0], 1, [true], Leaving), Channel(chat, [2], 1, [], Processing)],
          [Ticket(chat, false, In(0, 0)), Ticket(chat, false, Rejected), Ticket(chat, false, In(1, 0))],
          [[], [], []])
  }

  function ThirdConsumer(chat: string): State {
    State(map[chat := 2],
          [Channel(chat, [0], 1, [true], Gone), Channel(chat, [2], 1, [], Processing),
           Channel(chat, [3], 1, [], Processing)],
          [Ticket(chat, false, In(0, 0)), Ticket(chat, false, Rejected), Ticket(chat, false, In(1, 0)),
           Ticket(chat, false, In(2, 0))],
          [[], [], [], []])
  }

  /** The same state while its consumer is in another phase. */
  function FirstConsumer(chat: string, results: seq<bool>, phase: Phase): State {
    EntryLeft(chat).(channels := [Channel(chat, [0], 1, results, phase)])
  }

  lemma EntryIsLeft(chat: string)
    ensures Next(START, Enqueue(chat, false)) == FirstConsumer(chat, [], Processing)
    ensures Next(FirstConsumer(chat, [], Processing), Finish(0, true)) == FirstConsumer(chat, [true], Idle)
    ensures Next(FirstConsumer(chat, [true], Idle), Timeout(0)) == FirstConsumer(chat, [true], Expired)
    ensures Next(FirstConsumer(chat, [true], Expired), DropReceiver(0)) == EntryLeft(chat)
  {
    var none: seq<bool> := [];
    assert none + [true] == [true];
    assert Next(FirstConsumer(chat, [], Processing), Finish(0, true)).channels == [Channel(chat, [0], 1, [true], Idle)];
    assert Next(FirstConsumer(chat, [], Processing), Finish(0, true)).answers == [[]];
    assert Next(FirstConsumer(chat, [true], Idle), Timeout(0)).answers == [[]];
    assert Next(FirstConsumer(chat, [true], Expired), DropReceiver(0)).answers == [[]];
  }

  lemma ReachesEntryLeft(chat: string, rest: seq<Event>)
    requires Possible(EntryLeft(chat), rest)
    ensures var events := [Enqueue(chat, false), Finish(0, true), Timeout(0), DropReceiver(0)] + rest;
            Possible(START, events) && Run(START, events) == Run(EntryLeft(chat), rest)
  {
    var s1 := Next(START, Enqueue(chat, false));
    var s2 := Next(s1, Finish(0, true));
    var s3 := Next(s2, Timeout(0));
    var s4 := Next(s3, DropReceiver(0));
    EntryIsLeft(chat);
    hide Next, Enabled;
    RunsAre(s3, DropReceiver(0), rest);
    RunsAre(s2, Timeout(0), [DropReceiver(0)] + rest);
    RunsAre(s1, Finish(0, true), [Timeout(0)] + ([DropReceiver(0)] + rest));
    RunsAre(START, Enqueue(chat, false), [Finish(0, true)] + ([Timeout(0)] + ([DropReceiver(0)] + rest)));
    assert [Enqueue(chat, false), Finish(0, true), Timeout(0), DropReceiver(0)] + rest
        == [Enqueue(chat, false)] + ([Finish(0, true)] + ([Timeout(0)] + ([DropReceiver(0)] + rest)));
  }

  lemma ReachesSecondConsumer(chat: string, rest: seq<Event>)
    requires Possible(SecondConsumer(chat), rest)
    ensures var events := [Enqueue(chat, false), Enqueue(chat, false)] + rest;
            Possible(EntryLeft(chat), events) && Run(EntryLeft(chat), events) == Run(SecondConsumer(chat), rest)
  {
    var s1 := Next(EntryLeft(chat), Enqueue(chat, false));
    var s2 := Next(s1, Enqueue(chat, false));
    assert s2 == SecondConsumer(chat);
    hide Next, Enabled;
    RunsAre(s1, Enqueue(chat, false), rest);
    RunsAre(EntryLeft(chat), Enqueue(chat, false), [Enqueue(chat, false)] + rest);
    assert [Enqueue(chat, false), Enqueue(chat, false)] + rest == [Enqueue(chat, false)] + ([Enqueue(chat, false)] + rest);
  }

  lemma ReachesThirdConsumer(chat: string)
    ensures var events := [RemoveEntry(0), Enqueue(chat, false)];
            Possible(SecondConsumer(chat), events) && Run(SecondConsumer(chat), events) == ThirdConsumer(chat)
  {
    var s1 := Next(SecondConsumer(chat), RemoveEntry(0));
    assert s1.answers == [[], [], []];
    var s2 := Next(s1, Enqueue(chat, false));
    assert s2 == ThirdConsumer(chat);
    hide Next, Enabled;
    RunsAre(s1, Enqueue(chat, false), []);
    RunsAre(SecondConsumer(chat), RemoveEntry(0), [Enqueue(chat, false)] + []);
    assert [RemoveEntry(0)] + ([Enqueue(chat, false)] + []) == [RemoveEntry(0), Enqueue(chat, false)];
  }

  /** After an enqueue inside the window, one message is lost and two consumers of the chat are at work at once. */
  lemma TwoConsumersOfOneChat(chat: string)
    ensures var events := [Enqueue(chat, false), Finish(0, true), Timeout(0), DropReceiver(0), Enqueue(chat, false),
                           Enqueue(chat, false), RemoveEntry(0), Enqueue(chat, false)];
            && Possible(START, events)
            && Run(START, events) == ThirdConsumer(chat)
    ensures var s := ThirdConsumer(chat);
            && TicketPlaced(s, 1) && TicketPlaced(s, 2) && TicketPlaced(s, 3)
            && StatusOf(s, 1) == Lost && StatusOf(s, 2) == StatusOf(s, 3) == Running
  {
    hide Next, Enabled, Possible, Run;
    var last := [RemoveEntry(0), Enqueue(chat, false)];
    ReachesThirdConsumer(chat);
    ReachesSecondConsumer(chat, last);
    ReachesEntryLeft(chat, [Enqueue(chat, false), Enqueue(chat, false)] + last);
    assert [Enqueue(chat, false), Finish(0, true), Timeout(0), DropReceiver(0)]
             + ([Enqueue(chat, false), Enqueue(chat, false)] + last)
        == [Enqueue(chat, false), Finish(0, true), Timeout(0), DropReceiver(0), Enqueue(chat, false),
            Enqueue(chat, false), RemoveEntry(0), Enqueue(chat, false)];
  }

  lemma RunsAre(s: State, e: Event, rest: seq<Event>)
    requires |s.answers| == |s.tickets| && Enabled(s, e) && Possible(Next(s, e), rest)
    ensures Possible(s, [e] + rest) && Run(s, [e] + rest) == Run(Next(s, e), rest)
  {
    hide Next, Enabled;
    assert ([e] + rest)[1..] == rest;
  }

  lemma StartIsSerial()
    ensures Serial(START) && Owned(START) && Single(START) && NoWindow(START)
  {
  }
}
