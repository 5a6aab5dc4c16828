/**
 * The per-chat message queue as a step relation over a locked map of channels and their consumers.
 *
 * A message is named by its ticket, the number of messages enqueued before it. A consumer leaves in three steps, as
 * in the source: its wait ends, its receiver is dropped, and later it removes the map entry of its chat.
 */
module ChatQueue {

  /** Where a message went: to a position of a channel, or nowhere because the channel was closed. */
  datatype Place = In(channel: nat, index: nat) | Rejected

  datatype Ticket = Ticket(chat: string, waits: bool, place: Place)

  datatype Phase = Processing | Idle | Expired | Leaving | Gone | Crashed

  /** `received` holds tickets in order of arrival; the first `taken` were started, `results` tells how they ended. */
  datatype Channel = Channel(chat: string, received: seq<nat>, taken: nat, results: seq<bool>, phase: Phase)

  /** `answers` lists, per ticket, what its waiter was told. */
  datatype State = State(consumers: map<string, nat>, channels: seq<Channel>, tickets: seq<Ticket>,
                         answers: seq<seq<bool>>)

  const START := State(map[], [], [], [])

  datatype Event =
    | Enqueue(chat: string, waits: bool)
    | Finish(channel: nat, ok: bool)
    | Crash(channel: nat)
    | Receive(channel: nat)
    | Timeout(channel: nat)
    | Closed(channel: nat)
    | DropReceiver(channel: nat)
    | RemoveEntry(channel: nat)

  /** The receiver still exists, so a send succeeds. */
  predicate Open(c: Channel) {
    c.phase in {Processing, Idle, Expired}
  }

  predicate HasSender(s: State, c: nat)
    requires c < |s.channels|
  {
    var chat := s.channels[c].chat;
    chat in s.consumers && s.consumers[chat] == c
  }

  predicate Enabled(s: State, e: Event) {
    match e
    case Enqueue(_, _) => true
    case Finish(c, _) => c < |s.channels| && s.channels[c].phase == Processing
    case Crash(c) => c < |s.channels| && s.channels[c].phase == Processing
    case Receive(c) =>
      c < |s.channels| && s.channels[c].phase == Idle && s.channels[c].taken < |s.channels[c].received|
    case Timeout(c) =>
      c < |s.channels| && s.channels[c].phase == Idle && s.channels[c].taken == |s.channels[c].received|
    case Closed(c) =>
      c < |s.channels| && s.channels[c].phase == Idle && s.channels[c].taken == |s.channels[c].received|
      && !HasSender(s, c)
    case DropReceiver(c) => c < |s.channels| && s.channels[c].phase == Expired
    case RemoveEntry(c) => c < |s.channels| && s.channels[c].phase == Leaving
  }

  /** Whether the message of ticket `u` is at one of the positions `from` to `to` of channel `c`. */
  predicate Within(s: State, u: nat, c: nat, from: nat, to: nat)
    requires u < |s.tickets|
  {
    var p := s.tickets[u].place;
    p.In? && p.channel == c && from <= p.index < to
  }

  /** One more answer to each waiter whose message is at one of these positions. */
  function Tell(s: State, c: nat, from: nat, to: nat, answer: bool): (r: seq<seq<bool>>)
    requires |s.answers| == |s.tickets|
    ensures |r| == |s.answers|
    ensures forall u :: 0 <= u < |s.answers| ==>
              r[u] == if s.tickets[u].waits && Within(s, u, c, from, to) then s.answers[u] + [answer] else s.answers[u]
  {
    seq(|s.answers|, u requires 0 <= u < |s.answers| =>
      if s.tickets[u].waits && Within(s, u, c, from, to) then s.answers[u] + [answer] else s.answers[u])
  }

  /** Channel `c` becomes `ch`; the waiters at positions `from` to `to` are told `answer`. */
  function Update(s: State, c: nat, ch: Channel, from: nat, to: nat, answer: bool): State
    requires c < |s.channels| && |s.answers| == |s.tickets|
  {
    s.(channels := s.channels[c := ch], answers := Tell(s, c, from, to, answer))
  }

  function Next(s: State, e: Event): State
    requires Enabled(s, e) && |s.answers| == |s.tickets|
  {
    match e
    case Enqueue(chat, waits) => EnqueueInner(s, chat, waits)
    case Finish(c, ok) =>
      var ch := s.channels[c];
      Update(s, c, ch.(results := ch.results + [ok], phase := Idle), |ch.results|, |ch.results| + 1, ok)
    case Crash(c) =>
      var ch := s.channels[c];
      Update(s, c, ch.(phase := Crashed), |ch.results|, |ch.received|, false)
    case Receive(c) =>
      var ch := s.channels[c];
      Update(s, c, ch.(taken := ch.taken + 1, phase := Processing), 0, 0, false)
    case Timeout(c) => Update(s, c, s.channels[c].(phase := Expired), 0, 0, false)
    case Closed(c) => Update(s, c, s.channels[c].(phase := Expired), 0, 0, false)
    case DropReceiver(c) =>
      var ch := s.channels[c];
      Update(s, c, ch.(phase := Leaving), ch.taken, |ch.received|, false)
    case RemoveEntry(c) =>
      Update(s, c, s.channels[c].(phase := Gone), 0, 0, false).(consumers := s.consumers - {s.channels[c].chat})
  }

  /** With the map locked: send to the chat's channel, or drop its entry if that is closed, or start a consumer. */
  function EnqueueInner(s: State, chat: string, waits: bool): State {
    if chat in s.consumers && s.consumers[chat] < |s.channels| then
      if Open(s.channels[s.consumers[chat]]) then Queued(s, s.consumers[chat], chat, waits)
      else Refused(s, chat, waits)
    else Spawned(s, chat, waits)
  }

  function Queued(s: State, c: nat, chat: string, waits: bool): State
    requires c < |s.channels|
  {
    var ch := s.channels[c];
    s.(channels := s.channels[c := ch.(received := ch.received + [|s.tickets|])],
       tickets := s.tickets + [Ticket(chat, waits, In(c, |ch.received|))],
       answers := s.answers + [[]])
  }

  function Refused(s: State, chat: string, waits: bool): State {
    s.(consumers := s.consumers - {chat},
       tickets := s.tickets + [Ticket(chat, waits, Rejected)],
       answers := s.answers + [if waits then [false] else []])
  }

  function Spawned(s: State, chat: string, waits: bool): State {
    State(s.consumers[chat := |s.channels|],
          s.channels + [Channel(chat, [|s.tickets|], 1, [], Processing)],
          s.tickets + [Ticket(chat, waits, In(|s.channels|, 0))],
          s.answers + [[]])
  }

  // ---- What every step keeps ----

  predicate ChannelValid(c: Channel) {
    && |c.results| <= c.taken <= |c.received|
    && (c.phase in {Processing, Crashed} ==> c.taken == |c.results| + 1)
    && (c.phase in {Idle, Expired, Leaving, Gone} ==> c.taken == |c.results|)
  }

  predicate MapValid(s: State) {
    forall chat :: chat in s.consumers ==>
      s.consumers[chat] < |s.channels| && s.channels[s.consumers[chat]].chat == chat
  }

  /** The ticket is at the position it names. */
  predicate TicketPlaced(s: State, u: nat)
    requires u < |s.tickets|
  {
    var p := s.tickets[u].place;
    p.In? ==>
      && p.channel < |s.channels| && p.index < |s.channels[p.channel].received|
      && s.channels[p.channel].received[p.index] == u && s.channels[p.channel].chat == s.tickets[u].chat
  }

  /** The position holds the ticket that names it, behind older tickets. */
  predicate PositionFilled(s: State, c: nat, i: nat)
    requires c < |s.channels| && i < |s.channels[c].received|
  {
    var u := s.channels[c].received[i];
    && u < |s.tickets| && s.tickets[u].place == In(c, i)
    && (i > 0 ==> s.channels[c].received[i - 1] < u)
  }

  /** Tickets and channel positions correspond one to one. */
  predicate PlacesMatch(s: State) {
    && (forall u :: 0 <= u < |s.tickets| ==> TicketPlaced(s, u))
    && (forall c, i :: 0 <= c < |s.channels| && 0 <= i < |s.channels[c].received| ==> PositionFilled(s, c, i))
  }

  datatype Status = Waiting | Running | Done(ok: bool) | Lost

  function StatusAt(c: Channel, i: nat): Status
    requires i < |c.received|
  {
    if i < |c.results| then Done(c.results[i])
    else if i < c.taken then (if c.phase == Processing then Running else Lost)
    else if Open(c) then Waiting
    else Lost
  }

  function StatusOf(s: State, u: nat): Status
    requires u < |s.tickets| && TicketPlaced(s, u)
  {
    var p := s.tickets[u].place;
    if p.In? then StatusAt(s.channels[p.channel], p.index) else Lost
  }

  /** What a waiter has been told, given what became of its message. */
  function Due(waits: bool, status: Status): seq<bool> {
    if !waits then []
    else
      match status
      case Done(ok) => [ok]
      case Lost => [false]
      case _ => []
  }

  predicate AnswersMatch(s: State)
    requires PlacesMatch(s) && |s.answers| == |s.tickets|
  {
    forall u :: 0 <= u < |s.tickets| ==> s.answers[u] == Due(s.tickets[u].waits, StatusOf(s, u))
  }

  predicate ChannelsValid(s: State) {
    forall c :: 0 <= c < |s.channels| ==> ChannelValid(s.channels[c])
  }

  predicate Valid(s: State) {
    ChannelsValid(s) && MapValid(s) && PlacesMatch(s) && |s.answers| == |s.tickets| && AnswersMatch(s)
  }

  // ---- Changes of one channel ----

  lemma UpdateKeepsPlaces(s: State, c: nat, ch: Channel, from: nat, to: nat, answer: bool)
    requires Valid(s) && c < |s.channels| && ChannelValid(ch)
    requires ch.received == s.channels[c].received && ch.chat == s.channels[c].chat
    ensures var s' := Update(s, c, ch, from, to, answer); ChannelsValid(s') && MapValid(s') && PlacesMatch(s')
  {
    hide AnswersMatch, Tell, ChannelValid;
    var s' := Update(s, c, ch, from, to, answer);
    forall u | 0 <= u < |s'.tickets| ensures TicketPlaced(s', u) {
      assert TicketPlaced(s, u);
    }
    forall k, i | 0 <= k < |s'.channels| && 0 <= i < |s'.channels[k].received| ensures PositionFilled(s', k, i) {
      assert PositionFilled(s, k, i);
    }
  }

  /** The answers stay right if exactly the positions told change from open to that answer. */
  lemma UpdateKeepsAnswers(s: State, c: nat, ch: Channel, from: nat, to: nat, answer: bool)
    requires Valid(s) && c < |s.channels| && ChannelValid(ch)
    requires ch.received == s.channels[c].received && ch.chat == s.channels[c].chat
    requires forall i :: 0 <= i < |ch.received| ==>
               Due(true, StatusAt(ch, i))
               == Due(true, StatusAt(s.channels[c], i)) + (if from <= i < to then [answer] else [])
    ensures Valid(Update(s, c, ch, from, to, answer))
  {
    UpdateKeepsPlaces(s, c, ch, from, to, answer);
    var s' := Update(s, c, ch, from, to, answer);
    hide ChannelsValid, MapValid, PlacesMatch, StatusAt;
    forall u | 0 <= u < |s'.tickets| ensures s'.answers[u] == Due(s'.tickets[u].waits, StatusOf(s', u)) {
      PlacedTicket(s, u);
      PlacedTicket(s', u);
      var p := s.tickets[u].place;
      if p.In? && p.channel == c {
        assert StatusOf(s', u) == StatusAt(ch, p.index) && StatusOf(s, u) == StatusAt(s.channels[c], p.index);
      }
    }
  }

  lemma PlacedTicket(s: State, u: nat)
    requires PlacesMatch(s) && u < |s.tickets|
    ensures TicketPlaced(s, u)
  {
  }

  // ---- Enqueueing ----

  lemma QueuedIsValid(s: State, c: nat, chat: string, waits: bool)
    requires Valid(s) && c < |s.channels| && Open(s.channels[c]) && s.channels[c].chat == chat
    ensures Valid(Queued(s, c, chat, waits))
  {
    var s' := Queued(s, c, chat, waits);
    QueuedKeepsPlaces(s, c, chat, waits);
    hide ChannelsValid, MapValid, PlacesMatch;
    forall u | 0 <= u < |s.tickets| ensures TicketPlaced(s', u) && StatusOf(s', u) == StatusOf(s, u) {
      PlacedTicket(s, u);
      PlacedTicket(s', u);
    }
    PlacedTicket(s', |s.tickets|);
    LastIsWaiting(s'.channels[c]);
  }

  lemma LastIsWaiting(c: Channel)
    requires ChannelValid(c) && Open(c) && c.taken < |c.received|
    ensures StatusAt(c, |c.received| - 1) == Waiting
  {
  }

  lemma QueuedKeepsPlaces(s: State, c: nat, chat: string, waits: bool)
    requires Valid(s) && c < |s.channels| && s.channels[c].chat == chat
    ensures var s' := Queued(s, c, chat, waits); ChannelsValid(s') && MapValid(s') && PlacesMatch(s')
    ensures ChannelValid(Queued(s, c, chat, waits).channels[c])
    ensures var ch := s.channels[c]; ch.taken <= |ch.received|
  {
    hide AnswersMatch;
    var s' := Queued(s, c, chat, waits);
    assert ChannelValid(s.channels[c]);
    forall u | 0 <= u < |s'.tickets| ensures TicketPlaced(s', u) {
      if u < |s.tickets| {
        assert TicketPlaced(s, u);
      }
    }
    forall k, i | 0 <= k < |s'.channels| && 0 <= i < |s'.channels[k].received| ensures PositionFilled(s', k, i) {
      if i < |s.channels[k].received| {
        assert PositionFilled(s, k, i);
      } else if i > 0 {
        assert PositionFilled(s, k, i - 1);
      }
    }
  }

  lemma RefusedIsValid(s: State, chat: string, waits: bool)
    requires Valid(s)
    ensures Valid(Refused(s, chat, waits))
  {
    var s' := Refused(s, chat, waits);
    forall u | 0 <= u < |s'.tickets| ensures TicketPlaced(s', u) {
      if u < |s.tickets| {
        assert TicketPlaced(s, u);
      }
    }
    forall k, i | 0 <= k < |s'.channels| && 0 <= i < |s'.channels[k].received| ensures PositionFilled(s', k, i) {
      assert PositionFilled(s, k, i);
    }
    assert PlacesMatch(s');
    hide ChannelsValid, PlacesMatch, StatusAt;
    forall u | 0 <= u < |s.tickets| ensures StatusOf(s', u) == StatusOf(s, u) {
      PlacedTicket(s, u);
    }
  }

  lemma SpawnedIsValid(s: State, chat: string, waits: bool)
    requires Valid(s)
    ensures Valid(Spawned(s, chat, waits))
  {
    var s' := Spawned(s, chat, waits);
    SpawnedKeepsPlaces(s, chat, waits);
    hide ChannelsValid, MapValid, PlacesMatch;
    forall u | 0 <= u < |s.tickets| ensures TicketPlaced(s', u) && StatusOf(s', u) == StatusOf(s, u) {
      PlacedTicket(s, u);
      PlacedTicket(s', u);
    }
    PlacedTicket(s', |s.tickets|);
  }

  lemma SpawnedKeepsPlaces(s: State, chat: string, waits: bool)
    requires Valid(s)
    ensures var s' := Spawned(s, chat, waits); ChannelsValid(s') && MapValid(s') && PlacesMatch(s')
  {
    hide AnswersMatch;
    var s' := Spawned(s, chat, waits);
    forall u | 0 <= u < |s'.tickets| ensures TicketPlaced(s', u) {
      if u < |s.tickets| {
        assert TicketPlaced(s, u);
      }
    }
    forall k, i | 0 <= k < |s'.channels| && 0 <= i < |s'.channels[k].received| ensures PositionFilled(s', k, i) {
      if k < |s.channels| {
        assert PositionFilled(s, k, i);
      }
    }
  }

  /** Every step of every interleaving keeps messages and answers accounted for. */
  lemma StepIsValid(s: State, e: Event)
    requires Valid(s) && Enabled(s, e)
    ensures Valid(Next(s, e))
  {
    hide Update, Queued, Refused, Spawned, AnswersMatch, PlacesMatch;
    match e
    case Enqueue(chat, waits) => EnqueueIsValid(s, chat, waits);
    case Finish(c, ok) => FinishIsValid(s, c, ok);
    case Crash(c) => CrashIsValid(s, c);
    case Receive(c) =>
      var ch := s.channels[c];
      QuietUpdate(s, c, ch.(taken := ch.taken + 1, phase := Processing));
    case Timeout(c) => QuietUpdate(s, c, s.channels[c].(phase := Expired));
    case Closed(c) => QuietUpdate(s, c, s.channels[c].(phase := Expired));
    case DropReceiver(c) => DropIsValid(s, c);
    case RemoveEntry(c) =>
      QuietUpdate(s, c, s.channels[c].(phase := Gone));
      EntryRemoved(s, c);
  }

  lemma EnqueueIsValid(s: State, chat: string, waits: bool)
    requires Valid(s)
    ensures Valid(EnqueueInner(s, chat, waits))
  {
    hide Queued, Refused, Spawned, AnswersMatch, PlacesMatch;
    if chat in s.consumers && s.consumers[chat] < |s.channels| {
      if Open(s.channels[s.consumers[chat]]) {
        QueuedIsValid(s, s.consumers[chat], chat, waits);
      } else {
        RefusedIsValid(s, chat, waits);
      }
    } else {
      SpawnedIsValid(s, chat, waits);
    }
  }

  lemma QuietUpdate(s: State, c: nat, ch: Channel)
    requires Valid(s) && c < |s.channels| && ChannelValid(ch)
    requires ch.received == s.channels[c].received && ch.chat == s.channels[c].chat
    requires ch.results == s.channels[c].results && (Open(ch) <==> Open(s.channels[c]))
    requires ch.phase == Crashed <==> s.channels[c].phase == Crashed
    ensures Valid(Update(s, c, ch, 0, 0, false))
  {
    hide Update, AnswersMatch, PlacesMatch;
    assert ChannelValid(s.channels[c]);
    assert forall x: seq<bool> :: x + [] == x;
    UpdateKeepsAnswers(s, c, ch, 0, 0, false);
  }

  lemma WithoutEntry(s: State, consumers: map<string, nat>)
    requires Valid(s) && forall chat :: chat in consumers ==> chat in s.consumers && consumers[chat] == s.consumers[chat]
    ensures Valid(s.(consumers := consumers))
  {
    var s' := s.(consumers := consumers);
    forall u | 0 <= u < |s'.tickets| ensures TicketPlaced(s', u) {
      assert TicketPlaced(s, u);
    }
    forall k, i | 0 <= k < |s'.channels| && 0 <= i < |s'.channels[k].received| ensures PositionFilled(s', k, i) {
      assert PositionFilled(s, k, i);
    }
    assert PlacesMatch(s');
    hide ChannelsValid, PlacesMatch, StatusAt;
    forall u | 0 <= u < |s.tickets| ensures StatusOf(s', u) == StatusOf(s, u) {
      PlacedTicket(s, u);
    }
  }

  lemma EntryRemoved(s: State, c: nat)
    requires c < |s.channels| && |s.answers| == |s.tickets|
    requires Valid(Update(s, c, s.channels[c].(phase := Gone), 0, 0, false))
    ensures Valid(Update(s, c, s.channels[c].(phase := Gone), 0, 0, false).(consumers := s.consumers - {s.channels[c].chat}))
  {
    hide Valid, Tell;
    WithoutEntry(Update(s, c, s.channels[c].(phase := Gone), 0, 0, false), s.consumers - {s.channels[c].chat});
  }

  lemma FinishIsValid(s: State, c: nat, ok: bool)
    requires Valid(s) && c < |s.channels| && s.channels[c].phase == Processing
    ensures var ch := s.channels[c];
            Valid(Update(s, c, ch.(results := ch.results + [ok], phase := Idle), |ch.results|, |ch.results| + 1, ok))
  {
    hide Update, AnswersMatch, PlacesMatch;
    var ch := s.channels[c];
    assert ChannelValid(ch);
    UpdateKeepsAnswers(s, c, ch.(results := ch.results + [ok], phase := Idle), |ch.results|, |ch.results| + 1, ok);
  }

  lemma CrashIsValid(s: State, c: nat)
    requires Valid(s) && c < |s.channels| && s.channels[c].phase == Processing
    ensures var ch := s.channels[c]; Valid(Update(s, c, ch.(phase := Crashed), |ch.results|, |ch.received|, false))
  {
    hide Update, AnswersMatch, PlacesMatch;
    var ch := s.channels[c];
    assert ChannelValid(ch);
    UpdateKeepsAnswers(s, c, ch.(phase := Crashed), |ch.results|, |ch.received|, false);
  }

  lemma DropIsValid(s: State, c: nat)
    requires Valid(s) && c < |s.channels| && s.channels[c].phase == Expired
    ensures var ch := s.channels[c]; Valid(Update(s, c, ch.(phase := Leaving), ch.taken, |ch.received|, false))
  {
    hide Update, AnswersMatch, PlacesMatch;
    var ch := s.channels[c];
    assert ChannelValid(ch);
    UpdateKeepsAnswers(s, c, ch.(phase := Leaving), ch.taken, |ch.received|, false);
  }
}
