/**
 * The webhook and the scheduler each hold a queue of their own. The two run side by side; each event names the queue it
 * acts on. A chat then has at most one consumer exactly as long as no queue starts one while either of them still has a
 * consumer of the chat.
 */
module TwoQueues {
  import opened ChatQueue
  import opened ChatQueueLaws

  datatype Side = Webhook | Scheduler

  datatype Queues = Queues(webhook: State, scheduler: State)

  datatype Step = On(side: Side, event: Event)

  const BOTH := Queues(START, START)

  function Of(t: Queues, side: Side): State {
    if side == Webhook then t.webhook else t.scheduler
  }

  function Other(side: Side): Side {
    if side == Webhook then Scheduler else Webhook
  }

  predicate Sized(t: Queues) {
    |t.webhook.answers| == |t.webhook.tickets| && |t.scheduler.answers| == |t.scheduler.tickets|
  }

  /** Only the scheduler waits for the result of its messages. */
  predicate StepEnabled(t: Queues, x: Step) {
    Enabled(Of(t, x.side), x.event) && (x.event.Enqueue? ==> (x.event.waits <==> x.side == Scheduler))
  }

  function StepNext(t: Queues, x: Step): Queues
    requires Sized(t) && StepEnabled(t, x)
  {
    if x.side == Webhook then t.(webhook := Next(t.webhook, x.event)) else t.(scheduler := Next(t.scheduler, x.event))
  }

  predicate BothValid(t: Queues) {
    Valid(t.webhook) && Valid(t.scheduler)
  }

  predicate Disjoint(s: State, other: State) {
    forall c, d ::
      0 <= c < |s.channels| && 0 <= d < |other.channels| && Live(s.channels[c]) && Live(other.channels[d]) ==>
        s.channels[c].chat != other.channels[d].chat
  }

  /** No chat has a consumer in both queues. */
  predicate Apart(t: Queues) {
    Disjoint(t.webhook, t.scheduler)
  }

  /** No chat has two consumers, in one queue or over both. */
  predicate Solo(t: Queues) {
    Single(t.webhook) && Single(t.scheduler) && Apart(t)
  }

  /** A queue without an entry for the chat gets a message for it while the other queue has a consumer of the chat. */
  predicate Crosses(t: Queues, x: Step) {
    && x.event.Enqueue? && HasConsumer(Of(t, Other(x.side)), x.event.chat)
    && x.event.chat !in Of(t, x.side).consumers
  }

  /** The same, while either queue has one. */
  predicate Meets(t: Queues, x: Step) {
    Doubles(Of(t, x.side), x.event) || Crosses(t, x)
  }

  // ---- One step ----

  lemma DisjointIff(s: State, e: Event, other: State)
    requires Valid(s) && |s.answers| == |s.tickets| && Disjoint(s, other) && Enabled(s, e)
    ensures Disjoint(Next(s, e), other)
            <==> !(e.Enqueue? && HasConsumer(other, e.chat) && e.chat !in s.consumers)
  {
    hide Valid, Live, Next;
    var s' := Next(s, e);
    if !Disjoint(s', other) {
      var c, d :| 0 <= c < |s'.channels| && 0 <= d < |other.channels|
        && Live(s'.channels[c]) && Live(other.channels[d]) && s'.channels[c].chat == other.channels[d].chat;
      ConsumersAfter(s, e, c);
      assert c >= |s.channels|;
    }
    if e.Enqueue? && HasConsumer(other, e.chat) && e.chat !in s.consumers {
      NewConsumer(s, e);
      ProcessingIsLive(s'.channels[|s.channels|]);
      var d :| 0 <= d < |other.channels| && Live(other.channels[d]) && other.channels[d].chat == e.chat;
    }
  }

  lemma StepApartIff(t: Queues, x: Step)
    requires BothValid(t) && Apart(t) && Sized(t) && StepEnabled(t, x)
    ensures Apart(StepNext(t, x)) <==> !Crosses(t, x)
  {
    hide Valid, Next, HasConsumer, Live;
    DisjointIff(Of(t, x.side), x.event, Of(t, Other(x.side)));
  }

  /** A step gives a chat a second consumer exactly when it starts one beside another. */
  lemma StepSoloIff(t: Queues, x: Step)
    requires BothValid(t) && Solo(t) && StepEnabled(t, x)
    ensures Sized(t) && BothValid(StepNext(t, x))
    ensures Solo(StepNext(t, x)) <==> !Meets(t, x)
  {
    ValidIsSized(t);
    StepIsValid(Of(t, x.side), x.event);
    hide Valid, Single, Next, Crosses, Apart, Doubles;
    StepSingleIff(Of(t, x.side), x.event);
    StepApartIff(t, x);
  }

  lemma ValidIsSized(t: Queues)
    requires BothValid(t)
    ensures Sized(t)
  {
  }

  // ---- Runs ----

  predicate StepsPossible(t: Queues, xs: seq<Step>)
    decreases |xs|
  {
    Sized(t) && (xs == [] || (StepEnabled(t, xs[0]) && StepsPossible(StepNext(t, xs[0]), xs[1..])))
  }

  function RunSteps(t: Queues, xs: seq<Step>): Queues
    requires StepsPossible(t, xs)
    decreases |xs|
  {
    if xs == [] then t else RunSteps(StepNext(t, xs[0]), xs[1..])
  }

  predicate AlwaysSolo(t: Queues, xs: seq<Step>)
    requires StepsPossible(t, xs)
    decreases |xs|
  {
    Solo(t) && (xs == [] || AlwaysSolo(StepNext(t, xs[0]), xs[1..]))
  }

  predicate NeverMeets(t: Queues, xs: seq<Step>)
    requires StepsPossible(t, xs)
    decreases |xs|
  {
    xs == [] || (!Meets(t, xs[0]) && NeverMeets(StepNext(t, xs[0]), xs[1..]))
  }

  lemma {:induction false} SoloIffNeverMeets(t: Queues, xs: seq<Step>)
    requires BothValid(t) && Solo(t) && StepsPossible(t, xs)
    ensures AlwaysSolo(t, xs) <==> NeverMeets(t, xs)
    decreases |xs|
  {
    hide BothValid, Solo, StepNext, Meets, StepEnabled;
    if xs != [] {
      StepSoloIff(t, xs[0]);
      var t' := StepNext(t, xs[0]);
      if Solo(t') {
        SoloIffNeverMeets(t', xs[1..]);
      }
    }
  }

  /**
   * Over every run of both queues from their start, panics included: a chat never has two consumers, in one queue or over
   * both, if and only if no message starts a consumer of a chat while either queue still has one.
   */
  lemma OneConsumerIff(xs: seq<Step>)
    requires StepsPossible(BOTH, xs)
    ensures AlwaysSolo(BOTH, xs) <==> NeverMeets(BOTH, xs)
  {
    hide StepsPossible, AlwaysSolo, NeverMeets, Valid, Single;
    StartIsValid();
    StartIsSerial();
    SoloIffNeverMeets(BOTH, xs);
  }

  // ---- What it means for the work on a chat ----

  predicate Works(t: Queues, side: Side, c: nat, chat: string) {
    var s := Of(t, side);
    c < |s.channels| && s.channels[c].phase == Processing && s.channels[c].chat == chat
  }

  /** While no chat has two consumers, one at most is at work on a chat. */
  lemma SoloWorksAlone(t: Queues, side: Side, c: nat, side': Side, d: nat, chat: string)
    requires Solo(t) && Works(t, side, c, chat) && Works(t, side', d, chat)
    ensures side == side' && c == d
  {
  }

  ghost predicate BothWork(t: Queues, chat: string) {
    exists c, d :: Works(t, Webhook, c, chat) && Works(t, Scheduler, d, chat)
  }

  lemma BothWorkBy(t: Queues, side: Side, c: nat, d: nat, chat: string)
    requires Works(t, side, c, chat) && Works(t, Other(side), d, chat)
    ensures BothWork(t, chat)
  {
  }

  /**
   * After a crossing the chat is processed in both queues at once: immediately if the other queue's consumer is at work,
   * and from that consumer's next message on if it waits for one and has its entry.
   */
  lemma CrossingWorks(t: Queues, x: Step, d: nat) returns (more: seq<Step>)
    requires BothValid(t) && StepEnabled(t, x) && Crosses(t, x)
    requires var other := Of(t, Other(x.side));
             d < |other.channels| && Live(other.channels[d]) && other.channels[d].chat == x.event.chat
    ensures Sized(t)
    ensures var phase := Of(t, Other(x.side)).channels[d].phase;
            && (phase == Processing ==> BothWork(StepNext(t, x), x.event.chat))
            && (phase == Idle && HasSender(Of(t, Other(x.side)), d) ==>
                  && StepsPossible(StepNext(t, x), more)
                  && BothWork(RunSteps(StepNext(t, x), more), x.event.chat))
  {
    hide Valid, Tell;
    ValidIsSized(t);
    var side, chat := x.side, x.event.chat;
    var s, other := Of(t, side), Of(t, Other(side));
    NewConsumer(s, x.event);
    var t' := StepNext(t, x);
    assert Works(t', side, |s.channels|, chat);
    more := [];
    if other.channels[d].phase == Processing {
      BothWorkBy(t', side, |s.channels|, d, chat);
    } else if other.channels[d].phase == Idle && HasSender(other, d) {
      StepIsValid(s, x.event);
      ValidIsSized(t');
      ChannelOfValid(other, d);
      more := IdleConsumerWorks(t', side, |s.channels|, d, chat);
    }
  }

  lemma ChannelOfValid(s: State, c: nat)
    requires Valid(s) && c < |s.channels|
    ensures ChannelValid(s.channels[c])
  {
  }

  /** A waiting consumer of the other queue, a message for it, and its reception. */
  lemma IdleConsumerWorks(t: Queues, side: Side, c: nat, d: nat, chat: string) returns (more: seq<Step>)
    requires Sized(t) && Works(t, side, c, chat)
    requires var o := Of(t, Other(side));
             && d < |o.channels| && chat in o.consumers && o.consumers[chat] == d
             && o.channels[d].chat == chat && o.channels[d].phase == Idle
             && o.channels[d].taken <= |o.channels[d].received|
    ensures StepsPossible(t, more) && BothWork(RunSteps(t, more), chat)
  {
    hide Tell;
    var to := Other(side);
    var x1, x2 := On(to, Enqueue(chat, to == Scheduler)), On(to, Receive(d));
    var t1 := StepNext(t, x1);
    var t2 := StepNext(t1, x2);
    more := [x1, x2];
    BothWorkBy(t2, side, c, d, chat);
    TwoSteps(t, x1, x2);
  }

  lemma TwoSteps(t: Queues, x1: Step, x2: Step)
    requires Sized(t) && StepEnabled(t, x1) && Sized(StepNext(t, x1)) && StepEnabled(StepNext(t, x1), x2)
    requires Sized(StepNext(StepNext(t, x1), x2))
    ensures StepsPossible(t, [x1, x2]) && RunSteps(t, [x1, x2]) == StepNext(StepNext(t, x1), x2)
    ensures Crosses(StepNext(t, x1), x2) ==> !NeverMeets(t, [x1, x2])
  {
    hide StepNext, StepEnabled, Sized, Crosses, Doubles;
    var t1 := StepNext(t, x1);
    assert [x1, x2][1..] == [x2] && [x2][1..] == [];
    assert StepsPossible(StepNext(t1, x2), []);
    assert StepsPossible(t1, [x2]) && RunSteps(t1, [x2]) == StepNext(t1, x2);
    assert Crosses(t1, x2) ==> !NeverMeets(t1, [x2]);
  }

  /** A user's message and a due task of the same chat, nothing else: both are processed at once. */
  lemma TwoQueuesRace(chat: string)
    ensures var xs := [On(Webhook, Enqueue(chat, false)), On(Scheduler, Enqueue(chat, true))];
            && StepsPossible(BOTH, xs) && !NeverMeets(BOTH, xs) && BothWork(RunSteps(BOTH, xs), chat)
  {
    hide Tell;
    var x1, x2 := On(Webhook, Enqueue(chat, false)), On(Scheduler, Enqueue(chat, true));
    var t1 := StepNext(BOTH, x1);
    assert Live(t1.webhook.channels[0]) && t1.webhook.channels[0].chat == chat;
    TwoSteps(BOTH, x1, x2);
    BothWorkBy(StepNext(t1, x2), Webhook, 0, 0, chat);
  }
}
