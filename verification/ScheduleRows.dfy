/**
 * What every run of the scheduler writes, told from its events alone: the task that is executing, its failures in a row,
 * which rows there are, and the status and the due time each of them holds; and when a rescheduled task runs again.
 */
module ScheduleRows {
  import opened Wrappers
  import opened Scheduler

  // ---- What is queued and executing ----

  /** The listed tasks that were not begun yet. */
  function Queue(events: seq<Event>): seq<Task>
    decreases |events|
  {
    if events == [] then []
    else
      var before := Queue(events[..|events| - 1]);
      match events[|events| - 1]
      case List(_, tasks) => tasks
      case Begin(_) => if before == [] then [] else before[1..]
      case Restart => []
      case _ => before
  }

  /** The task whose execution began, was marked, and has not ended. */
  function Current(events: seq<Event>): Option<Task>
    decreases |events|
  {
    if events == [] then None
    else
      var queue := Queue(events[..|events| - 1]);
      match events[|events| - 1]
      case Begin(true) => if queue == [] then None else Some(queue[0])
      case Begin(false) => None
      case End(_, _, _, _) => None
      case Restart => None
      case _ => Current(events[..|events| - 1])
  }

  predicate Runs(events: seq<Event>, id: string) {
    var c := Current(events); c.Some? && c.value.id == id
  }

  /** Executions of the task that failed since its last success and the last restart. */
  function Failures(events: seq<Event>, id: string): nat
    decreases |events|
  {
    if events == [] then 0
    else
      var init := events[..|events| - 1];
      match events[|events| - 1]
      case Restart => 0
      case End(ok, _, _, _) => if !Runs(init, id) then Failures(init, id) else if ok then 0 else Failures(init, id) + 1
      case _ => Failures(init, id)
  }

  // ---- What is written ----

  predicate Recurs(events: seq<Event>) {
    var c := Current(events); c.Some? && c.value.cron.Some?
  }

  /** The status an event writes to a row, if it writes one. */
  function StatusWrite(before: seq<Event>, e: Event, id: string): Option<Status> {
    match e
    case Create(i, row) => if i == id then Some(row.status) else None
    case Pause(i) => if i == id then Some(Paused) else None
    case Resume(i) => if i == id then Some(Pending) else None
    case Begin(true) => if Queue(before) != [] && Queue(before)[0].id == id then Some(Running) else None
    case End(ok, true, next, _) =>
      if !Runs(before, id) then None
      else if !ok then Some(if Failures(before, id) + 1 >= 10 then Status.Failed else Pending)
      else if Recurs(before) && next.At? then Some(Pending)
      else if Recurs(before) && next.Invalid? then Some(Status.Failed)
      else Some(Completed)
    case _ => None
  }

  /** The due time an event writes: only a successful execution of a recurring task moves it, to what cron gives. */
  function DueWrite(before: seq<Event>, e: Event, id: string): Option<int> {
    match e
    case Create(i, row) => if i == id then Some(row.nextRun) else None
    case End(true, true, At(time), _) => if Runs(before, id) && Recurs(before) then Some(time) else None
    case _ => None
  }

  /** The last status written is this one. */
  predicate StatusIs(events: seq<Event>, id: string, status: Status) {
    exists k :: 0 <= k < |events| && StatusWrite(events[..k], events[k], id) == Some(status)
                && forall j :: k < j < |events| ==> StatusWrite(events[..j], events[j], id) == None
  }

  predicate DueIs(events: seq<Event>, id: string, due: int) {
    exists k :: 0 <= k < |events| && DueWrite(events[..k], events[k], id) == Some(due)
                && forall j :: k < j < |events| ==> DueWrite(events[..j], events[j], id) == None
  }

  /** Created, and not deleted afterwards. */
  predicate IsStored(events: seq<Event>, id: string) {
    exists k :: 0 <= k < |events| && events[k].Create? && events[k].id == id
                && forall j :: k < j < |events| ==> events[j] != Delete(id)
  }

  predicate WasCreated(events: seq<Event>, id: string) {
    exists k :: 0 <= k < |events| && events[k].Create? && events[k].id == id
  }

  // ---- Runs, one event longer ----

  lemma {:induction false} Longer(s: State, init: seq<Event>, e: Event)
    requires Possible(s, init + [e])
    ensures Possible(s, init) && Enabled(Run(s, init), e) && Run(s, init + [e]) == Next(Run(s, init), e)
    decreases |init|
  {
    hide Next, Enabled;
    var all := init + [e];
    if init == [] {
      assert all == [e] && all[1..] == [];
    } else {
      assert all[0] == init[0] && all[1..] == init[1..] + [e];
      Longer(Next(s, init[0]), init[1..], e);
    }
  }

  lemma StatusStays(init: seq<Event>, e: Event, id: string, status: Status)
    requires StatusWrite(init, e, id) == Some(status) || (StatusWrite(init, e, id) == None && StatusIs(init, id, status))
    ensures StatusIs(init + [e], id, status)
  {
    hide StatusWrite;
    var all := init + [e];
    assert all[..|init|] == init && forall k :: 0 <= k < |init| ==> all[..k] == init[..k] && all[k] == init[k];
    if StatusWrite(init, e, id) == Some(status) {
      assert StatusWrite(all[..|init|], all[|init|], id) == Some(status);
    } else {
      var k :| 0 <= k < |init| && StatusWrite(init[..k], init[k], id) == Some(status)
               && forall j :: k < j < |init| ==> StatusWrite(init[..j], init[j], id) == None;
      assert StatusWrite(all[..k], all[k], id) == Some(status);
      forall j | k < j < |all| ensures StatusWrite(all[..j], all[j], id) == None {
      }
    }
  }

  lemma DueStays(init: seq<Event>, e: Event, id: string, due: int)
    requires DueWrite(init, e, id) == Some(due) || (DueWrite(init, e, id) == None && DueIs(init, id, due))
    ensures DueIs(init + [e], id, due)
  {
    hide DueWrite;
    var all := init + [e];
    assert all[..|init|] == init && forall k :: 0 <= k < |init| ==> all[..k] == init[..k] && all[k] == init[k];
    if DueWrite(init, e, id) == Some(due) {
      assert DueWrite(all[..|init|], all[|init|], id) == Some(due);
    } else {
      var k :| 0 <= k < |init| && DueWrite(init[..k], init[k], id) == Some(due)
               && forall j :: k < j < |init| ==> DueWrite(init[..j], init[j], id) == None;
      assert DueWrite(all[..k], all[k], id) == Some(due);
      forall j | k < j < |all| ensures DueWrite(all[..j], all[j], id) == None {
      }
    }
  }

  lemma StoredStep(init: seq<Event>, e: Event, id: string)
    ensures IsStored(init + [e], id) <==> (e.Create? && e.id == id) || (IsStored(init, id) && e != Delete(id))
    ensures WasCreated(init + [e], id) <==> (e.Create? && e.id == id) || WasCreated(init, id)
  {
    var all := init + [e];
    assert all[|init|] == e && forall k :: 0 <= k < |init| ==> all[k] == init[k];
  }

  // ---- What every run keeps ----

  predicate Told(s: State, events: seq<Event>, id: string) {
    && s.batch == Queue(events) && s.current == Current(events)
    && Retries(s, id) == Failures(events, id) == Streak(s.log, id)
    && (id in s.known <==> WasCreated(events, id))
    && (id in s.table <==> IsStored(events, id))
    && (id in s.table ==> StatusIs(events, id, s.table[id].status) && DueIs(events, id, s.table[id].nextRun))
  }

  lemma StepStores(s: State, e: Event, id: string)
    requires Valid(s) && Enabled(s, e)
    ensures id in Next(s, e).table <==> (e.Create? && e.id == id) || (id in s.table && e != Delete(id))
  {
  }

  lemma StepWritesStatus(s: State, init: seq<Event>, e: Event, id: string)
    requires Enabled(s, e) && s.batch == Queue(init) && s.current == Current(init) && Retries(s, id) == Failures(init, id)
    ensures var t, t', written := s.table, Next(s, e).table, StatusWrite(init, e, id);
            id in t' ==> if written.Some? then t'[id].status == written.value
                         else id in t && t'[id].status == t[id].status
  {
    hide Queue, Current, Failures, Retries;
  }

  lemma StepWritesDue(s: State, init: seq<Event>, e: Event, id: string)
    requires Enabled(s, e) && s.current == Current(init)
    ensures var t, t', written := s.table, Next(s, e).table, DueWrite(init, e, id);
            id in t' ==> if written.Some? then t'[id].nextRun == written.value
                         else id in t && t'[id].nextRun == t[id].nextRun
  {
    hide Queue, Current, Failures, Retries;
  }

  lemma StepQueues(s: State, init: seq<Event>, e: Event, id: string)
    requires Enabled(s, e) && s.batch == Queue(init) && s.current == Current(init)
    requires Retries(s, id) == Failures(init, id) == Streak(s.log, id)
    ensures var s', all := Next(s, e), init + [e];
            && s'.batch == Queue(all) && s'.current == Current(all)
            && Retries(s', id) == Failures(all, id) == Streak(s'.log, id)
            && (id in s'.known <==> (e.Create? && e.id == id) || id in s.known)
  {
    hide AfterRun, Streak;
    assert (init + [e])[..|init|] == init;
    if e.End? {
      StreakAppend(s.log, Ran(s.current.value.id, e.ok), id);
    }
    if e.Restart? {
      StreakAppend(s.log, Restarted, id);
    }
  }

  /**
   * Every run: what is queued and executing, the failures in a row, which tasks there are, and the status and the due time
   * of each row are those its events tell.
   */
  lemma {:induction false} RowsAreTold(events: seq<Event>, id: string)
    requires Possible(START, events)
    ensures Valid(Run(START, events)) && Told(Run(START, events), events, id)
    decreases |events|
  {
    hide Next, Enabled, Queue, Current, Failures, StatusWrite, DueWrite, StatusIs, DueIs, IsStored, WasCreated, Streak,
      Retries, Valid;
    if events == [] {
      NothingTold(id);
    } else {
      var init, e := events[..|events| - 1], events[|events| - 1];
      assert events == init + [e];
      Longer(START, init, e);
      RowsAreTold(init, id);
      var s, s' := Run(START, init), Run(START, events);
      StepIsValid(s, e);
      StepQueues(s, init, e, id);
      StepStores(s, e, id);
      StepWritesStatus(s, init, e, id);
      StepWritesDue(s, init, e, id);
      StoredStep(init, e, id);
      if id in s'.table {
        StatusStays(init, e, id, s'.table[id].status);
        DueStays(init, e, id, s'.table[id].nextRun);
      }
    }
  }

  lemma NothingTold(id: string)
    ensures Valid(START) && Told(START, [], id)
  {
  }

  // ---- When a rescheduled task runs again ----

  /** Not queued, not executing, and not due before `time`. */
  predicate Waits(s: State, id: string, time: int) {
    && id in s.known && !Listed(s.batch, id) && (s.current.Some? ==> s.current.value.id != id)
    && (id in s.table ==> s.table[id].nextRun >= time)
  }

  predicate ListsBefore(events: seq<Event>, time: int) {
    forall k :: 0 <= k < |events| && events[k].List? ==> events[k].now < time
  }

  lemma WaitingStep(s: State, e: Event, id: string, time: int)
    requires Valid(s) && Enabled(s, e) && Waits(s, id, time) && (e.List? ==> e.now < time)
    ensures Waits(Next(s, e), id, time) && !Starts(s, e, id)
  {
    match e
    case List(now, tasks) =>
      forall k | 0 <= k < |tasks| ensures tasks[k].id != id {
        assert IsDue(s.table, tasks[k].id, now);
      }
    case Begin(marked) =>
      assert s.batch[0].id != id;
      assert forall k :: 0 <= k < |s.batch[1..]| ==> s.batch[1..][k] == s.batch[k + 1];
    case _ =>
  }

  lemma {:induction false} WaitingNeverStarts(s: State, events: seq<Event>, id: string, time: int)
    requires Valid(s) && Possible(s, events) && Waits(s, id, time) && ListsBefore(events, time)
    ensures StartCount(s, events, id) == 0
    decreases |events|
  {
    hide Valid, Next, Starts, Waits, Enabled;
    if events != [] {
      StepIsValid(s, events[0]);
      WaitingStep(s, events[0], id, time);
      assert forall k :: 0 <= k < |events[1..]| ==> events[1..][k] == events[k + 1];
      WaitingNeverStarts(Next(s, events[0]), events[1..], id, time);
    }
  }

  /**
   * After a successful execution of a recurring task that cron runs again at `time`: it is pending and due exactly at that
   * time, the time it was due becomes its last run, every listing from that time on has it, and whatever happens, resumes
   * and restarts included, it does not start before a listing at that time or later.
   */
  lemma RunsAgainAtItsTime(s: State, time: int, now: int, events: seq<Event>, now': int, tasks: seq<Task>)
    requires Valid(s) && s.current.Some? && s.current.value.cron.Some? && s.current.value.id in s.table
    requires Possible(Next(s, End(true, true, At(time), now)), events)
    ensures var id, s' := s.current.value.id, Next(s, End(true, true, At(time), now));
            && id in s'.table
            && s'.table[id] == Row(s.table[id].cron, Pending, time, Some(s.table[id].nextRun))
            && (IsListing(s'.table, now', tasks) ==> (Listed(tasks, id) <==> time <= now'))
            && (ListsBefore(events, time) ==> StartCount(s', events, id) == 0)
  {
    hide StartCount, Possible, ListsBefore, Listed;
    var e := End(true, true, At(time), now);
    var id, s' := s.current.value.id, Next(s, e);
    StepIsValid(s, e);
    if ListsBefore(events, time) {
      WaitingNeverStarts(s', events, id, time);
    }
    if IsListing(s'.table, now', tasks) {
      ListsDue(s'.table, now', tasks, id);
    }
  }

  /** After a successful execution of a one-shot task it is completed, with the time it ended as its last run. */
  lemma OneShotIsCompleted(s: State, next: CronNext, now: int)
    requires Valid(s) && s.current.Some? && s.current.value.cron.None? && s.current.value.id in s.table
    ensures var id, s' := s.current.value.id, Next(s, End(true, true, next, now));
            && s'.table == s.table[id := Row(None, Completed, s.table[id].nextRun, Some(now))]
            && Retired(s', id)
  {
  }

  lemma ListsDue(t: Table, now: int, tasks: seq<Task>, id: string)
    requires IsListing(t, now, tasks)
    ensures Listed(tasks, id) <==> IsDue(t, id, now)
  {
    if Listed(tasks, id) {
      var k :| 0 <= k < |tasks| && tasks[k].id == id;
      assert IsDue(t, tasks[k].id, now);
    }
  }
}
