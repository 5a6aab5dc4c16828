/**
 * The scheduled-task table and the scheduler that works on it, as a step relation: the scheduler's own steps may be
 * interleaved with tasks being created, paused, resumed or deleted, any write may fail, and the process may restart.
 */
module Scheduler {
  import opened Wrappers

  const MAX_CONSECUTIVE_FAILURES := 10

  datatype Status = Pending | Running | Completed | Failed | Paused

  /** A row; without a cron expression the task runs once. */
  datatype Row = Row(cron: Option<string>, status: Status, nextRun: int, lastRun: Option<int>)

  type Table = map<string, Row>

  // ---- The queries ----

  function UpdateStatus(t: Table, id: string, status: Status): Table {
    if id in t then t[id := t[id].(status := status)] else t
  }

  function CompleteTask(t: Table, id: string, now: int): Table {
    if id in t then t[id := t[id].(status := Completed, lastRun := Some(now))] else t
  }

  /** The time that was due becomes the last run. */
  function UpdateNextRun(t: Table, id: string, next: int): Table {
    if id in t then t[id := t[id].(nextRun := next, lastRun := Some(t[id].nextRun), status := Pending)] else t
  }

  function DeleteTask(t: Table, id: string): Table {
    t - {id}
  }

  datatype Task = Task(id: string, cron: Option<string>)

  predicate IsDue(t: Table, id: string, now: int) {
    id in t && t[id].status == Pending && t[id].nextRun <= now
  }

  /** The due tasks, each once, the longest due first. */
  predicate IsListing(t: Table, now: int, tasks: seq<Task>) {
    && (forall k :: 0 <= k < |tasks| ==> IsDue(t, tasks[k].id, now) && tasks[k].cron == t[tasks[k].id].cron)
    && (forall id :: id in t && IsDue(t, id, now) ==> Listed(tasks, id))
    && (forall j, k :: 0 <= j < k < |tasks| ==>
          && tasks[j].id != tasks[k].id
          && (tasks[j].id in t && tasks[k].id in t ==> t[tasks[j].id].nextRun <= t[tasks[k].id].nextRun))
  }

  predicate Listed(tasks: seq<Task>, id: string) {
    exists k :: 0 <= k < |tasks| && tasks[k].id == id
  }

  // ---- The scheduler ----

  datatype Entry = Ran(id: string, ok: bool) | Restarted

  /** `known` holds every id ever created, with its cron expression; `log` what was executed, across restarts. */
  datatype State = State(table: Table, known: map<string, Option<string>>, batch: seq<Task>, current: Option<Task>,
                         retries: map<string, nat>, log: seq<Entry>)

  const START := State(map[], map[], [], None, map[], [])

  datatype CronNext = At(time: int) | Never | Invalid

  datatype Event =
    | Create(id: string, row: Row)
    | Pause(id: string)
    | Resume(id: string)
    | Delete(id: string)
    | List(now: int, tasks: seq<Task>)
    | Begin(marked: bool)
    | End(ok: bool, written: bool, next: CronNext, now: int)
    | Restart

  predicate Enabled(s: State, e: Event) {
    match e
    case Create(id, _) => id !in s.known
    case List(now, tasks) => s.batch == [] && s.current.None? && IsListing(s.table, now, tasks)
    case Begin(_) => s.batch != [] && s.current.None?
    case End(_, _, _, _) => s.current.Some?
    case _ => true
  }

  function Retries(s: State, id: string): nat {
    if id in s.retries then s.retries[id] else 0
  }

  /** The write after an execution, if it succeeds. */
  function AfterRun(s: State, task: Task, ok: bool, next: CronNext, now: int): Table {
    if !ok then
      UpdateStatus(s.table, task.id, if Retries(s, task.id) + 1 >= MAX_CONSECUTIVE_FAILURES then Failed else Pending)
    else if task.cron.Some? then
      match next
      case At(time) => UpdateNextRun(s.table, task.id, time)
      case Never => UpdateStatus(s.table, task.id, Completed)
      case Invalid => UpdateStatus(s.table, task.id, Failed)
    else CompleteTask(s.table, task.id, now)
  }

  function Next(s: State, e: Event): State
    requires Enabled(s, e)
  {
    match e
    case Create(id, row) => s.(table := s.table[id := row], known := s.known[id := row.cron])
    case Pause(id) => s.(table := UpdateStatus(s.table, id, Paused))
    case Resume(id) => s.(table := UpdateStatus(s.table, id, Pending))
    case Delete(id) => s.(table := DeleteTask(s.table, id))
    case List(_, tasks) => s.(batch := tasks)
    case Begin(marked) =>
      var task := s.batch[0];
      if marked
        then s.(table := UpdateStatus(s.table, task.id, Running), batch := s.batch[1..], current := Some(task))
      else s.(batch := s.batch[1..])
    case End(ok, written, next, now) =>
      var task := s.current.value;
      s.(table := if written then AfterRun(s, task, ok, next, now) else s.table,
         current := None,
         retries := if ok then s.retries - {task.id} else s.retries[task.id := Retries(s, task.id) + 1],
         log := s.log + [Ran(task.id, ok)])
    case Restart => s.(batch := [], current := None, retries := map[], log := s.log + [Restarted])
  }

  /** The step starts an execution of the task. */
  predicate Starts(s: State, e: Event, id: string)
    requires Enabled(s, e)
  {
    e.Begin? && e.marked && s.batch[0].id == id
  }

  // ---- What every step keeps ----

  predicate TaskKnown(s: State, t: Task) {
    t.id in s.known && s.known[t.id] == t.cron
  }

  predicate Valid(s: State) {
    && (forall id :: id in s.table ==> id in s.known && s.known[id] == s.table[id].cron)
    && (forall k :: 0 <= k < |s.batch| ==> TaskKnown(s, s.batch[k]))
    && (s.current.Some? ==> TaskKnown(s, s.current.value) && !Listed(s.batch, s.current.value.id))
    && (forall j, k :: 0 <= j < k < |s.batch| ==> s.batch[j].id != s.batch[k].id)
  }

  lemma StepIsValid(s: State, e: Event)
    requires Valid(s) && Enabled(s, e)
    ensures Valid(Next(s, e))
  {
    hide UpdateStatus, CompleteTask, UpdateNextRun, DeleteTask, AfterRun;
    var s' := Next(s, e);
    forall k | 0 <= k < |s'.batch| ensures TaskKnown(s', s'.batch[k]) {
      if e.List? {
        assert IsDue(s.table, e.tasks[k].id, e.now);
      } else {
        assert s'.batch[k] in s.batch;
      }
    }
    StepKeepsRows(s, e);
  }

  lemma StepKeepsRows(s: State, e: Event)
    requires Valid(s) && Enabled(s, e)
    ensures var s' := Next(s, e); forall id :: id in s'.table ==> id in s'.known && s'.known[id] == s'.table[id].cron
  {
  }

  // ---- Tasks that never run again ----

  /** Neither running nor queued, and not pending in the table: nothing but a resume can start it. */
  predicate Retired(s: State, id: string) {
    && id in s.known && !Listed(s.batch, id)
    && (s.current.Some? ==> s.current.value.id != id)
    && (id in s.table ==> s.table[id].status != Pending)
  }

  lemma RetiredStep(s: State, e: Event, id: string)
    requires Valid(s) && Enabled(s, e) && Retired(s, id) && e != Resume(id)
    ensures Retired(Next(s, e), id) && !Starts(s, e, id)
  {
    match e
    case List(now, tasks) =>
      forall k | 0 <= k < |tasks| ensures tasks[k].id != id {
        assert IsDue(s.table, tasks[k].id, now);
      }
    case Begin(marked) =>
      assert s.batch[0].id != id;
      assert forall k :: 0 <= k < |s.batch[1..]| ==> s.batch[1..][k] == s.batch[k + 1];
    case _ =>
  }

  predicate Possible(s: State, events: seq<Event>)
    decreases |events|
  {
    events == [] || (Enabled(s, events[0]) && Possible(Next(s, events[0]), events[1..]))
  }

  function Run(s: State, events: seq<Event>): State
    requires Possible(s, events)
    decreases |events|
  {
    if events == [] then s else Run(Next(s, events[0]), events[1..])
  }

  function StartCount(s: State, events: seq<Event>, id: string): nat
    requires Possible(s, events)
    decreases |events|
  {
    if events == [] then 0
    else (if Starts(s, events[0], id) then 1 else 0) + StartCount(Next(s, events[0]), events[1..], id)
  }

  predicate NeverResumed(events: seq<Event>, id: string) {
    forall k :: 0 <= k < |events| ==> events[k] != Resume(id)
  }

  /** Whatever fails, restarts, pauses or is deleted: a retired task is not executed again without a resume. */
  lemma {:induction false} RetiredNeverRuns(s: State, events: seq<Event>, id: string)
    requires Valid(s) && Possible(s, events) && Retired(s, id) && NeverResumed(events, id)
    ensures StartCount(s, events, id) == 0 && Retired(Run(s, events), id)
    decreases |events|
  {
    hide Valid, Next, Starts, Retired, Enabled;
    if events != [] {
      StepIsValid(s, events[0]);
      RetiredStep(s, events[0], id);
      RetiredNeverRuns(Next(s, events[0]), events[1..], id);
    }
  }

  /** While a task executes its row is not pending, unless it was resumed meanwhile. */
  predicate Marked(s: State, id: string) {
    s.current.Some? && s.current.value.id == id && id in s.table ==> s.table[id].status != Pending
  }

  lemma MarkedStep(s: State, e: Event, id: string)
    requires Valid(s) && Enabled(s, e) && Marked(s, id) && e != Resume(id)
    ensures Marked(Next(s, e), id)
  {
  }

  /** Exactly when an execution leaves its task retired: unless a write that makes it pending again succeeded. */
  lemma EndRetiresExactly(s: State, e: Event)
    requires Valid(s) && Enabled(s, e) && e.End? && Marked(s, s.current.value.id)
    ensures var task := s.current.value;
            Retired(Next(s, e), task.id)
            <==> !(task.id in s.table && e.written
                   && if e.ok then task.cron.Some? && e.next.At?
                      else Retries(s, task.id) + 1 < MAX_CONSECUTIVE_FAILURES)
  {
  }

  /**
   * A restart forgets the batch and the execution, so it leaves behind exactly the tasks whose row does not say pending:
   * those that were executing among them, since their row was marked.
   */
  lemma RestartStrands(s: State, id: string)
    requires Valid(s) && id in s.known
    ensures Retired(Next(s, Restart), id) <==> (id in s.table ==> s.table[id].status != Pending)
    ensures s.current.Some? && s.current.value.id == id && Marked(s, id) ==> Retired(Next(s, Restart), id)
  {
  }

  // ---- One-shot tasks ----

  function Successes(log: seq<Entry>, id: string): nat
    decreases |log|
  {
    if log == [] then 0 else Successes(log[..|log| - 1], id) + if log[|log| - 1] == Ran(id, true) then 1 else 0
  }

  lemma SuccessesAppend(log: seq<Entry>, e: Entry, id: string)
    ensures Successes(log + [e], id) == Successes(log, id) + if e == Ran(id, true) then 1 else 0
  {
    assert (log + [e])[..|log|] == log;
  }

  predicate OneShot(s: State, id: string) {
    id in s.known ==> s.known[id] == None
  }

  /** Once it has succeeded, it is retired. */
  predicate AtMostOnce(s: State, id: string) {
    && Marked(s, id) && OneShot(s, id)
    && Successes(s.log, id) <= 1
    && (Successes(s.log, id) == 1 ==> Retired(s, id))
  }

  predicate Executing(s: State, id: string) {
    s.current.Some? && s.current.value.id == id
  }

  /** A resume that cannot make a one-shot task run twice: it has no row, or has neither succeeded nor is executing. */
  predicate Harmless(s: State, id: string) {
    id in s.table ==> Successes(s.log, id) == 0 && !Executing(s, id)
  }

  lemma AtMostOnceStep(s: State, e: Event, id: string)
    requires Valid(s) && Enabled(s, e) && AtMostOnce(s, id) && (e == Resume(id) ==> Harmless(s, id))
    requires e.Create? && e.id == id ==> e.row.cron == None
    ensures AtMostOnce(Next(s, e), id)
  {
    hide Retired, Successes;
    if e == Resume(id) {
      ResumedIsMarked(s, id);
    } else {
      MarkedStep(s, e, id);
      if e.End? {
        SuccessesAppend(s.log, Ran(s.current.value.id, e.ok), id);
        if s.current.value.id == id {
          RunningIsNotRetired(s, id);
          EndRetiresExactly(s, e);
        }
      }
      if e.Restart? {
        SuccessesAppend(s.log, Restarted, id);
      }
      if Retired(s, id) {
        RetiredStep(s, e, id);
      }
    }
  }

  lemma ResumedIsMarked(s: State, id: string)
    requires Marked(s, id) && Harmless(s, id)
    ensures Marked(Next(s, Resume(id)), id)
    ensures id in s.table ==> Successes(s.log, id) == 0
    ensures id !in s.table ==> Next(s, Resume(id)) == s
  {
  }

  lemma RunningIsNotRetired(s: State, id: string)
    requires s.current.Some? && s.current.value.id == id
    ensures !Retired(s, id)
  {
  }

  predicate CreatedOneShot(events: seq<Event>, id: string) {
    forall k :: 0 <= k < |events| ==> events[k].Create? && events[k].id == id ==> events[k].row.cron == None
  }

  predicate ResumedHarmlessly(s: State, events: seq<Event>, id: string)
    requires Possible(s, events)
    decreases |events|
  {
    events == []
    || ((events[0] == Resume(id) ==> Harmless(s, id)) && ResumedHarmlessly(Next(s, events[0]), events[1..], id))
  }

  lemma {:induction false} AtMostOnceRun(s: State, events: seq<Event>, id: string)
    requires Valid(s) && Possible(s, events) && AtMostOnce(s, id)
    requires ResumedHarmlessly(s, events, id) && CreatedOneShot(events, id)
    ensures AtMostOnce(Run(s, events), id)
    decreases |events|
  {
    hide Valid, Next, AtMostOnce, Enabled, Harmless;
    if events != [] {
      StepIsValid(s, events[0]);
      AtMostOnceStep(s, events[0], id);
      AtMostOnceRun(Next(s, events[0]), events[1..], id);
    }
  }

  /**
   * A one-shot task succeeds at most once, over failing writes, restarts, pauses and deletions, as long as nobody resumes
   * it after it has succeeded or while it executes.
   */
  lemma OneShotSucceedsOnce(events: seq<Event>, id: string)
    requires Possible(START, events) && ResumedHarmlessly(START, events, id) && CreatedOneShot(events, id)
    ensures Successes(Run(START, events).log, id) <= 1
  {
    hide Next, Enabled, Retired;
    AtMostOnceRun(START, events, id);
  }

  // ---- Consecutive failures ----

  /** Failing executions since the last success or restart. */
  function Streak(log: seq<Entry>, id: string): nat
    decreases |log|
  {
    if log == [] then 0
    else
      match log[|log| - 1]
      case Restarted => 0
      case Ran(other, ok) =>
        if other != id then Streak(log[..|log| - 1], id) else if ok then 0 else Streak(log[..|log| - 1], id) + 1
  }

  lemma StreakAppend(log: seq<Entry>, e: Entry, id: string)
    ensures Streak(log + [e], id)
         == match e
            case Restarted => 0
            case Ran(other, ok) => if other != id then Streak(log, id) else if ok then 0 else Streak(log, id) + 1
  {
    assert (log + [e])[..|log|] == log;
  }

  /** The counter is the streak, it never passes the limit, and at the limit the task is retired. */
  predicate Bounded(s: State, id: string) {
    && Marked(s, id)
    && Retries(s, id) == Streak(s.log, id) <= MAX_CONSECUTIVE_FAILURES
    && (Streak(s.log, id) == MAX_CONSECUTIVE_FAILURES ==> Retired(s, id))
  }

  lemma BoundedStep(s: State, e: Event, id: string)
    requires Valid(s) && Enabled(s, e) && Bounded(s, id) && e != Resume(id)
    ensures Bounded(Next(s, e), id)
  {
    hide Retired, Streak;
    MarkedStep(s, e, id);
    if e.End? {
      StreakAppend(s.log, Ran(s.current.value.id, e.ok), id);
      if s.current.value.id == id {
        RunningIsNotRetired(s, id);
        EndRetiresExactly(s, e);
      }
    }
    if e.Restart? {
      StreakAppend(s.log, Restarted, id);
    }
    if Retired(s, id) {
      RetiredStep(s, e, id);
    }
  }

  lemma {:induction false} BoundedRun(s: State, events: seq<Event>, id: string)
    requires Valid(s) && Possible(s, events) && Bounded(s, id) && NeverResumed(events, id)
    ensures Valid(Run(s, events)) && Bounded(Run(s, events), id)
    decreases |events|
  {
    hide Valid, Next, Bounded, Enabled;
    if events != [] {
      StepIsValid(s, events[0]);
      BoundedStep(s, events[0], id);
      BoundedRun(Next(s, events[0]), events[1..], id);
    }
  }

  /** A task fails at most ten times in a row within one process, and after the tenth it never starts again. */
  lemma AtMostTenFailures(before: seq<Event>, after: seq<Event>, id: string)
    requires Possible(START, before) && NeverResumed(before, id)
    requires Possible(Run(START, before), after) && NeverResumed(after, id)
    ensures Streak(Run(START, before).log, id) <= MAX_CONSECUTIVE_FAILURES
    ensures Streak(Run(START, before).log, id) == MAX_CONSECUTIVE_FAILURES ==>
              StartCount(Run(START, before), after, id) == 0
  {
    hide Next, Enabled, Retired, Run, Possible, NeverResumed, StartCount;
    BoundedRun(START, before, id);
    var s := Run(START, before);
    if Streak(s.log, id) == MAX_CONSECUTIVE_FAILURES {
      RetiredNeverRuns(s, after, id);
    }
  }

  // ---- Where the source falls short ----

  /** A resume makes any task that still has a row pending, a completed one-shot task included. The query has no caller. */
  lemma ResumeRevives(s: State, id: string, now: int)
    requires Valid(s) && Retired(s, id) && id in s.table
    ensures var s' := Next(s, Resume(id)); !Retired(s', id) && (s.table[id].nextRun <= now ==> IsDue(s'.table, id, now))
  {
  }
}
