/**
 * What can stop a task, against a scheduler that may have listed it already: exactly when a pause, a deletion or a restart
 * does, and exactly when a resume can make a one-shot task succeed twice. Where the answer is no, the run is constructed.
 */
module Pausing {
  import opened Scheduler

  /** Nothing in the run resumes the task, or creates it with a cron expression. */
  predicate Plain(events: seq<Event>, id: string) {
    NeverResumed(events, id) && CreatedOneShot(events, id)
  }

  // ---- A pause ----

  /** A pause retires a task exactly if the task is neither listed nor executing. */
  lemma PauseRetiresIff(s: State, id: string)
    requires id in s.known
    ensures Retired(Next(s, Pause(id)), id) <==> !Listed(s.batch, id) && !Executing(s, id)
  {
  }

  /** A pause during an execution survives it unless a write that makes the task pending again succeeds. */
  lemma PauseDuringExecution(s: State, e: Event, id: string)
    requires Valid(s) && Executing(s, id) && e.End?
    ensures var paused := Next(s, Pause(id));
            && Enabled(paused, e)
            && (Retired(Next(paused, e), id)
                <==> !(id in s.table && e.written
                       && if e.ok then s.current.value.cron.Some? && e.next.At?
                          else Retries(s, id) + 1 < MAX_CONSECUTIVE_FAILURES))
  {
    StepIsValid(s, Pause(id));
    EndRetiresExactly(Next(s, Pause(id)), e);
  }

  /**
   * For a task that is not executing: a pause keeps it from ever starting again, in every run without a resume, if and
   * only if it was not listed yet.
   */
  lemma PauseStopsIff(s: State, id: string)
    requires Valid(s) && id in s.known && !Executing(s, id)
    ensures (forall events :: Possible(Next(s, Pause(id)), events) && NeverResumed(events, id) ==>
              StartCount(Next(s, Pause(id)), events, id) == 0)
            <==> !Listed(s.batch, id)
  {
    hide Retired, Listed, Possible, StartCount, NeverResumed, Valid;
    var paused := Next(s, Pause(id));
    StepIsValid(s, Pause(id));
    if Listed(s.batch, id) {
      var events := ListedSucceeds(paused, id);
    } else {
      PauseRetiresIff(s, id);
      forall events | Possible(paused, events) && NeverResumed(events, id) ensures StartCount(paused, events, id) == 0 {
        RetiredNeverRuns(paused, events, id);
      }
    }
  }

  // ---- A deletion ----

  /** The row is gone and the task is not listed; ids are not used again, so nothing can start it. */
  predicate Gone(s: State, id: string) {
    id in s.known && id !in s.table && !Listed(s.batch, id)
  }

  lemma GoneStep(s: State, e: Event, id: string)
    requires Valid(s) && Enabled(s, e) && Gone(s, id)
    ensures Gone(Next(s, e), id) && !Starts(s, e, id)
  {
    match e
    case List(now, tasks) =>
      forall k | 0 <= k < |tasks| ensures tasks[k].id != id {
        assert IsDue(s.table, tasks[k].id, now);
      }
    case Begin(marked) =>
      assert s.batch[0].id != id;
      assert forall k :: 0 <= k < |s.batch[1..]| ==> s.batch[1..][k] == s.batch[k + 1];
    case _ =>
  }

  lemma {:induction false} GoneForever(s: State, events: seq<Event>, id: string)
    requires Valid(s) && Possible(s, events) && Gone(s, id)
    ensures StartCount(s, events, id) == 0
    decreases |events|
  {
    hide Valid, Next, Starts, Gone, Enabled;
    if events != [] {
      StepIsValid(s, events[0]);
      GoneStep(s, events[0], id);
      GoneForever(Next(s, events[0]), events[1..], id);
    }
  }

  /** A deletion keeps the task from ever starting again, in every run, if and only if it was not listed yet. */
  lemma DeleteStopsIff(s: State, id: string)
    requires Valid(s) && id in s.known
    ensures (forall events :: Possible(Next(s, Delete(id)), events) ==> StartCount(Next(s, Delete(id)), events, id) == 0)
            <==> !Listed(s.batch, id)
  {
    hide Listed, Possible, StartCount, NeverResumed, Valid;
    var deleted := Next(s, Delete(id));
    StepIsValid(s, Delete(id));
    if Listed(s.batch, id) {
      ListedIsNotExecuting(s, id);
      var events := ListedSucceeds(deleted, id);
    } else {
      forall events | Possible(deleted, events) ensures StartCount(deleted, events, id) == 0 {
        GoneForever(deleted, events, id);
      }
    }
  }

  lemma ListedIsNotExecuting(s: State, id: string)
    requires Valid(s) && Listed(s.batch, id)
    ensures !Executing(s, id)
  {
    hide Listed;
  }

  // ---- A restart ----

  /**
   * After a restart a task never starts again, in every run without a resume, if and only if its row does not say pending:
   * it was executing, paused, completed or failed, or the write that should have reset it was lost.
   */
  lemma RestartStopsIff(s: State, id: string)
    requires Valid(s) && id in s.known
    ensures (forall events :: Possible(Next(s, Restart), events) && NeverResumed(events, id) ==>
              StartCount(Next(s, Restart), events, id) == 0)
            <==> (id in s.table ==> s.table[id].status != Pending)
  {
    hide Retired, Listed, Possible, StartCount, NeverResumed, Valid;
    var restarted := Next(s, Restart);
    StepIsValid(s, Restart);
    RestartStrands(s, id);
    if id in s.table && s.table[id].status == Pending {
      var events := PendingSucceeds(restarted, id);
    } else {
      forall events | Possible(restarted, events) && NeverResumed(events, id) ensures StartCount(restarted, events, id) == 0 {
        RetiredNeverRuns(restarted, events, id);
      }
    }
  }

  // ---- Runs that reach a task ----

  /** A run extended in front by one step. */
  lemma After(s: State, e: Event, rest: seq<Event>, id: string)
    requires Enabled(s, e) && Possible(Next(s, e), rest) && Plain(rest, id)
    requires e != Resume(id) && !e.Create?
    ensures Possible(s, [e] + rest) && Plain([e] + rest, id)
    ensures Run(s, [e] + rest) == Run(Next(s, e), rest)
    ensures StartCount(s, [e] + rest, id) == (if Starts(s, e, id) then 1 else 0) + StartCount(Next(s, e), rest, id)
  {
    hide Enabled, Next, Starts;
    assert ([e] + rest)[1..] == rest;
  }

  /** The task at the front of the batch is marked, executed and successful; its last write fails. */
  lemma FrontSucceeds(s: State, id: string) returns (events: seq<Event>)
    requires s.batch != [] && s.batch[0].id == id && s.current.None?
    ensures Possible(s, events) && Plain(events, id) && StartCount(s, events, id) == 1
    ensures Successes(Run(s, events).log, id) == Successes(s.log, id) + 1
  {
    hide Successes;
    var begun := Next(s, Begin(true));
    var e := End(true, false, Never, 0);
    var ended := Next(begun, e);
    SuccessesAppend(s.log, Ran(id, true), id);
    assert Possible(ended, []) && Plain([], id);
    After(begun, e, [], id);
    After(s, Begin(true), [e] + [], id);
    events := [Begin(true)] + ([e] + []);
  }

  /** A listed task can be reached: what executes now ends, and the marking of the tasks before it fails. */
  lemma {:induction false} ListedSucceeds(s: State, id: string) returns (events: seq<Event>)
    requires Listed(s.batch, id) && !Executing(s, id)
    ensures Possible(s, events) && Plain(events, id) && StartCount(s, events, id) > 0
    ensures Successes(Run(s, events).log, id) == Successes(s.log, id) + 1
    decreases |s.batch|, s.current.Some?
  {
    hide Successes, Plain, Possible;
    if s.current.Some? {
      var e := End(false, false, Never, 0);
      SuccessesAppend(s.log, Ran(s.current.value.id, false), id);
      var rest := ListedSucceeds(Next(s, e), id);
      After(s, e, rest, id);
      events := [e] + rest;
    } else if s.batch[0].id == id {
      events := FrontSucceeds(s, id);
    } else {
      ListedBehind(s.batch, id);
      var rest := ListedSucceeds(Next(s, Begin(false)), id);
      After(s, Begin(false), rest, id);
      events := [Begin(false)] + rest;
    }
  }

  lemma ListedBehind(tasks: seq<Task>, id: string)
    requires Listed(tasks, id) && tasks[0].id != id
    ensures Listed(tasks[1..], id)
  {
    var k :| 0 <= k < |tasks| && tasks[k].id == id;
    assert tasks[1..][k - 1] == tasks[k];
  }

  /** A pending task can be reached: the batch is drained, and the task is listed once it is due. */
  lemma {:induction false} PendingSucceeds(s: State, id: string) returns (events: seq<Event>)
    requires id in s.table && s.table[id].status == Pending && !Executing(s, id)
    ensures Possible(s, events) && Plain(events, id) && StartCount(s, events, id) > 0
    ensures Successes(Run(s, events).log, id) == Successes(s.log, id) + 1
    decreases |s.batch|, s.current.Some?
  {
    hide Successes, Plain, Possible, Listed;
    if s.current.Some? {
      var e := End(false, false, Never, 0);
      SuccessesAppend(s.log, Ran(s.current.value.id, false), id);
      var rest := PendingSucceeds(Next(s, e), id);
      After(s, e, rest, id);
      events := [e] + rest;
    } else if s.batch != [] {
      if s.batch[0].id == id {
        events := FrontSucceeds(s, id);
      } else {
        var rest := PendingSucceeds(Next(s, Begin(false)), id);
        After(s, Begin(false), rest, id);
        events := [Begin(false)] + rest;
      }
    } else {
      var now := s.table[id].nextRun;
      var tasks := AListing(s.table, now);
      assert IsDue(s.table, id, now) && Listed(tasks, id);
      var rest := ListedSucceeds(Next(s, List(now, tasks)), id);
      After(s, List(now, tasks), rest, id);
      events := [List(now, tasks)] + rest;
    }
  }

  // ---- There is always a listing ----

  lemma {:induction false} EarliestOf(t: Table, ids: set<string>) returns (first: string)
    requires ids != {} && ids <= t.Keys
    ensures first in ids && forall id :: id in ids ==> t[first].nextRun <= t[id].nextRun
    decreases |ids|
  {
    first :| first in ids;
    var left := ids - {first};
    if left != {} {
      var other := EarliestOf(t, left);
      if t[other].nextRun < t[first].nextRun {
        first := other;
      }
    }
  }

  lemma {:induction false} InOrder(t: Table, ids: set<string>) returns (tasks: seq<Task>)
    requires ids <= t.Keys
    ensures forall k :: 0 <= k < |tasks| ==> tasks[k].id in ids && tasks[k].cron == t[tasks[k].id].cron
    ensures forall id :: id in ids ==> Listed(tasks, id)
    ensures forall j, k :: 0 <= j < k < |tasks| ==>
              tasks[j].id != tasks[k].id && t[tasks[j].id].nextRun <= t[tasks[k].id].nextRun
    decreases |ids|
  {
    hide Listed;
    tasks := [];
    if ids != {} {
      var first := EarliestOf(t, ids);
      var rest := InOrder(t, ids - {first});
      tasks := [Task(first, t[first].cron)] + rest;
      ListedInFront(Task(first, t[first].cron), rest);
    }
  }

  lemma ListedInFront(task: Task, rest: seq<Task>)
    ensures Listed([task] + rest, task.id)
    ensures forall id :: Listed(rest, id) ==> Listed([task] + rest, id)
  {
    assert ([task] + rest)[0] == task;
    forall id | Listed(rest, id) ensures Listed([task] + rest, id) {
      var k :| 0 <= k < |rest| && rest[k].id == id;
      assert ([task] + rest)[k + 1] == rest[k];
    }
  }

  lemma AListing(t: Table, now: int) returns (tasks: seq<Task>)
    ensures IsListing(t, now, tasks)
  {
    hide Listed;
    tasks := InOrder(t, set id | id in t && IsDue(t, id, now));
  }

  // ---- A resume of a one-shot task ----

  lemma {:induction false} PlainIsHarmless(s: State, events: seq<Event>, id: string)
    requires Possible(s, events) && NeverResumed(events, id)
    ensures ResumedHarmlessly(s, events, id)
    decreases |events|
  {
    hide Next, Enabled, Harmless;
    if events != [] {
      assert events[0] != Resume(id);
      PlainIsHarmless(Next(s, events[0]), events[1..], id);
    }
  }

  /** Resumed after its success, or while it executes, a one-shot task can succeed twice. */
  lemma HarmfulResume(s: State, id: string) returns (events: seq<Event>)
    requires Valid(s) && AtMostOnce(s, id) && !Harmless(s, id)
    ensures Possible(Next(s, Resume(id)), events) && Plain(events, id)
    ensures Successes(Run(Next(s, Resume(id)), events).log, id) > 1
  {
    hide Successes, Plain, Possible, Listed, Valid;
    var resumed := Next(s, Resume(id));
    if Executing(s, id) {
      var e := End(true, false, Never, 0);
      SuccessesAppend(s.log, Ran(id, true), id);
      var rest := PendingSucceeds(Next(resumed, e), id);
      After(resumed, e, rest, id);
      events := [e] + rest;
    } else {
      events := PendingSucceeds(resumed, id);
    }
  }

  /** A resume leaves a one-shot task with one success at most, whatever happens next, if and only if it is harmless. */
  lemma ResumeIsSafeIff(s: State, id: string)
    requires Valid(s) && AtMostOnce(s, id)
    ensures (forall events :: Possible(Next(s, Resume(id)), events) && Plain(events, id) ==>
              Successes(Run(Next(s, Resume(id)), events).log, id) <= 1)
            <==> Harmless(s, id)
  {
    hide Possible, Plain, AtMostOnce, Successes, Harmless, Valid, Next;
    var resumed := Next(s, Resume(id));
    if Harmless(s, id) {
      StepIsValid(s, Resume(id));
      AtMostOnceStep(s, Resume(id), id);
      forall events | Possible(resumed, events) && Plain(events, id) ensures Successes(Run(resumed, events).log, id) <= 1 {
        PlainRun(resumed, events, id);
      }
    } else {
      var events := HarmfulResume(s, id);
    }
  }

  lemma PlainRun(s: State, events: seq<Event>, id: string)
    requires Valid(s) && AtMostOnce(s, id) && Possible(s, events) && Plain(events, id)
    ensures Successes(Run(s, events).log, id) <= 1
  {
    hide Possible, Successes, Valid, Next, NeverResumed, CreatedOneShot;
    PlainIsHarmless(s, events, id);
    AtMostOnceRun(s, events, id);
  }
}
