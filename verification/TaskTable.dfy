/**
 * The scheduled-task table with its queries, updated in place. Listing returns a listing in the scheduler's sense.
 */
module TaskTable {
  import opened Wrappers
  import opened Scheduler

  class ScheduledTasks {
    var rows: Table

    constructor ()
      ensures rows == map[]
    {
      rows := map[];
    }

    /** The primary key is unique: a second insert under one id fails. */
    method Create(id: string, row: Row) returns (ok: bool)
      modifies this
      ensures ok <==> id !in old(rows)
      ensures rows == if ok then old(rows)[id := row] else old(rows)
    {
      ok := id !in rows;
      if ok {
        rows := rows[id := row];
      }
    }

    /** Pausing and resuming are the updates to `Paused` and `Pending`. */
    method UpdateTaskStatus(id: string, status: Status)
      modifies this
      ensures rows == UpdateStatus(old(rows), id, status)
    {
      if id in rows {
        rows := rows[id := rows[id].(status := status)];
      }
    }

    method CompleteTask(id: string, now: int)
      modifies this
      ensures rows == Scheduler.CompleteTask(old(rows), id, now)
    {
      if id in rows {
        rows := rows[id := rows[id].(status := Completed, lastRun := Some(now))];
      }
    }

    method UpdateTaskNextRun(id: string, next: int)
      modifies this
      ensures rows.Keys == old(rows).Keys
      ensures id in rows ==>
                && rows[id].status == Pending && rows[id].nextRun == next
                && rows[id].lastRun == Some(old(rows)[id].nextRun) && rows[id].cron == old(rows)[id].cron
      ensures forall other :: other in rows && other != id ==> rows[other] == old(rows)[other]
      ensures rows == UpdateNextRun(old(rows), id, next)
    {
      if id in rows {
        var due := rows[id].nextRun;
        rows := rows[id := rows[id].(nextRun := next, lastRun := Some(due), status := Pending)];
      }
    }

    method DeleteTask(id: string) returns (deleted: bool)
      modifies this
      ensures deleted <==> id in old(rows)
      ensures rows == Scheduler.DeleteTask(old(rows), id)
    {
      deleted := id in rows;
      rows := rows - {id};
    }

    /** All pending tasks whose time has come, the longest due first. */
    method ListDueTasks(now: int) returns (tasks: seq<Task>)
      ensures IsListing(rows, now, tasks)
    {
      hide Listed;
      tasks := [];
      var remaining := set id | id in rows && rows[id].status == Pending && rows[id].nextRun <= now;
      while remaining != {}
        invariant forall id :: id in remaining ==> IsDue(rows, id, now)
        invariant Sound(rows, now, tasks)
        invariant forall id :: id in rows && IsDue(rows, id, now) ==> id in remaining || Listed(tasks, id)
        invariant forall k, id :: 0 <= k < |tasks| && id in remaining ==>
                    tasks[k].id != id && rows[tasks[k].id].nextRun <= rows[id].nextRun
        decreases |remaining|
      {
        var first := Earliest(remaining);
        ListedMore(tasks, Task(first, rows[first].cron));
        tasks := tasks + [Task(first, rows[first].cron)];
        remaining := remaining - {first};
      }
    }

    /** One of the ids with the smallest due time. */
    method Earliest(ids: set<string>) returns (first: string)
      requires ids != {} && forall id :: id in ids ==> id in rows
      ensures first in ids && forall id :: id in ids ==> rows[first].nextRun <= rows[id].nextRun
    {
      first :| first in ids;
      var left := ids - {first};
      while left != {}
        invariant first in ids && left <= ids
        invariant forall id :: id in ids - left ==> rows[first].nextRun <= rows[id].nextRun
        decreases |left|
      {
        var id :| id in left;
        if rows[id].nextRun < rows[first].nextRun {
          first := id;
        }
        left := left - {id};
      }
    }
  }

  /** Due tasks, distinct and in order. */
  predicate Sound(t: Table, now: int, tasks: seq<Task>) {
    && (forall k :: 0 <= k < |tasks| ==> IsDue(t, tasks[k].id, now) && tasks[k].cron == t[tasks[k].id].cron)
    && (forall j, k :: 0 <= j < k < |tasks| ==>
          tasks[j].id != tasks[k].id && t[tasks[j].id].nextRun <= t[tasks[k].id].nextRun)
  }

  lemma ListedMore(tasks: seq<Task>, task: Task)
    ensures Listed(tasks + [task], task.id)
    ensures forall id :: Listed(tasks, id) ==> Listed(tasks + [task], id)
  {
    assert (tasks + [task])[|tasks|] == task;
    forall id | Listed(tasks, id) ensures Listed(tasks + [task], id) {
      var k :| 0 <= k < |tasks| && tasks[k].id == id;
      assert (tasks + [task])[k] == tasks[k];
    }
  }

  lemma ListedAreDue(t: Table, now: int, tasks: seq<Task>)
    requires IsListing(t, now, tasks)
    ensures forall id :: Listed(tasks, id) <==> IsDue(t, id, now)
  {
    forall id ensures Listed(tasks, id) <==> IsDue(t, id, now) {
      if Listed(tasks, id) {
        var k :| 0 <= k < |tasks| && tasks[k].id == id;
        assert IsDue(t, tasks[k].id, now);
      }
    }
  }

  /** A task whose status was set is listed if and only if it was set to pending and is due; no other listing changes. */
  lemma StatusDecidesListing(t: Table, id: string, status: Status, now: int, before: seq<Task>, after: seq<Task>)
    requires id in t && IsListing(t, now, before) && IsListing(UpdateStatus(t, id, status), now, after)
    ensures Listed(after, id) <==> status == Pending && t[id].nextRun <= now
    ensures forall other :: other != id ==> (Listed(after, other) <==> Listed(before, other))
  {
    hide Listed;
    ListedAreDue(t, now, before);
    ListedAreDue(UpdateStatus(t, id, status), now, after);
    forall other | other != id ensures IsDue(UpdateStatus(t, id, status), other, now) <==> IsDue(t, other, now) {
    }
  }

  /** A listing without one of its tasks. */
  function Without(tasks: seq<Task>, id: string): seq<Task>
    decreases |tasks|
  {
    if tasks == [] then []
    else (if tasks[0].id == id then [] else [tasks[0]]) + Without(tasks[1..], id)
  }

  lemma {:induction false} WithoutKeeps(tasks: seq<Task>, id: string, other: string)
    ensures Listed(Without(tasks, id), other) <==> Listed(tasks, other) && other != id
    decreases |tasks|
  {
    hide Listed;
    NothingListed(other);
    if tasks != [] {
      var first, rest := tasks[0], Without(tasks[1..], id);
      WithoutKeeps(tasks[1..], id, other);
      ListedFirst(first, tasks[1..], other);
      ListedFirst(first, rest, other);
      assert tasks == [first] + tasks[1..] && [] + rest == rest;
    }
  }

  lemma NothingListed(id: string)
    ensures !Listed([], id)
  {
  }

  lemma ListedFirst(task: Task, rest: seq<Task>, id: string)
    ensures Listed([task] + rest, id) <==> task.id == id || Listed(rest, id)
  {
    if Listed(rest, id) {
      var k :| 0 <= k < |rest| && rest[k].id == id;
      assert ([task] + rest)[k + 1] == rest[k];
    }
    assert ([task] + rest)[0] == task;
  }

  lemma {:induction false} WithoutIsPart(tasks: seq<Task>, id: string)
    ensures forall x :: x in Without(tasks, id) ==> x in tasks && x.id != id
    decreases |tasks|
  {
    if tasks != [] {
      WithoutIsPart(tasks[1..], id);
    }
  }

  /** Leaving a task out keeps due tasks distinct and in order. */
  lemma {:induction false} WithoutIsSound(t: Table, now: int, tasks: seq<Task>, id: string)
    requires Sound(t, now, tasks)
    ensures Sound(t, now, Without(tasks, id))
    ensures forall x :: x in Without(tasks, id) ==> x in tasks && x.id != id
    decreases |tasks|
  {
    hide IsDue;
    WithoutIsPart(tasks, id);
    if tasks != [] {
      SoundTail(t, now, tasks);
      WithoutIsSound(t, now, tasks[1..], id);
      if tasks[0].id != id {
        SoundFront(t, now, tasks[0], tasks[1..], Without(tasks[1..], id));
      }
    }
  }

  lemma SoundTail(t: Table, now: int, tasks: seq<Task>)
    requires Sound(t, now, tasks) && tasks != []
    ensures Sound(t, now, tasks[1..]) && tasks == [tasks[0]] + tasks[1..]
  {
    hide IsDue;
    assert forall k :: 0 <= k < |tasks[1..]| ==> tasks[1..][k] == tasks[k + 1];
  }

  /** The first of a sound list in front of some of the others. */
  lemma SoundFront(t: Table, now: int, first: Task, tasks: seq<Task>, some: seq<Task>)
    requires Sound(t, now, [first] + tasks) && Sound(t, now, some) && forall x :: x in some ==> x in tasks
    ensures Sound(t, now, [first] + some)
  {
    var all, part := [first] + tasks, [first] + some;
    assert all[0] == first;
    forall k | 0 < k < |part|
      ensures first.id != part[k].id && IsDue(t, first.id, now) && IsDue(t, part[k].id, now)
      ensures t[first.id].nextRun <= t[part[k].id].nextRun
    {
      assert part[k] == some[k - 1] && some[k - 1] in tasks;
      var j :| 0 <= j < |tasks| && tasks[j] == part[k];
      assert all[j + 1] == part[k];
    }
  }

  lemma RescheduledIsDue(t: Table, id: string, next: int, now: int, other: string)
    requires id in t
    ensures IsDue(UpdateNextRun(t, id, next), other, now) <==> if other == id then next <= now else IsDue(t, other, now)
    ensures IsDue(t, other, now) ==> other in t
  {
  }

  /** A listing without the task is a listing of the table in which it is due later. */
  lemma {:induction false} LaterLeavesListing(t: Table, id: string, next: int, now: int, tasks: seq<Task>)
    requires id in t && IsListing(t, now, tasks) && next > now
    ensures IsListing(UpdateNextRun(t, id, next), now, Without(tasks, id))
  {
    hide Listed, IsDue, UpdateNextRun;
    var t', rest := UpdateNextRun(t, id, next), Without(tasks, id);
    ListingIsSound(t, now, tasks);
    WithoutIsSound(t, now, tasks, id);
    forall k | 0 <= k < |rest| ensures IsDue(t', rest[k].id, now) && rest[k].id in t && rest[k].id != id {
      assert rest[k] in rest;
      RescheduledIsDue(t, id, next, now, rest[k].id);
    }
    RowsStay(t, id, next);
    ListedAreDue(t, now, tasks);
    forall other | IsDue(t', other, now) ensures Listed(rest, other) {
      RescheduledIsDue(t, id, next, now, other);
      WithoutKeeps(tasks, id, other);
    }
  }

  lemma ListingIsSound(t: Table, now: int, tasks: seq<Task>)
    requires IsListing(t, now, tasks)
    ensures Sound(t, now, tasks)
  {
  }

  lemma RowsStay(t: Table, id: string, next: int)
    ensures var t' := UpdateNextRun(t, id, next);
            forall other :: other in t && other != id ==> other in t' && t'[other] == t[other]
  {
  }

  /**
   * A task that was given its next run is listed again from that time on and not before, and no other task's listing
   * changes: before that time, the listing without the task is a listing.
   */
  lemma {:induction false} RescheduledIsListed(t: Table, id: string, next: int, now: int, before: seq<Task>,
                                               after: seq<Task>)
    requires id in t && IsListing(t, now, before) && IsListing(UpdateNextRun(t, id, next), now, after)
    ensures Listed(after, id) <==> next <= now
    ensures forall other :: other != id ==> (Listed(after, other) <==> Listed(before, other))
    ensures next > now ==> IsListing(UpdateNextRun(t, id, next), now, Without(before, id))
  {
    hide Listed, IsListing, IsDue, UpdateNextRun;
    ListedAreDue(t, now, before);
    ListedAreDue(UpdateNextRun(t, id, next), now, after);
    RescheduledIsDue(t, id, next, now, id);
    forall other | other != id ensures Listed(after, other) <==> Listed(before, other) {
      RescheduledIsDue(t, id, next, now, other);
    }
    if next > now {
      LaterLeavesListing(t, id, next, now, before);
    }
  }
}
