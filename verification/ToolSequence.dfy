/**
 * The repair of a message list before it is sent: results are moved right behind their assistant message, missing
 * ones are made up, orphans are dropped. `Repair` is what the nested loops of `SanitizeToolCallSequence` compute.
 */
module ToolSequence {
  import opened Messages

  /** What the scan behind one assistant message collects, and the messages it has not looked at. */
  datatype Turn = Turn(results: map<string, Message>, deferred: seq<Message>, rest: seq<Message>)

  /** A result for one of `ids` replaces an earlier one; any other tool message is ignored. */
  function Record(results: map<string, Message>, ids: seq<string>, m: Message): map<string, Message> {
    if m.toolCallId.Some? && m.toolCallId.value in ids then results[m.toolCallId.value := m] else results
  }

  function Gather(ms: seq<Message>, ids: seq<string>, results: map<string, Message>, deferred: seq<Message>): (t: Turn)
    ensures |t.rest| <= |ms|
    decreases |ms|
  {
    if ms == [] || |results| >= |ids| || IsAssistant(ms[0]) then Turn(results, deferred, ms)
    else if IsTool(ms[0]) then Gather(ms[1..], ids, Record(results, ids, ms[0]), deferred)
    else Gather(ms[1..], ids, results, deferred + [ms[0]])
  }

  /** The results in call order; each collected result is used once. */
  function Replies(ids: seq<string>, results: map<string, Message>): (r: seq<Message>)
    ensures |r| == |ids|
    decreases |ids|
  {
    if ids == [] then []
    else [if ids[0] in results then results[ids[0]] else Synthetic(ids[0])] + Replies(ids[1..], results - {ids[0]})
  }

  function Repair(ms: seq<Message>): seq<Message>
    decreases |ms|
  {
    if ms == [] then []
    else if ToolIds(ms[0]) == [] then (if IsTool(ms[0]) then [] else [ms[0]]) + Repair(ms[1..])
    else
      var t := Gather(ms[1..], ToolIds(ms[0]), map[], []);
      [ms[0]] + Replies(ToolIds(ms[0]), t.results) + t.deferred + Repair(t.rest)
  }

  method SanitizeToolCallSequence(msgs: seq<Message>) returns (out: seq<Message>)
    ensures out == Repair(msgs)
  {
    hide Gather, Replies, Repair, ToolIds, NonTools, Record;
    out := [];
    var i := 0;
    RepairEmpty(msgs);
    while i < |msgs|
      invariant 0 <= i <= |msgs|
      invariant out + Repair(msgs[i..]) == Repair(msgs)
    {
      var msg := msgs[i];
      var toolIds := ToolIds(msg);
      RepairStep(msgs, i, out);
      if toolIds == [] {
        if !IsTool(msg) {
          out := out + [msg];
        }
        i := i + 1;
        continue;
      }
      out := out + [msg];
      i := i + 1;
      ghost var turn := Gather(msgs[i..], toolIds, map[], []);
      var results: map<string, Message> := map[];
      var deferred: seq<Message> := [];
      while i < |msgs| && |results| < |toolIds|
        invariant i <= |msgs|
        invariant Gather(msgs[i..], toolIds, results, deferred) == turn
        decreases |msgs| - i
      {
        var candidate := msgs[i];
        GatherStep(msgs, i, toolIds, results, deferred);
        if IsAssistant(candidate) {
          break;
        }
        if IsTool(candidate) {
          results := Record(results, toolIds, candidate);
        } else {
          deferred := deferred + [candidate];
        }
        i := i + 1;
      }
      GatherStops(msgs, i, toolIds, results, deferred);
      ghost var before := out;
      ghost var collected := results;
      var k := 0;
      RepliesEmpty(toolIds, results);
      while k < |toolIds|
        invariant 0 <= k <= |toolIds|
        invariant out + Replies(toolIds[k..], results) == before + Replies(toolIds, collected)
      {
        var id := toolIds[k];
        RepliesStep(toolIds, k, results);
        if id in results {
          out := out + [results[id]];
          results := results - {id};
        } else {
          out := out + [Synthetic(id)];
        }
        k := k + 1;
      }
      RepliesEmpty(toolIds, results);
      out := out + deferred;
    }
    RepairEmpty(msgs);
  }

  lemma RepairEmpty(ms: seq<Message>)
    ensures Repair([]) == []
    ensures ms[0..] == ms && ms[|ms|..] == []
  {
  }

  /** One round of the outer loop. */
  lemma RepairStep(ms: seq<Message>, i: nat, out: seq<Message>)
    requires i < |ms|
    ensures ToolIds(ms[i]) == [] && IsTool(ms[i]) ==> Repair(ms[i..]) == Repair(ms[i + 1..])
    ensures ToolIds(ms[i]) == [] && !IsTool(ms[i]) ==> out + Repair(ms[i..]) == out + [ms[i]] + Repair(ms[i + 1..])
    ensures ToolIds(ms[i]) != [] ==>
              var t := Gather(ms[i + 1..], ToolIds(ms[i]), map[], []);
              out + Repair(ms[i..])
              == out + [ms[i]] + Replies(ToolIds(ms[i]), t.results) + t.deferred + Repair(t.rest)
  {
    hide Gather, Replies, ToolIds;
    assert ms[i..][0] == ms[i] && ms[i..][1..] == ms[i + 1..];
  }

  /** One round of the scan. */
  lemma GatherStep(ms: seq<Message>, i: nat, ids: seq<string>, results: map<string, Message>, deferred: seq<Message>)
    requires i < |ms| && |results| < |ids|
    ensures var t := Gather(ms[i..], ids, results, deferred);
            if IsAssistant(ms[i]) then t == Turn(results, deferred, ms[i..])
            else if IsTool(ms[i]) then t == Gather(ms[i + 1..], ids, Record(results, ids, ms[i]), deferred)
            else t == Gather(ms[i + 1..], ids, results, deferred + [ms[i]])
  {
    hide Record;
    assert ms[i..][0] == ms[i] && ms[i..][1..] == ms[i + 1..];
  }

  lemma GatherStops(ms: seq<Message>, i: nat, ids: seq<string>, results: map<string, Message>, deferred: seq<Message>)
    requires i <= |ms|
    requires i == |ms| || |results| >= |ids| || IsAssistant(ms[i])
    ensures Gather(ms[i..], ids, results, deferred) == Turn(results, deferred, ms[i..])
  {
    if i < |ms| {
      assert ms[i..][0] == ms[i];
    }
  }

  lemma RepliesEmpty(ids: seq<string>, results: map<string, Message>)
    ensures Replies(ids[|ids|..], results) == []
    ensures ids[0..] == ids
  {
  }

  lemma RepliesStep(ids: seq<string>, k: nat, results: map<string, Message>)
    requires k < |ids|
    ensures Replies(ids[k..], results)
         == [if ids[k] in results then results[ids[k]] else Synthetic(ids[k])]
            + Replies(ids[k + 1..], results - {ids[k]})
    ensures ids[k] !in results ==> results - {ids[k]} == results
  {
    assert ids[k..][0] == ids[k] && ids[k..][1..] == ids[k + 1..];
  }
}
