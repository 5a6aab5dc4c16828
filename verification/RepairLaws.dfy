/**
 * What the repair guarantees for every message list: the result is accepted by the API, messages other than results
 * are kept in order, results are the last matching ones or made up, and nothing is used twice.
 */
module RepairLaws {
  import opened Sequences
  import opened Wrappers
  import opened Messages
  import opened ToolSequence

  // ---- What the scan collects ----

  /** The last result for `id`. */
  function LastFor(ms: seq<Message>, id: string): Option<Message>
    decreases |ms|
  {
    if ms == [] then None
    else
      var later := LastFor(ms[1..], id);
      if later.Some? then later
      else if IsTool(ms[0]) && ms[0].toolCallId == Some(id) then Some(ms[0])
      else None
  }

  function Look(results: map<string, Message>, id: string): Option<Message> {
    if id in results then Some(results[id]) else None
  }

  predicate Matching(results: map<string, Message>) {
    forall id :: id in results ==> IsTool(results[id]) && results[id].toolCallId == Some(id)
  }

  /** All of `ids` are different and `ms` has a result for each. */
  predicate Complete(ms: seq<Message>, ids: seq<string>) {
    Distinct(ids) && forall k :: 0 <= k < |ids| ==> LastFor(ms, ids[k]).Some?
  }

  predicate NoAssistant(ms: seq<Message>) {
    forall k :: 0 <= k < |ms| ==> !IsAssistant(ms[k])
  }

  /** The scan covers the first `n` messages: up to the next assistant message, or until every call has a result. */
  predicate IsWindow(ms: seq<Message>, ids: seq<string>, n: nat) {
    && n <= |ms|
    && NoAssistant(ms[..n])
    && (n == |ms| || IsAssistant(ms[n]) || Complete(ms[..n], ids))
    && (forall k :: 0 <= k < n ==> !Complete(ms[..k], ids))
  }

  lemma RecordMeans(results: map<string, Message>, ids: seq<string>, m: Message, id: string)
    requires IsTool(m)
    ensures Look(Record(results, ids, m), id)
         == (if id in ids && m.toolCallId == Some(id) then Some(m) else Look(results, id))
    ensures Matching(results) ==> Matching(Record(results, ids, m))
    ensures Record(results, ids, m).Keys <= results.Keys + (set x | x in ids)
  {
  }

  /** The scan took the first `n` messages and put those that are not results aside. */
  predicate Splits(ms: seq<Message>, deferred: seq<Message>, t: Turn, n: nat) {
    && n <= |ms|
    && t.rest == ms[n..]
    && NoAssistant(ms[..n])
    && t.deferred == deferred + NonTools(ms[..n])
  }

  lemma SplitsStep(ms: seq<Message>, deferred: seq<Message>, t: Turn, n: nat)
    requires ms != [] && !IsAssistant(ms[0])
    requires Splits(ms[1..], deferred + (if IsTool(ms[0]) then [] else [ms[0]]), t, n)
    ensures Splits(ms, deferred, t, n + 1)
  {
    WindowSplit(ms, n + 1);
    var window := ms[..n + 1];
    forall k | 0 <= k < |window| ensures !IsAssistant(window[k]) {
      if k > 0 {
        assert ms[1..][..n][k - 1] == ms[k];
      }
    }
  }

  /** A window of at least one message is that message and the window behind it. */
  lemma WindowSplit(ms: seq<Message>, n: nat)
    requires 0 < n <= |ms|
    ensures ms[..n][0] == ms[0] && ms[..n][1..] == ms[1..][..n - 1]
    ensures ms[n..] == ms[1..][n - 1..]
  {
  }

  /** How far the scan gets, as a number of messages. */
  function Reach(ms: seq<Message>, ids: seq<string>, results: map<string, Message>, deferred: seq<Message>): nat {
    |ms| - |Gather(ms, ids, results, deferred).rest|
  }

  lemma {:induction false} GatherSplits(ms: seq<Message>, ids: seq<string>, results: map<string, Message>,
                                        deferred: seq<Message>)
    ensures Splits(ms, deferred, Gather(ms, ids, results, deferred), Reach(ms, ids, results, deferred))
    decreases |ms|
  {
    hide Record, Splits;
    if ms == [] || |results| >= |ids| || IsAssistant(ms[0]) {
      SplitsNothing(ms, results, deferred);
    } else if IsTool(ms[0]) {
      GatherSplits(ms[1..], ids, Record(results, ids, ms[0]), deferred);
      assert deferred + [] == deferred;
      SplitsStep(ms, deferred, Gather(ms, ids, results, deferred), Reach(ms, ids, results, deferred) - 1);
    } else {
      GatherSplits(ms[1..], ids, results, deferred + [ms[0]]);
      SplitsStep(ms, deferred, Gather(ms, ids, results, deferred), Reach(ms, ids, results, deferred) - 1);
    }
  }

  lemma SplitsNothing(ms: seq<Message>, results: map<string, Message>, deferred: seq<Message>)
    ensures Splits(ms, deferred, Turn(results, deferred, ms), 0)
  {
    assert deferred + [] == deferred;
  }

  /** Why the scan stopped. */
  lemma {:induction false} GatherEnds(ms: seq<Message>, ids: seq<string>, results: map<string, Message>,
                                      deferred: seq<Message>)
    ensures var t := Gather(ms, ids, results, deferred);
            t.rest == [] || IsAssistant(t.rest[0]) || |t.results| >= |ids|
    ensures Matching(results) ==> Matching(Gather(ms, ids, results, deferred).results)
    decreases |ms|
  {
    hide Record, Matching;
    if ms == [] || |results| >= |ids| || IsAssistant(ms[0]) {
    } else if IsTool(ms[0]) {
      RecordMeans(results, ids, ms[0], "");
      GatherEnds(ms[1..], ids, Record(results, ids, ms[0]), deferred);
    } else {
      GatherEnds(ms[1..], ids, results, deferred + [ms[0]]);
    }
  }

  // ---- The repaired list is valid ----

  lemma {:induction false} RepliesAnswer(ids: seq<string>, results: map<string, Message>)
    requires Matching(results)
    ensures Answers(Replies(ids, results), ids)
    decreases |ids|
  {
    if ids != [] {
      var rest := Replies(ids[1..], results - {ids[0]});
      RepliesAnswer(ids[1..], results - {ids[0]});
      assert forall k :: 0 < k < |ids| ==> ids[k] == ids[1..][k - 1] && Replies(ids, results)[k] == rest[k - 1];
    }
  }

  /** What a scan puts aside asks for nothing and answers nothing. */
  lemma DeferredIsPlain(ms: seq<Message>)
    requires NoAssistant(ms)
    ensures WireValid(NonTools(ms))
  {
    NonToolsHasNoTools(ms);
    WireValidPlain(NonTools(ms));
  }

  /** The parts of a repaired turn. */
  lemma TurnParts(m: Message, ms: seq<Message>)
    requires ToolIds(m) != []
    ensures var t := Gather(ms, ToolIds(m), map[], []);
            && |t.rest| <= |ms|
            && Matching(t.results)
            && t.deferred == NonTools(ms[..|ms| - |t.rest|])
            && t.rest == ms[|ms| - |t.rest|..]
            && NoAssistant(ms[..|ms| - |t.rest|])
  {
    hide ToolIds, Gather;
    GatherSplits(ms, ToolIds(m), map[], []);
    GatherEnds(ms, ToolIds(m), map[], []);
  }

  /** Every message list is repaired into one the API accepts. */
  lemma {:induction false} RepairIsWireValid(ms: seq<Message>)
    ensures WireValid(Repair(ms))
    decreases |ms|
  {
    hide ToolIds, Gather, Replies, Answers, Matching;
    if ms == [] {
    } else if ToolIds(ms[0]) == [] {
      RepairIsWireValid(ms[1..]);
      PlainInFront(ms[0], Repair(ms[1..]));
    } else {
      var t := Gather(ms[1..], ToolIds(ms[0]), map[], []);
      TurnParts(ms[0], ms[1..]);
      RepairIsWireValid(t.rest);
      RepliesAnswer(ToolIds(ms[0]), t.results);
      DeferredIsPlain(ms[1..][..|ms[1..]| - |t.rest|]);
      WireValidConcat(t.deferred, Repair(t.rest));
      AsksAreNotTools(ms[0]);
      WireValidTurn(ms[0], Replies(ToolIds(ms[0]), t.results), t.deferred + Repair(t.rest));
      Regroup([ms[0]] + Replies(ToolIds(ms[0]), t.results), t.deferred, Repair(t.rest));
    }
  }

  lemma AsksAreNotTools(m: Message)
    ensures ToolIds(m) != [] ==> IsAssistant(m) && !IsTool(m)
  {
  }

  lemma PlainInFront(m: Message, rest: seq<Message>)
    requires ToolIds(m) == [] && WireValid(rest)
    ensures WireValid((if IsTool(m) then [] else [m]) + rest)
  {
    hide WireValid, ToolIds;
    if IsTool(m) {
      assert [] + rest == rest;
    } else {
      WireValidTurn(m, [], rest);
      assert [m] + [] + rest == [m] + rest;
    }
  }

  // ---- Everything but results is kept, in order ----

  lemma {:induction false} RepairKeepsNonTools(ms: seq<Message>)
    ensures NonTools(Repair(ms)) == NonTools(ms)
    decreases |ms|
  {
    hide ToolIds, Gather, Replies, Answers, Matching;
    if ms == [] {
    } else if ToolIds(ms[0]) == [] {
      RepairKeepsNonTools(ms[1..]);
      NonToolsConcat(if IsTool(ms[0]) then [] else [ms[0]], Repair(ms[1..]));
      NonToolsOne(ms[0]);
    } else {
      var t := Gather(ms[1..], ToolIds(ms[0]), map[], []);
      var replies := Replies(ToolIds(ms[0]), t.results);
      TurnParts(ms[0], ms[1..]);
      RepairKeepsNonTools(t.rest);
      RepliesAnswer(ToolIds(ms[0]), t.results);
      AnswersHaveNoNonTools(replies, ToolIds(ms[0]));
      var n := |ms[1..]| - |t.rest|;
      NonToolsOfWindow(ms[1..], n);
      AsksAreNotTools(ms[0]);
      NonToolsOne(ms[0]);
      NonToolsFour([ms[0]], replies, t.deferred, Repair(t.rest));
      NonToolsTwice(ms[1..][..n]);
      Regroup([ms[0]], t.deferred, NonTools(t.rest));
      assert [ms[0]] + [] == [ms[0]];
    }
  }

  lemma NonToolsOne(m: Message)
    ensures NonTools([m]) == if IsTool(m) then [] else [m]
  {
    assert [m][1..] == [];
  }

  lemma NonToolsTwice(ms: seq<Message>)
    ensures NonTools(NonTools(ms)) == NonTools(ms)
  {
    NonToolsHasNoTools(ms);
    NoToolsIdentity(NonTools(ms));
  }

  lemma NonToolsFour(a: seq<Message>, b: seq<Message>, c: seq<Message>, d: seq<Message>)
    ensures NonTools(a + b + c + d) == NonTools(a) + NonTools(b) + NonTools(c) + NonTools(d)
  {
    NonToolsConcat(a + b + c, d);
    NonToolsConcat(a + b, c);
    NonToolsConcat(a, b);
  }

  lemma {:induction false} NonToolsOfWindow(ms: seq<Message>, n: nat)
    requires n <= |ms|
    ensures NonTools(ms) == NonTools(ms[..n]) + NonTools(ms[n..])
  {
    NonToolsConcat(ms[..n], ms[n..]);
    assert ms[..n] + ms[n..] == ms;
  }

  lemma AnswersHaveNoNonTools(answers: seq<Message>, ids: seq<string>)
    requires Answers(answers, ids) && |answers| == |ids|
    ensures NonTools(answers) == []
  {
    AllToolsNoNonTools(answers);
  }

  // ---- Which result each call gets ----

  lemma LastForStep(ms: seq<Message>, n: nat, id: string)
    requires 0 < n <= |ms|
    ensures LastFor(ms[..n], id)
         == if LastFor(ms[1..][..n - 1], id).Some? then LastFor(ms[1..][..n - 1], id)
            else if IsTool(ms[0]) && ms[0].toolCallId == Some(id) then Some(ms[0])
            else None
  {
    WindowSplit(ms, n);
  }

  lemma LastForNothing(ms: seq<Message>, id: string)
    ensures LastFor(ms[..0], id) == None
  {
  }

  lemma {:induction false} GatherLooks(ms: seq<Message>, ids: seq<string>, results: map<string, Message>,
                                       deferred: seq<Message>, id: string)
    ensures var n, t := Reach(ms, ids, results, deferred), Gather(ms, ids, results, deferred);
            && n <= |ms|
            && Look(t.results, id)
               == (if id in ids && LastFor(ms[..n], id).Some? then LastFor(ms[..n], id) else Look(results, id))
    decreases |ms|
  {
    hide Record, Look, LastFor;
    if ms == [] || |results| >= |ids| || IsAssistant(ms[0]) {
      LastForNothing(ms, id);
    } else {
      LastForStep(ms, Reach(ms, ids, results, deferred), id);
      if IsTool(ms[0]) {
        RecordMeans(results, ids, ms[0], id);
        GatherLooks(ms[1..], ids, Record(results, ids, ms[0]), deferred, id);
      } else {
        GatherLooks(ms[1..], ids, results, deferred + [ms[0]], id);
      }
    }
  }

  /** Every id has a result, collected before or found in `ms`, and no id repeats. */
  predicate Enough(results: map<string, Message>, ms: seq<Message>, ids: seq<string>) {
    Distinct(ids) && forall k :: 0 <= k < |ids| ==> ids[k] in results || LastFor(ms, ids[k]).Some?
  }

  lemma {:induction false} DistinctIdsFill(ids: seq<string>, keys: set<string>)
    requires Distinct(ids) && forall k :: 0 <= k < |ids| ==> ids[k] in keys
    ensures |ids| <= |keys|
    decreases |ids|
  {
    if ids != [] {
      DistinctIdsFill(ids[1..], keys - {ids[0]});
    }
  }

  lemma {:induction false} FilledIdsAreDistinct(ids: seq<string>, keys: set<string>)
    requires |keys| >= |ids| && forall x :: x in keys ==> x in ids
    ensures Distinct(ids) && forall k :: 0 <= k < |ids| ==> ids[k] in keys
    decreases |ids|
  {
    if ids != [] {
      var rest := keys - {ids[0]};
      assert forall x :: x in rest ==> x in ids[1..];
      FilledIdsAreDistinct(ids[1..], rest);
      if ids[0] in ids[1..] || ids[0] !in keys {
        FewerKeys(ids, keys);
      }
    }
  }

  lemma FewerKeys(ids: seq<string>, keys: set<string>)
    requires ids != [] && (ids[0] in ids[1..] || ids[0] !in keys) && forall x :: x in keys ==> x in ids
    ensures |keys| < |ids|
  {
    TooFewIds(ids[1..], keys);
  }

  lemma {:induction false} TooFewIds(ids: seq<string>, keys: set<string>)
    requires forall x :: x in keys ==> x in ids
    ensures |keys| <= |ids|
    decreases |ids|
  {
    if ids != [] {
      TooFewIds(ids[1..], keys - {ids[0]});
    }
  }

  /** The scan does not go on once every call has its result. */
  lemma {:induction false} GatherIsMinimal(ms: seq<Message>, ids: seq<string>, results: map<string, Message>,
                                           deferred: seq<Message>, k: nat)
    requires k < Reach(ms, ids, results, deferred)
    ensures !Enough(results, ms[..k], ids)
    decreases |ms|
  {
    hide Enough, Record;
    if k == 0 {
      EnoughFills(results, ms[..0], ids);
    } else if IsTool(ms[0]) {
      GatherIsMinimal(ms[1..], ids, Record(results, ids, ms[0]), deferred, k - 1);
      EnoughStep(results, ms, ids, k);
    } else {
      GatherIsMinimal(ms[1..], ids, results, deferred + [ms[0]], k - 1);
      EnoughStep(results, ms, ids, k);
    }
  }

  lemma EnoughFills(results: map<string, Message>, ms: seq<Message>, ids: seq<string>)
    requires ms == []
    ensures Enough(results, ms, ids) ==> |ids| <= |results|
  {
    if Enough(results, ms, ids) {
      DistinctIdsFill(ids, results.Keys);
    }
  }

  lemma EnoughStep(results: map<string, Message>, ms: seq<Message>, ids: seq<string>, k: nat)
    requires 0 < k <= |ms|
    ensures Enough(results, ms[..k], ids)
        ==> Enough(if IsTool(ms[0]) then Record(results, ids, ms[0]) else results, ms[1..][..k - 1], ids)
  {
    WindowSplit(ms, k);
  }

  lemma {:induction false} RecordedKeys(ms: seq<Message>, ids: seq<string>, results: map<string, Message>,
                                        deferred: seq<Message>)
    requires forall x :: x in results ==> x in ids
    ensures forall x :: x in Gather(ms, ids, results, deferred).results ==> x in ids
    decreases |ms|
  {
    if ms == [] || |results| >= |ids| || IsAssistant(ms[0]) {
    } else if IsTool(ms[0]) {
      RecordedKeys(ms[1..], ids, Record(results, ids, ms[0]), deferred);
    } else {
      RecordedKeys(ms[1..], ids, results, deferred + [ms[0]]);
    }
  }

  /** How many messages behind an assistant message belong to its turn. */
  function TurnEnd(ms: seq<Message>, ids: seq<string>): nat {
    Reach(ms, ids, map[], [])
  }

  lemma TurnEndIsWindow(ms: seq<Message>, ids: seq<string>)
    ensures IsWindow(ms, ids, TurnEnd(ms, ids))
  {
    hide Gather, NoAssistant, Complete;
    var n, t := TurnEnd(ms, ids), Gather(ms, ids, map[], []);
    GatherSplits(ms, ids, map[], []);
    GatherEnds(ms, ids, map[], []);
    forall k | 0 <= k < n ensures !Complete(ms[..k], ids) {
      GatherIsMinimal(ms, ids, map[], [], k);
      EnoughIsComplete(ms[..k], ids);
    }
    if |t.results| >= |ids| {
      RecordedKeys(ms, ids, map[], []);
      FilledIdsAreDistinct(ids, t.results.Keys);
      forall k | 0 <= k < |ids| ensures LastFor(ms[..n], ids[k]).Some? {
        GatherLooks(ms, ids, map[], [], ids[k]);
      }
      EnoughIsComplete(ms[..n], ids);
    }
  }

  lemma EnoughIsComplete(ms: seq<Message>, ids: seq<string>)
    ensures Enough(map[], ms, ids) <==> Complete(ms, ids)
  {
  }

  /** The result for the `k`-th call: the last one in the window for its first occurrence, else a made-up one. */
  function ReplyFor(ids: seq<string>, window: seq<Message>, k: nat): Message
    requires k < |ids|
  {
    if ids[k] !in ids[..k] && LastFor(window, ids[k]).Some? then LastFor(window, ids[k]).value
    else Synthetic(ids[k])
  }

  lemma {:induction false} RepliesAt(ids: seq<string>, results: map<string, Message>, k: nat)
    requires k < |ids|
    ensures Replies(ids, results)[k]
         == if ids[k] !in ids[..k] && ids[k] in results then results[ids[k]] else Synthetic(ids[k])
    decreases |ids|
  {
    if k > 0 {
      RepliesAt(ids[1..], results - {ids[0]}, k - 1);
      assert ids[..k] == [ids[0]] + ids[1..][..k - 1];
    }
  }

  /** What becomes of a whole turn, without reference to how the scan works. */
  lemma {:induction false} RepairOfTurn(ms: seq<Message>)
    requires ms != [] && ToolIds(ms[0]) != []
    ensures var ids, n := ToolIds(ms[0]), TurnEnd(ms[1..], ToolIds(ms[0]));
            && IsWindow(ms[1..], ids, n)
            && Repair(ms)
               == [ms[0]] + seq(|ids|, k requires 0 <= k < |ids| => ReplyFor(ids, ms[1..][..n], k))
                  + NonTools(ms[1..][..n]) + Repair(ms[1..][n..])
  {
    hide ToolIds, Gather, NoAssistant, Replies;
    var ids, n := ToolIds(ms[0]), TurnEnd(ms[1..], ToolIds(ms[0]));
    TurnEndIsWindow(ms[1..], ids);
    TurnParts(ms[0], ms[1..]);
    var t := Gather(ms[1..], ids, map[], []);
    forall k | 0 <= k < |ids| ensures Replies(ids, t.results)[k] == ReplyFor(ids, ms[1..][..n], k) {
      RepliesAt(ids, t.results, k);
      GatherLooks(ms[1..], ids, map[], [], ids[k]);
    }
    assert Replies(ids, t.results) == seq(|ids|, k requires 0 <= k < |ids| => ReplyFor(ids, ms[1..][..n], k));
  }

  /** A window is determined by the messages: there is only one. */
  lemma WindowIsUnique(ms: seq<Message>, ids: seq<string>, a: nat, b: nat)
    requires IsWindow(ms, ids, a) && IsWindow(ms, ids, b)
    ensures a == b
  {
    if a < b {
      LongerIsNoWindow(ms, ids, a, b);
    } else if b < a {
      LongerIsNoWindow(ms, ids, b, a);
    }
  }

  lemma LongerIsNoWindow(ms: seq<Message>, ids: seq<string>, a: nat, b: nat)
    requires IsWindow(ms, ids, a) && a < b <= |ms|
    ensures !IsWindow(ms, ids, b)
  {
    assert ms[..b][a] == ms[a];
  }

  // ---- No message is used twice ----

  predicate MadeUp(m: Message) {
    m.toolCallId.Some? && m == Synthetic(m.toolCallId.value)
  }

  /** How often `m` occurs in `ms`. */
  function Times(ms: seq<Message>, m: Message): nat {
    multiset(ms)[m]
  }

  lemma TimesSplit(a: seq<Message>, b: seq<Message>, m: Message)
    ensures Times(a + b, m) == Times(a, m) + Times(b, m)
  {
  }

  lemma TimesOfTail(ms: seq<Message>, m: Message)
    requires ms != []
    ensures Times(ms, m) == Times([ms[0]], m) + Times(ms[1..], m)
  {
    assert ms == [ms[0]] + ms[1..];
  }

  lemma TimesOfTurn(ms: seq<Message>, n: nat, m: Message)
    requires ms != [] && n <= |ms[1..]|
    ensures Times(ms, m) == Times([ms[0]], m) + Times(ms[1..][..n], m) + Times(ms[1..][n..], m)
  {
    assert ms[1..] == ms[1..][..n] + ms[1..][n..];
    TimesOfTail(ms, m);
  }

  lemma TimesOfFour(a: seq<Message>, b: seq<Message>, c: seq<Message>, d: seq<Message>, m: Message)
    ensures Times(a + b + c + d, m) == Times(a, m) + Times(b, m) + Times(c, m) + Times(d, m)
  {
    hide Times;
    TimesSplit(a + b + c, d, m);
    TimesSplit(a + b, c, m);
    TimesSplit(a, b, m);
  }

  lemma TimesOfOne(x: Message, m: Message)
    ensures Times([x], m) == if x == m then 1 else 0
    ensures Times([], m) == 0
  {
  }

  lemma {:induction false} RepliesUseOnce(ids: seq<string>, results: map<string, Message>, m: Message)
    requires Matching(results) && !MadeUp(m)
    ensures Times(Replies(ids, results), m) <= 1
    ensures (forall id :: id in results ==> results[id] != m) ==> Times(Replies(ids, results), m) == 0
    decreases |ids|
  {
    hide Times;
    if ids == [] {
      TimesOfOne(m, m);
    } else {
      var rest := results - {ids[0]};
      RepliesUseOnce(ids[1..], rest, m);
      var head := if ids[0] in results then results[ids[0]] else Synthetic(ids[0]);
      TimesSplit([head], Replies(ids[1..], rest), m);
      TimesOfOne(head, m);
    }
  }

  lemma {:induction false} LastForIsThere(ms: seq<Message>, id: string)
    ensures LastFor(ms, id).Some? ==> LastFor(ms, id).value in ms
    decreases |ms|
  {
    if ms != [] {
      LastForIsThere(ms[1..], id);
    }
  }

  lemma {:induction false} NonToolsUseOnce(ms: seq<Message>, m: Message)
    ensures Times(NonTools(ms), m) == if IsTool(m) then 0 else Times(ms, m)
    decreases |ms|
  {
    hide Times;
    TimesOfOne(m, m);
    if ms != [] {
      NonToolsUseOnce(ms[1..], m);
      TimesOfTail(ms, m);
      TimesOfOne(ms[0], m);
      TimesSplit(if IsTool(ms[0]) then [] else [ms[0]], NonTools(ms[1..]), m);
    }
  }

  /** A turn takes each message it returns from its window. */
  lemma TurnUsesOnce(ms: seq<Message>, ids: seq<string>, m: Message)
    requires !MadeUp(m)
    ensures var n, t := TurnEnd(ms, ids), Gather(ms, ids, map[], []);
            && n <= |ms|
            && Times(Replies(ids, t.results), m) + Times(NonTools(ms[..n]), m) <= Times(ms[..n], m)
  {
    hide Gather, Replies, NonTools, LastFor;
    var n, t := TurnEnd(ms, ids), Gather(ms, ids, map[], []);
    GatherSplits(ms, ids, map[], []);
    GatherEnds(ms, ids, map[], []);
    NonToolsUseOnce(ms[..n], m);
    RepliesUseOnce(ids, t.results, m);
    RepliesAnswer(ids, t.results);
    if id :| id in t.results && t.results[id] == m {
      GatherLooks(ms, ids, map[], [], id);
      LastForIsThere(ms[..n], id);
    }
  }

  /** Every message of the result, other than a made-up one, is one of the original messages, used at most as often. */
  lemma {:induction false} RepairUsesOnce(ms: seq<Message>, m: Message)
    requires !MadeUp(m)
    ensures Times(Repair(ms), m) <= Times(ms, m)
    decreases |ms|
  {
    hide ToolIds, Gather, Replies, NonTools, MadeUp, Matching, Times;
    if ms == [] {
    } else if ToolIds(ms[0]) == [] {
      RepairUsesOnce(ms[1..], m);
      TimesOfTail(ms, m);
      TimesOfOne(ms[0], m);
      TimesSplit(if IsTool(ms[0]) then [] else [ms[0]], Repair(ms[1..]), m);
    } else {
      var ids := ToolIds(ms[0]);
      var t := Gather(ms[1..], ids, map[], []);
      TurnParts(ms[0], ms[1..]);
      TurnUsesOnce(ms[1..], ids, m);
      RepairUsesOnce(t.rest, m);
      TimesOfTurn(ms, |ms[1..]| - |t.rest|, m);
      TimesOfFour([ms[0]], Replies(ids, t.results), t.deferred, Repair(t.rest), m);
    }
  }
}
