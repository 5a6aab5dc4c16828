/**
 * Histories as the turn loops leave them: results in call order, but a cancelled turn may miss its last ones, and a
 * truncation may have cut the front off. On these the repair does the least possible.
 */
module Interrupted {
  import opened Sequences
  import opened Messages
  import opened ToolSequence
  import opened RepairLaws
  import opened RepairFixpoints

  /** Every tool message stands behind its assistant message, in call order; the last results may be missing. */
  predicate InOrder(ms: seq<Message>)
    decreases |ms|
  {
    ms == [] || (
      && !IsTool(ms[0])
      && PartlyAnswers(ms[1..1 + LeadingTools(ms[1..])], ToolIds(ms[0]))
      && InOrder(ms[1 + LeadingTools(ms[1..])..]))
  }

  function AllMadeUp(ids: seq<string>): (r: seq<Message>)
    ensures |r| == |ids| && forall k :: 0 <= k < |ids| ==> r[k] == Synthetic(ids[k])
  {
    seq(|ids|, k requires 0 <= k < |ids| => Synthetic(ids[k]))
  }

  /** The same history with a made-up result for each missing one. */
  function Filled(ms: seq<Message>): seq<Message>
    requires InOrder(ms)
    decreases |ms|
  {
    if ms == [] then []
    else
      var p := LeadingTools(ms[1..]);
      [ms[0]] + (ms[1..1 + p] + AllMadeUp(ToolIds(ms[0])[p..])) + Filled(ms[1 + p..])
  }

  /** A history whose front may have been cut off: the results it starts with belong to a turn that is gone. */
  predicate Stored(ms: seq<Message>) {
    InOrder(ms[LeadingTools(ms)..])
  }

  // ---- The repair of such histories ----

  lemma {:induction false} InOrderIsClean(ms: seq<Message>)
    requires InOrder(ms)
    ensures Clean(ms)
    decreases |ms|
  {
    hide PartlyAnswers;
    if ms != [] && !IsAssistant(ms[0]) {
      NoCallsNoResults(ms);
      InOrderIsClean(ms[1..]);
      forall k | 0 <= k < UntilAssistant(ms) ensures !IsTool(ms[k]) {
        if k > 0 {
          assert ms[k] == ms[1..][k - 1];
        }
      }
    }
  }

  lemma NoCallsNoResults(ms: seq<Message>)
    requires InOrder(ms) && ms != [] && ToolIds(ms[0]) == []
    ensures LeadingTools(ms[1..]) == 0 && InOrder(ms[1..])
  {
    assert ms[1 + 0..] == ms[1..];
  }

  lemma FixFills(ids: seq<string>, answers: seq<Message>)
    requires PartlyAnswers(answers, ids) && Distinct(ids)
    ensures Fix(ids, answers) == answers + AllMadeUp(ids[|answers|..])
  {
    hide LastFor;
    forall k | 0 <= k < |ids|
      ensures Fix(ids, answers)[k] == (if k < |answers| then answers[k] else Synthetic(ids[k]))
    {
      OwnResult(answers, ids, k);
      assert forall j :: 0 <= j < k ==> ids[..k][j] == ids[j];
    }
  }

  lemma TurnOf(ms: seq<Message>)
    requires InOrder(ms) && ms != []
    ensures var p := LeadingTools(ms[1..]);
            && !IsTool(ms[0]) && PartlyAnswers(ms[1..1 + p], ToolIds(ms[0])) && InOrder(ms[1 + p..])
            && ms == [ms[0]] + ms[1..1 + p] + ms[1 + p..]
            && p <= |ToolIds(ms[0])|
  {
    hide ToolIds, PartlyAnswers;
    var p := LeadingTools(ms[1..]);
    PartlyFits(ms[1..1 + p], ToolIds(ms[0]));
    SplitTurn(ms, p);
  }

  lemma PartlyFits(answers: seq<Message>, ids: seq<string>)
    requires PartlyAnswers(answers, ids)
    ensures |answers| <= |ids|
  {
  }

  lemma SplitTurn(ms: seq<Message>, p: nat)
    requires p < |ms|
    ensures ms == [ms[0]] + ms[1..1 + p] + ms[1 + p..]
  {
  }

  /** A turn, perhaps interrupted, in front of an ordered history. */
  lemma InOrderTurn(m: Message, answers: seq<Message>, rest: seq<Message>)
    requires !IsTool(m) && PartlyAnswers(answers, ToolIds(m)) && InOrder(rest)
    ensures InOrder([m] + answers + rest)
  {
    hide ToolIds;
    var ms, p := [m] + answers + rest, |answers|;
    InOrderStartsPlain(rest);
    assert ms[1..] == answers + rest;
    LeadingToolsUnique(ms[1..], p);
    assert ms[1..1 + p] == answers && ms[1 + p..] == rest;
  }

  /** The repair only adds the missing results. */
  lemma {:induction false} RepairFills(ms: seq<Message>)
    requires InOrder(ms) && DistinctIds(ms)
    ensures Repair(ms) == Filled(ms)
    decreases |ms|
  {
    hide ToolIds, PartlyAnswers, Repair, Clean, Fix, InOrder;
    if ms == [] {
      RepairEmpty(ms);
    } else {
      var p := LeadingTools(ms[1..]);
      var ids, answers, rest := ToolIds(ms[0]), ms[1..1 + p], ms[1 + p..];
      TurnOf(ms);
      DistinctSuffix(ms, 1 + p);
      RepairFills(rest);
      InOrderIsClean(rest);
      assert Distinct(ids);
      FixFills(ids, answers);
      if ids == [] {
        RepairOfSingle(ms[0], rest);
        assert [ms[0]] + [] + rest == [ms[0]] + rest;
        assert [ms[0]] + [] + Repair(rest) == [ms[0]] + Repair(rest);
      } else {
        RepairOfOrdered(ms[0], answers, rest);
      }
    }
  }

  lemma RepairOfSingle(m: Message, rest: seq<Message>)
    requires !IsTool(m) && ToolIds(m) == []
    ensures Repair([m] + rest) == [m] + Repair(rest)
  {
    hide ToolIds, Gather, Replies;
    assert ([m] + rest)[1..] == rest;
  }

  lemma DistinctSuffix(ms: seq<Message>, n: nat)
    requires DistinctIds(ms) && n <= |ms|
    ensures DistinctIds(ms[n..])
  {
    hide ToolIds, Distinct;
    assert forall k :: 0 <= k < |ms[n..]| ==> ms[n..][k] == ms[n + k];
  }

  /** Results whose turn was cut off are dropped. */
  lemma {:induction false} RepairDropsOrphans(ms: seq<Message>)
    ensures Repair(ms) == Repair(ms[LeadingTools(ms)..])
    decreases |ms|
  {
    hide Gather, Replies;
    if ms != [] && IsTool(ms[0]) {
      RepairDropsOrphans(ms[1..]);
      assert ms[1..][LeadingTools(ms[1..])..] == ms[LeadingTools(ms)..];
    } else {
      assert ms[0..] == ms;
    }
  }

  /** What is sent for a stored history: orphans in front are gone, missing results are made up, no other change. */
  lemma RepairOfStored(ms: seq<Message>)
    requires Stored(ms) && DistinctIds(ms)
    ensures Repair(ms) == Filled(ms[LeadingTools(ms)..])
  {
    hide Repair, InOrder;
    RepairDropsOrphans(ms);
    DistinctSuffix(ms, LeadingTools(ms));
    RepairFills(ms[LeadingTools(ms)..]);
  }

  // ---- Such histories are closed under what happens to a session ----

  lemma {:induction false} LeadingToolsConcat(a: seq<Message>, b: seq<Message>)
    requires b == [] || !IsTool(b[0])
    ensures LeadingTools(a + b) == LeadingTools(a)
    decreases |a|
  {
    if a == [] {
      assert a + b == b;
    } else {
      assert (a + b)[1..] == a[1..] + b;
      LeadingToolsConcat(a[1..], b);
    }
  }

  lemma {:induction false} InOrderConcat(a: seq<Message>, b: seq<Message>)
    requires InOrder(a) && InOrder(b)
    ensures InOrder(a + b)
    decreases |a|
  {
    if a == [] {
      assert a + b == b;
    } else {
      hide InOrder, PartlyAnswers, ToolIds;
      TurnOf(a);
      var p := LeadingTools(a[1..]);
      InOrderConcat(a[1 + p..], b);
      InOrderTurn(a[0], a[1..1 + p], a[1 + p..] + b);
      Regroup([a[0]] + a[1..1 + p], a[1 + p..], b);
    }
  }

  lemma {:induction false} StoredConcat(a: seq<Message>, b: seq<Message>)
    requires Stored(a) && InOrder(b)
    ensures Stored(a + b)
  {
    hide InOrder;
    InOrderStartsPlain(b);
    LeadingToolsConcat(a, b);
    var n := LeadingTools(a);
    InOrderConcat(a[n..], b);
    assert (a + b)[n..] == a[n..] + b;
  }

  lemma InOrderStartsPlain(ms: seq<Message>)
    requires InOrder(ms)
    ensures ms == [] || !IsTool(ms[0])
  {
  }

  lemma LeadingToolsUnique(ms: seq<Message>, n: nat)
    requires n <= |ms| && (forall k :: 0 <= k < n ==> IsTool(ms[k])) && (n < |ms| ==> !IsTool(ms[n]))
    ensures LeadingTools(ms) == n
  {
  }

  /** Cutting an ordered history at any point leaves a stored one. */
  lemma {:induction false} InOrderSuffix(ms: seq<Message>, n: nat)
    requires InOrder(ms) && n <= |ms|
    ensures Stored(ms[n..])
    decreases |ms|
  {
    hide PartlyAnswers, ToolIds;
    if n == 0 {
      assert ms[0..] == ms;
      InOrderStartsPlain(ms);
      LeadingToolsUnique(ms, 0);
    } else {
      var p := LeadingTools(ms[1..]);
      var rest := ms[1 + p..];
      if n >= 1 + p {
        InOrderSuffix(rest, n - (1 + p));
        assert rest[n - (1 + p)..] == ms[n..];
      } else {
        InOrderStartsPlain(rest);
        CutTurn(ms, n, p);
      }
    }
  }

  lemma CutTurn(ms: seq<Message>, n: nat, p: nat)
    requires 0 < n <= p < |ms| && p == LeadingTools(ms[1..]) && InOrder(ms[1 + p..])
    ensures Stored(ms[n..])
  {
    hide InOrder;
    var cut, k := ms[n..], 1 + p - n;
    assert forall j :: 0 <= j < k ==> cut[j] == ms[1..][n - 1 + j];
    assert k < |cut| ==> cut[k] == ms[1..][p];
    LeadingToolsUnique(cut, k);
    assert cut[k..] == ms[1 + p..];
  }

  /** Truncation keeps histories stored. */
  lemma {:induction false} StoredSuffix(ms: seq<Message>, n: nat)
    requires Stored(ms) && n <= |ms|
    ensures Stored(ms[n..])
  {
    hide InOrder;
    var t := LeadingTools(ms);
    if n >= t {
      InOrderSuffix(ms[t..], n - t);
      assert ms[t..][n - t..] == ms[n..];
    } else {
      assert forall j :: 0 <= j < t - n ==> ms[n..][j] == ms[n + j];
      LeadingToolsUnique(ms[n..], t - n);
      assert ms[n..][t - n..] == ms[t..];
    }
  }

  /** An assistant message and its first results. */
  lemma OneTurnInOrder(m: Message, answers: seq<Message>)
    requires !IsTool(m) && PartlyAnswers(answers, ToolIds(m))
    ensures InOrder([m] + answers)
  {
    InOrderTurn(m, answers, []);
    assert [m] + answers + [] == [m] + answers;
  }

  lemma {:induction false} ValidIsInOrder(ms: seq<Message>)
    requires WireValid(ms)
    ensures InOrder(ms)
    decreases |ms|
  {
    hide ToolIds;
    if ms != [] {
      var n := |ToolIds(ms[0])|;
      ValidIsInOrder(ms[1 + n..]);
      InOrderStartsPlain(ms[1 + n..]);
      assert ms[1..][n..] == ms[1 + n..];
      LeadingToolsUnique(ms[1..], n);
      assert ms[1..1 + n] == ms[1..][..n];
    }
  }

  lemma InOrderIsStored(ms: seq<Message>)
    requires InOrder(ms)
    ensures Stored(ms) && LeadingTools(ms) == 0 && ms[LeadingTools(ms)..] == ms
  {
    InOrderStartsPlain(ms);
    LeadingToolsUnique(ms, 0);
  }

  /** A history in order is valid as it is exactly when no result is missing. */
  lemma {:induction false} FilledMeans(ms: seq<Message>)
    requires InOrder(ms)
    ensures Filled(ms) == ms <==> WireValid(ms)
    decreases |ms|
  {
    hide PartlyAnswers, ToolIds, Answers;
    if ms != [] {
      var p := LeadingTools(ms[1..]);
      var ids, answers, rest := ToolIds(ms[0]), ms[1..1 + p], ms[1 + p..];
      TurnOf(ms);
      FilledMeans(rest);
      FilledIsLonger(rest);
      if p < |ids| {
        assert |Filled(ms)| > |ms|;
        NotAnswered(ms[1..], p, ids);
      } else {
        assert AllMadeUp(ids[p..]) == [];
        assert answers + [] == answers;
        SameParts(ms[0], answers, Filled(rest), answers, rest);
        PartlyIsAnswered(ms, p, ids);
      }
    }
  }

  lemma {:induction false} FilledIsLonger(ms: seq<Message>)
    requires InOrder(ms)
    ensures |Filled(ms)| >= |ms|
    decreases |ms|
  {
    hide PartlyAnswers, ToolIds;
    if ms != [] {
      TurnOf(ms);
      FilledIsLonger(ms[1 + LeadingTools(ms[1..])..]);
    }
  }

  lemma NotAnswered(ms: seq<Message>, p: nat, ids: seq<string>)
    requires p == LeadingTools(ms) < |ids|
    ensures !Answers(ms, ids)
  {
  }

  lemma PartlyIsAnswered(ms: seq<Message>, p: nat, ids: seq<string>)
    requires p < |ms| && p == |ids| && PartlyAnswers(ms[1..1 + p], ids)
    ensures Answers(ms[1..], ids)
  {
    assert forall k :: 0 <= k < p ==> ms[1..][k] == ms[1..1 + p][k];
  }

  lemma FilledTurn(m: Message, answers: seq<Message>, rest: seq<Message>)
    requires !IsTool(m) && PartlyAnswers(answers, ToolIds(m)) && InOrder(rest)
    ensures InOrder([m] + answers + rest)
    ensures Filled([m] + answers + rest) == [m] + (answers + AllMadeUp(ToolIds(m)[|answers|..])) + Filled(rest)
  {
    hide ToolIds, InOrder;
    InOrderTurn(m, answers, rest);
    var ms, p := [m] + answers + rest, |answers|;
    InOrderStartsPlain(rest);
    assert ms[1..] == answers + rest;
    LeadingToolsUnique(ms[1..], p);
    assert ms[1..1 + p] == answers && ms[1 + p..] == rest;
  }

  lemma {:induction false} FilledConcat(a: seq<Message>, b: seq<Message>)
    requires InOrder(a) && InOrder(b)
    ensures InOrder(a + b) && Filled(a + b) == Filled(a) + Filled(b)
    decreases |a|
  {
    if a == [] {
      assert a + b == b;
      assert [] + Filled(b) == Filled(b);
    } else {
      hide InOrder, PartlyAnswers, ToolIds, Filled, AllMadeUp;
      TurnOf(a);
      var p := LeadingTools(a[1..]);
      var m, answers, rest := a[0], a[1..1 + p], a[1 + p..];
      FilledConcat(rest, b);
      FilledTurn(m, answers, rest);
      FilledTurn(m, answers, rest + b);
      Regroup([m] + answers, rest, b);
      Regroup([m] + (answers + AllMadeUp(ToolIds(m)[p..])), Filled(rest), Filled(b));
    }
  }
}
