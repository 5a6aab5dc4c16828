/**
 * When the repair changes nothing. On an accepted list it rewrites only results of repeated call ids, so it is the
 * identity exactly when those are all made-up results; hence the exact condition under which repairing twice is the
 * same as repairing once.
 */
module RepairFixpoints {
  import opened Sequences
  import opened Wrappers
  import opened Messages
  import opened ToolSequence
  import opened RepairLaws

  /** The number of messages before the first assistant message. */
  function UntilAssistant(ms: seq<Message>): (n: nat)
    ensures n <= |ms|
    ensures forall k :: 0 <= k < n ==> !IsAssistant(ms[k])
    ensures n < |ms| ==> IsAssistant(ms[n])
    decreases |ms|
  {
    if ms == [] || IsAssistant(ms[0]) then 0 else 1 + UntilAssistant(ms[1..])
  }

  /** No result stands before the first assistant message. */
  predicate Clean(ms: seq<Message>) {
    forall k :: 0 <= k < UntilAssistant(ms) ==> !IsTool(ms[k])
  }

  /** `answers` are results for the first ids, in order; the last calls may have none. */
  predicate PartlyAnswers(answers: seq<Message>, ids: seq<string>) {
    && |answers| <= |ids|
    && forall k :: 0 <= k < |answers| ==> IsTool(answers[k]) && answers[k].toolCallId == Some(ids[k])
  }

  /** What the repair makes of the results behind an assistant message. */
  function Fix(ids: seq<string>, answers: seq<Message>): (r: seq<Message>)
    ensures |r| == |ids|
    ensures forall k :: 0 <= k < |ids| ==> r[k] == ReplyFor(ids, answers, k)
  {
    seq(|ids|, k requires 0 <= k < |ids| => ReplyFor(ids, answers, k))
  }

  // ---- The window behind results that are already in order ----

  /** `LastFor` finds the last match. */
  lemma {:induction false} LastForMeans(ms: seq<Message>, id: string)
    ensures match LastFor(ms, id)
            case None => forall k :: 0 <= k < |ms| ==> !(IsTool(ms[k]) && ms[k].toolCallId == Some(id))
            case Some(m) =>
              exists l :: 0 <= l < |ms| && ms[l] == m && IsTool(m) && m.toolCallId == Some(id)
                          && forall k :: l < k < |ms| ==> !(IsTool(ms[k]) && ms[k].toolCallId == Some(id))
    decreases |ms|
  {
    if ms != [] {
      LastForMeans(ms[1..], id);
      if LastFor(ms[1..], id).Some? {
        var l :| 0 <= l < |ms[1..]| && ms[1..][l] == LastFor(ms[1..], id).value
                 && forall k :: l < k < |ms[1..]| ==> !(IsTool(ms[1..][k]) && ms[1..][k].toolCallId == Some(id));
        assert ms[l + 1] == LastFor(ms, id).value;
        assert forall k :: l + 1 < k < |ms| ==> ms[k] == ms[1..][k - 1];
      } else {
        assert forall k :: 0 < k < |ms| ==> ms[k] == ms[1..][k - 1];
      }
    }
  }

  lemma {:induction false} LastForIgnoresPlain(a: seq<Message>, b: seq<Message>, id: string)
    requires forall k :: 0 <= k < |b| ==> !IsTool(b[k])
    ensures LastFor(a + b, id) == LastFor(a, id)
    decreases |a|
  {
    if a == [] {
      assert a + b == b;
      LastForMeans(b, id);
    } else {
      assert (a + b)[1..] == a[1..] + b;
      LastForIgnoresPlain(a[1..], b, id);
    }
  }

  /** Without repetitions each answered call finds its own result, and the others find none. */
  lemma OwnResult(answers: seq<Message>, ids: seq<string>, k: nat)
    requires PartlyAnswers(answers, ids) && Distinct(ids) && k < |ids|
    ensures LastFor(answers, ids[k]) == if k < |answers| then Some(answers[k]) else None
  {
    LastForMeans(answers, ids[k]);
  }

  lemma PartlyPrefix(answers: seq<Message>, ids: seq<string>, k: nat)
    requires PartlyAnswers(answers, ids) && k <= |answers|
    ensures PartlyAnswers(answers[..k], ids)
  {
  }

  /** The results in order are complete exactly when no id repeats and none is missing. */
  lemma CompleteMeans(answers: seq<Message>, ids: seq<string>)
    requires PartlyAnswers(answers, ids)
    ensures Complete(answers, ids) <==> Distinct(ids) && |answers| == |ids|
  {
    hide LastFor;
    if Distinct(ids) {
      forall k | 0 <= k < |ids| ensures LastFor(answers, ids[k]).Some? <==> k < |answers| {
        OwnResult(answers, ids, k);
      }
      if |answers| < |ids| {
        assert LastFor(answers, ids[|answers|]).None?;
      }
    }
  }

  lemma CompleteIgnoresPlain(a: seq<Message>, b: seq<Message>, ids: seq<string>)
    requires forall k :: 0 <= k < |b| ==> !IsTool(b[k])
    ensures Complete(a + b, ids) <==> Complete(a, ids)
  {
    hide LastFor;
    forall k | 0 <= k < |ids| ensures LastFor(a + b, ids[k]) == LastFor(a, ids[k]) {
      LastForIgnoresPlain(a, b, ids[k]);
    }
  }

  /** How far the scan gets behind results in order: over them, and on to the next assistant unless all are there. */
  function OrderedEnd(answers: seq<Message>, rest: seq<Message>, ids: seq<string>): nat {
    if Distinct(ids) && |answers| == |ids| then |answers| else |answers| + UntilAssistant(rest)
  }

  lemma {:induction false} OrderedPrefix(answers: seq<Message>, rest: seq<Message>, ids: seq<string>, k: nat)
    requires PartlyAnswers(answers, ids) && Clean(rest) && k <= |answers| + UntilAssistant(rest)
    ensures Complete((answers + rest)[..k], ids) <==> Distinct(ids) && |answers| == |ids| && |answers| <= k
    ensures NoAssistant((answers + rest)[..k])
  {
    hide Complete;
    if k <= |answers| {
      assert (answers + rest)[..k] == answers[..k];
      PartlyPrefix(answers, ids, k);
      CompleteMeans(answers[..k], ids);
    } else {
      var plain := rest[..k - |answers|];
      assert (answers + rest)[..k] == answers + plain;
      CompleteMeans(answers, ids);
      CompleteIgnoresPlain(answers, plain, ids);
    }
  }

  lemma OrderedWindow(answers: seq<Message>, rest: seq<Message>, ids: seq<string>)
    requires PartlyAnswers(answers, ids) && Clean(rest)
    ensures IsWindow(answers + rest, ids, OrderedEnd(answers, rest, ids))
    ensures OrderedEnd(answers, rest, ids) == TurnEnd(answers + rest, ids)
  {
    var n := OrderedEnd(answers, rest, ids);
    assert IsWindow(answers + rest, ids, n) by {
      hide Complete, NoAssistant, PartlyAnswers;
      forall k | 0 <= k <= n
        ensures Complete((answers + rest)[..k], ids) <==> Distinct(ids) && |answers| == |ids| && |answers| <= k
        ensures NoAssistant((answers + rest)[..k])
      {
        OrderedPrefix(answers, rest, ids, k);
      }
    }
    hide IsWindow, TurnEnd;
    TurnEndIsWindow(answers + rest, ids);
    WindowIsUnique(answers + rest, ids, n, TurnEnd(answers + rest, ids));
  }

  lemma RepairOfOne(m: Message, rest: seq<Message>)
    requires !IsTool(m) && !IsAssistant(m)
    ensures Repair([m] + rest) == [m] + Repair(rest)
  {
    hide Gather, Replies;
    assert ([m] + rest)[1..] == rest;
  }

  /** Messages without calls or results are copied. */
  lemma {:induction false} RepairOfPlain(plain: seq<Message>, rest: seq<Message>)
    requires forall k :: 0 <= k < |plain| ==> !IsTool(plain[k]) && !IsAssistant(plain[k])
    ensures Repair(plain + rest) == plain + Repair(rest)
    decreases |plain|
  {
    hide Repair, IsTool, IsAssistant;
    if plain == [] {
      assert plain + rest == rest;
      assert plain + Repair(rest) == Repair(rest);
    } else {
      assert plain + rest == [plain[0]] + (plain[1..] + rest);
      RepairOfOne(plain[0], plain[1..] + rest);
      RepairOfPlain(plain[1..], rest);
      Regroup([plain[0]], plain[1..], Repair(rest));
      assert plain == [plain[0]] + plain[1..];
    }
  }

  /** Results that are already behind their message, in order: only that stretch is rewritten. */
  lemma RepairOfOrdered(m: Message, answers: seq<Message>, rest: seq<Message>)
    requires ToolIds(m) != [] && PartlyAnswers(answers, ToolIds(m)) && Clean(rest)
    ensures Repair([m] + answers + rest) == [m] + Fix(ToolIds(m), answers) + Repair(rest)
  {
    hide ToolIds, Repair, TurnEnd, IsWindow, ReplyFor, NonTools, Fix, PartlyAnswers, UntilAssistant;
    var ids, ms := ToolIds(m), [m] + answers + rest;
    var n := OrderedEnd(answers, rest, ids);
    assert ms[0] == m && ms[1..] == answers + rest;
    OrderedWindow(answers, rest, ids);
    RepairOfTurn(ms);
    OrderedParts(ids, answers, rest, n - |answers|);
    RepairOfPlain(rest[..n - |answers|], rest[n - |answers|..]);
    Regroup([m] + Fix(ids, answers), rest[..n - |answers|], Repair(rest[n - |answers|..]));
  }

  lemma OrderedParts(ids: seq<string>, answers: seq<Message>, rest: seq<Message>, u: nat)
    requires PartlyAnswers(answers, ids) && u <= |rest| && forall k :: 0 <= k < u ==> !IsTool(rest[k])
    ensures var window := (answers + rest)[..|answers| + u];
            && (answers + rest)[|answers| + u..] == rest[u..]
            && NonTools(window) == rest[..u]
            && seq(|ids|, k requires 0 <= k < |ids| => ReplyFor(ids, window, k)) == Fix(ids, answers)
    ensures rest == rest[..u] + rest[u..]
  {
    hide ReplyFor, NonTools;
    var window := (answers + rest)[..|answers| + u];
    assert window == answers + rest[..u] && (answers + rest)[|answers| + u..] == rest[u..];
    forall k | 0 <= k < |ids| ensures ReplyFor(ids, window, k) == ReplyFor(ids, answers, k) {
      ReplyIgnoresPlain(ids, answers, rest[..u], k);
    }
    assert seq(|ids|, k requires 0 <= k < |ids| => ReplyFor(ids, window, k)) == Fix(ids, answers);
    OrderedNonTools(answers, rest[..u]);
  }

  lemma ReplyIgnoresPlain(ids: seq<string>, answers: seq<Message>, plain: seq<Message>, k: nat)
    requires k < |ids| && forall j :: 0 <= j < |plain| ==> !IsTool(plain[j])
    ensures ReplyFor(ids, answers + plain, k) == ReplyFor(ids, answers, k)
  {
    LastForIgnoresPlain(answers, plain, ids[k]);
  }

  lemma OrderedNonTools(answers: seq<Message>, plain: seq<Message>)
    requires forall k :: 0 <= k < |answers| ==> IsTool(answers[k])
    requires forall k :: 0 <= k < |plain| ==> !IsTool(plain[k])
    ensures NonTools(answers + plain) == plain
  {
    NonToolsConcat(answers, plain);
    AllToolsNoNonTools(answers);
    NoToolsIdentity(plain);
  }

  // ---- The identity on accepted lists ----

  /** Results of a repeated id are all made up. */
  predicate DuplicatesMadeUp(ids: seq<string>, answers: seq<Message>)
    requires |ids| <= |answers|
  {
    forall i, j :: 0 <= i < j < |ids| && ids[i] == ids[j] ==>
      answers[i] == Synthetic(ids[i]) && answers[j] == Synthetic(ids[j])
  }

  predicate SyntheticDuplicates(ms: seq<Message>)
    requires WireValid(ms)
    decreases |ms|
  {
    ms == [] || (
      && DuplicatesMadeUp(ToolIds(ms[0]), ms[1..])
      && SyntheticDuplicates(ms[1 + |ToolIds(ms[0])|..]))
  }

  lemma FixMeans(ids: seq<string>, answers: seq<Message>)
    requires |answers| == |ids| && Answers(answers, ids)
    ensures Fix(ids, answers) == answers <==> DuplicatesMadeUp(ids, answers)
  {
    if DuplicatesMadeUp(ids, answers) {
      forall k | 0 <= k < |ids| ensures ReplyFor(ids, answers, k) == answers[k] {
        MadeUpIsKept(ids, answers, k);
      }
      assert Fix(ids, answers) == answers;
    } else {
      var i, j :| 0 <= i < j < |ids| && ids[i] == ids[j]
                  && (answers[i] != Synthetic(ids[i]) || answers[j] != Synthetic(ids[j]));
      RepeatIsReplaced(ids, answers, i, j);
    }
  }

  lemma MadeUpIsKept(ids: seq<string>, answers: seq<Message>, k: nat)
    requires k < |ids| == |answers| && Answers(answers, ids) && DuplicatesMadeUp(ids, answers)
    ensures ReplyFor(ids, answers, k) == answers[k]
  {
    LastForMeans(answers, ids[k]);
    if ids[k] in ids[..k] {
      var i :| 0 <= i < k && ids[i] == ids[k];
    }
  }

  /** Of two results of one id that are not both made up, one is replaced. */
  lemma RepeatIsReplaced(ids: seq<string>, answers: seq<Message>, i: nat, j: nat)
    requires i < j < |ids| == |answers| && ids[i] == ids[j] && Answers(answers, ids)
    requires answers[i] != Synthetic(ids[i]) || answers[j] != Synthetic(ids[j])
    ensures Fix(ids, answers) != answers
  {
    assert ids[j] in ids[..j];
    if answers[j] != Synthetic(ids[j]) {
      assert Fix(ids, answers)[j] != answers[j];
    } else if ids[i] in ids[..i] {
      assert Fix(ids, answers)[i] != answers[i];
    } else {
      LastForMeans(answers, ids[i]);
      var l :| 0 <= l < |ids| && answers[l] == LastFor(answers, ids[i]).value && ids[l] == ids[i] && l >= j;
      assert ids[l] in ids[..l];
      if answers[l] == Synthetic(ids[l]) {
        assert Fix(ids, answers)[i] != answers[i];
      } else {
        assert Fix(ids, answers)[l] != answers[l];
      }
    }
  }

  lemma {:induction false} ValidIsClean(ms: seq<Message>)
    requires WireValid(ms)
    ensures Clean(ms)
    decreases |ms|
  {
    if ms != [] && !IsAssistant(ms[0]) {
      ValidIsClean(ms[1..]);
      forall k | 0 <= k < UntilAssistant(ms) ensures !IsTool(ms[k]) {
        if k > 0 {
          assert ms[k] == ms[1..][k - 1];
        }
      }
    }
  }

  /** An accepted list, turn by turn. */
  lemma RepairOfValid(ms: seq<Message>)
    requires WireValid(ms) && ms != []
    ensures var ids := ToolIds(ms[0]);
            var answers, rest := ms[1..1 + |ids|], ms[1 + |ids|..];
            && Answers(answers, ids) && WireValid(rest)
            && ms == [ms[0]] + answers + rest
            && Repair(ms) == [ms[0]] + Fix(ids, answers) + Repair(rest)
  {
    hide ToolIds;
    var ids := ToolIds(ms[0]);
    var answers, rest := ms[1..1 + |ids|], ms[1 + |ids|..];
    assert ms[1..] == answers + rest;
    AnswersPrefix(answers, rest, ids);
    assert ms == [ms[0]] + answers + rest;
    if ids == [] {
      assert Fix(ids, answers) == [];
      assert [ms[0]] + [] == [ms[0]];
    } else {
      hide Repair;
      ValidIsClean(rest);
      RepairOfOrdered(ms[0], answers, rest);
    }
  }

  /** On an accepted list the repair is the identity exactly when results of repeated ids are all made up. */
  lemma {:induction false} RepairIsIdentity(ms: seq<Message>)
    requires WireValid(ms)
    ensures Repair(ms) == ms <==> SyntheticDuplicates(ms)
    decreases |ms|
  {
    hide ToolIds, Answers, Fix, Repair, DuplicatesMadeUp;
    if ms == [] {
      RepairEmpty(ms);
    } else {
      var ids := ToolIds(ms[0]);
      AnswersFit(ms[1..], ids);
      var answers, rest := ms[1..1 + |ids|], ms[1 + |ids|..];
      RepairOfValid(ms);
      RepairIsIdentity(rest);
      FixMeans(ids, answers);
      DuplicatesPrefix(ids, ms);
      SameParts(ms[0], Fix(ids, answers), Repair(rest), answers, rest);
    }
  }

  lemma DuplicatesPrefix(ids: seq<string>, ms: seq<Message>)
    requires |ids| < |ms|
    ensures DuplicatesMadeUp(ids, ms[1..1 + |ids|]) <==> DuplicatesMadeUp(ids, ms[1..])
  {
    assert ms[1..1 + |ids|] == ms[1..][..|ids|];
  }

  lemma SameParts(m: Message, a: seq<Message>, b: seq<Message>, c: seq<Message>, d: seq<Message>)
    requires |a| == |c|
    ensures [m] + a + b == [m] + c + d <==> a == c && b == d
  {
    var s, t := [m] + a + b, [m] + c + d;
    assert s[1..1 + |a|] == a && s[1 + |a|..] == b;
    assert t[1..1 + |a|] == c && t[1 + |a|..] == d;
  }

  // ---- Repairing twice ----

  /** A repeated call id of this turn has no real result among the messages up to the next assistant message. */
  predicate NoAnsweredRepeat(ids: seq<string>, behind: seq<Message>) {
    var window := behind[..UntilAssistant(behind)];
    forall a, b :: 0 <= a < b < |ids| && ids[a] == ids[b] ==>
      LastFor(window, ids[a]) == None || LastFor(window, ids[a]) == Some(Synthetic(ids[a]))
  }

  /** The same for every turn of an arbitrary list. */
  predicate NoAnsweredRepeats(ms: seq<Message>)
    decreases |ms|
  {
    ms == [] || (NoAnsweredRepeat(ToolIds(ms[0]), ms[1..]) && NoAnsweredRepeats(ms[1..]))
  }

  lemma {:induction false} SkipWindow(ms: seq<Message>, n: nat)
    requires n <= |ms| && NoAssistant(ms[..n])
    ensures NoAnsweredRepeats(ms) <==> NoAnsweredRepeats(ms[n..])
    decreases n
  {
    hide NoAnsweredRepeat;
    if n == 0 {
      assert ms[0..] == ms;
    } else {
      assert ms[..n][0] == ms[0];
      WindowSplit(ms, n);
      assert NoAssistant(ms[1..][..n - 1]) by {
        hide NoAnsweredRepeats;
        NoAssistantTail(ms, n);
      }
      SkipWindow(ms[1..], n - 1);
      NothingRepeats(ms[1..]);
    }
  }

  lemma NoAssistantTail(ms: seq<Message>, n: nat)
    requires 0 < n <= |ms| && NoAssistant(ms[..n])
    ensures NoAssistant(ms[1..][..n - 1])
  {
    var tail := ms[1..][..n - 1];
    forall k | 0 <= k < |tail| ensures !IsAssistant(tail[k]) {
      assert ms[..n][k + 1] == tail[k];
    }
  }

  lemma NothingRepeats(behind: seq<Message>)
    ensures NoAnsweredRepeat([], behind)
  {
  }

  lemma FirstIndex(ids: seq<string>, a: nat) returns (f: nat)
    requires a < |ids|
    ensures f <= a && ids[f] == ids[a] && ids[f] !in ids[..f]
  {
    f := 0;
    while ids[f] != ids[a]
      invariant f <= a
      invariant forall k :: 0 <= k < f ==> ids[k] != ids[a]
      decreases a - f
    {
      f := f + 1;
    }
  }

  /** The results a repaired turn ends up with are all made up for repeated ids exactly when none was collected. */
  lemma RepliesMadeUp(ids: seq<string>, window: seq<Message>)
    ensures DuplicatesMadeUp(ids, Fix(ids, window))
        <==> forall a, b :: 0 <= a < b < |ids| && ids[a] == ids[b] ==>
               LastFor(window, ids[a]) == None || LastFor(window, ids[a]) == Some(Synthetic(ids[a]))
  {
    hide LastFor;
    if DuplicatesMadeUp(ids, Fix(ids, window)) {
      forall a, b | 0 <= a < b < |ids| && ids[a] == ids[b]
        ensures LastFor(window, ids[a]) == None || LastFor(window, ids[a]) == Some(Synthetic(ids[a]))
      {
        var f := FirstIndex(ids, a);
        assert Fix(ids, window)[f] == Synthetic(ids[f]);
      }
    }
  }

  /** When an id repeats, the window ends at the next assistant message. */
  lemma RepeatsReachAssistant(ms: seq<Message>, ids: seq<string>)
    requires !Distinct(ids)
    ensures TurnEnd(ms, ids) == UntilAssistant(ms)
  {
    var n, u := TurnEnd(ms, ids), UntilAssistant(ms);
    TurnEndIsWindow(ms, ids);
    forall k | 0 <= k < n ensures !IsAssistant(ms[k]) {
      assert ms[..n][k] == ms[k];
    }
  }

  lemma TurnRepeats(ms: seq<Message>, ids: seq<string>)
    requires TurnEnd(ms, ids) <= |ms|
    ensures DuplicatesMadeUp(ids, Fix(ids, ms[..TurnEnd(ms, ids)])) <==> NoAnsweredRepeat(ids, ms)
  {
    hide LastFor, TurnEnd, Fix, DuplicatesMadeUp;
    RepliesMadeUp(ids, ms[..TurnEnd(ms, ids)]);
    if !Distinct(ids) {
      RepeatsReachAssistant(ms, ids);
    }
  }

  lemma SyntheticTurn(m: Message, answers: seq<Message>, rest: seq<Message>)
    requires !IsTool(m) && |answers| == |ToolIds(m)| && Answers(answers, ToolIds(m)) && WireValid(rest)
    ensures WireValid([m] + answers + rest)
    ensures SyntheticDuplicates([m] + answers + rest)
       <==> DuplicatesMadeUp(ToolIds(m), answers) && SyntheticDuplicates(rest)
  {
    hide ToolIds, Answers, DuplicatesMadeUp;
    WireValidTurn(m, answers, rest);
    var ms := [m] + answers + rest;
    assert ms[1..] == answers + rest && ms[1 + |answers|..] == rest;
    DuplicatesPrefix(ToolIds(m), ms);
    assert ms[1..1 + |answers|] == answers;
  }

  lemma {:induction false} SyntheticPlain(plain: seq<Message>, rest: seq<Message>)
    requires forall k :: 0 <= k < |plain| ==> !IsTool(plain[k]) && ToolIds(plain[k]) == []
    requires WireValid(rest)
    ensures WireValid(plain + rest)
    ensures SyntheticDuplicates(plain + rest) <==> SyntheticDuplicates(rest)
    decreases |plain|
  {
    hide ToolIds, IsTool, WireValid, SyntheticDuplicates, Answers;
    if plain == [] {
      assert plain + rest == rest;
    } else {
      SyntheticPlain(plain[1..], rest);
      NothingAsked(plain[0]);
      SyntheticTurn(plain[0], [], plain[1..] + rest);
      assert plain + rest == [plain[0]] + [] + (plain[1..] + rest);
      NoMadeUpNeeded(plain[0]);
    }
  }

  lemma NothingAsked(m: Message)
    ensures ToolIds(m) == [] ==> Answers([], ToolIds(m))
  {
  }

  lemma NoMadeUpNeeded(m: Message)
    ensures ToolIds(m) == [] ==> DuplicatesMadeUp(ToolIds(m), [])
  {
  }

  /** The repaired list has only made-up results for repeated ids exactly when the original has no real one. */
  lemma {:induction false} RepairedDuplicates(ms: seq<Message>)
    ensures WireValid(Repair(ms))
    ensures SyntheticDuplicates(Repair(ms)) <==> NoAnsweredRepeats(ms)
    decreases |ms|
  {
    hide ToolIds, Gather, WireValid, SyntheticDuplicates, Fix, TurnEnd, NoAnsweredRepeat, DuplicatesMadeUp, IsWindow;
    RepairIsWireValid(ms);
    if ms == [] {
      NothingSynthetic();
    } else if ToolIds(ms[0]) == [] {
      RepairedDuplicates(ms[1..]);
      NothingRepeats(ms[1..]);
      SyntheticOne(ms[0], Repair(ms[1..]));
    } else {
      var ids, n := ToolIds(ms[0]), TurnEnd(ms[1..], ToolIds(ms[0]));
      hide Repair;
      RepairOfTurn(ms);
      TurnBounds(ms[1..], ids);
      var window, rest := ms[1..][..n], ms[1..][n..];
      RepairedDuplicates(rest);
      PlainWindow(window);
      SyntheticPlain(NonTools(window), Repair(rest));
      FixAnswers(ids, window);
      AsksAreNotTools(ms[0]);
      SyntheticTurn(ms[0], Fix(ids, window), NonTools(window) + Repair(rest));
      Regroup([ms[0]] + Fix(ids, window), NonTools(window), Repair(rest));
      TurnRepeats(ms[1..], ids);
      SkipWindow(ms[1..], n);
    }
  }

  lemma NothingSynthetic()
    ensures WireValid([]) && SyntheticDuplicates([])
  {
  }

  lemma SyntheticOne(m: Message, rest: seq<Message>)
    requires ToolIds(m) == [] && WireValid(rest)
    ensures WireValid((if IsTool(m) then [] else [m]) + rest)
    ensures SyntheticDuplicates((if IsTool(m) then [] else [m]) + rest) <==> SyntheticDuplicates(rest)
  {
    SyntheticPlain(if IsTool(m) then [] else [m], rest);
  }

  lemma TurnBounds(ms: seq<Message>, ids: seq<string>)
    ensures TurnEnd(ms, ids) <= |ms| && NoAssistant(ms[..TurnEnd(ms, ids)])
  {
    hide TurnEnd;
    TurnEndIsWindow(ms, ids);
  }

  lemma PlainWindow(window: seq<Message>)
    requires NoAssistant(window)
    ensures forall k :: 0 <= k < |NonTools(window)| ==>
              !IsTool(NonTools(window)[k]) && ToolIds(NonTools(window)[k]) == []
  {
    NonToolsHasNoTools(window);
  }

  lemma FixAnswers(ids: seq<string>, window: seq<Message>)
    ensures Answers(Fix(ids, window), ids)
    ensures Fix(ids, window) == seq(|ids|, k requires 0 <= k < |ids| => ReplyFor(ids, window, k))
  {
    forall k | 0 <= k < |ids|
      ensures IsTool(Fix(ids, window)[k]) && Fix(ids, window)[k].toolCallId == Some(ids[k])
    {
      LastForMeans(window, ids[k]);
    }
  }

  /** For every list: repairing again changes nothing exactly when no repeated call id had a real result. */
  lemma RepairTwice(ms: seq<Message>)
    ensures Repair(Repair(ms)) == Repair(ms) <==> NoAnsweredRepeats(ms)
  {
    hide WireValid, Repair, SyntheticDuplicates;
    RepairedDuplicates(ms);
    RepairIsIdentity(Repair(ms));
  }

  lemma {:induction false} DistinctNeverRepeats(ms: seq<Message>)
    requires DistinctIds(ms)
    ensures NoAnsweredRepeats(ms)
    decreases |ms|
  {
    hide ToolIds, LastFor;
    if ms != [] {
      assert Distinct(ToolIds(ms[0]));
      assert forall k :: 0 <= k < |ms[1..]| ==> ms[1..][k] == ms[k + 1];
      DistinctNeverRepeats(ms[1..]);
    }
  }

  /** Without repeated ids repairing is idempotent, and the identity on accepted lists. */
  lemma DistinctIsStable(ms: seq<Message>)
    requires DistinctIds(ms)
    ensures Repair(Repair(ms)) == Repair(ms)
    ensures WireValid(ms) ==> Repair(ms) == ms
  {
    hide WireValid, Repair, SyntheticDuplicates, NoAnsweredRepeats, DistinctIds;
    DistinctNeverRepeats(ms);
    RepairTwice(ms);
    if WireValid(ms) {
      DistinctIsIdentity(ms);
    }
  }

  lemma DistinctIsIdentity(ms: seq<Message>)
    requires DistinctIds(ms) && WireValid(ms)
    ensures Repair(ms) == ms
  {
    hide Repair;
    DistinctSynthetic(ms);
    RepairIsIdentity(ms);
  }

  lemma {:induction false} DistinctSynthetic(ms: seq<Message>)
    requires DistinctIds(ms) && WireValid(ms)
    ensures SyntheticDuplicates(ms)
    decreases |ms|
  {
    hide ToolIds, Answers;
    if ms != [] {
      var n := 1 + |ToolIds(ms[0])|;
      AnswersFit(ms[1..], ToolIds(ms[0]));
      assert Distinct(ToolIds(ms[0]));
      assert forall k :: 0 <= k < |ms[n..]| ==> ms[n..][k] == ms[n + k];
      DistinctSynthetic(ms[n..]);
    }
  }

  /** Two calls with one id and two real results: the first result is lost, and a second pass loses the other. */
  lemma RepeatedIdLosesResults()
    ensures var calls := [ToolCall("x", "run", ""), ToolCall("x", "run", "")];
            var ask := Message("assistant", "", [], Some(calls), None, None);
            var ms := [ask, ToolResult("x", "a"), ToolResult("x", "b")];
            && WireValid(ms)
            && Repair(ms) == [ask, ToolResult("x", "b"), Synthetic("x")]
            && Repair(Repair(ms)) == [ask, Synthetic("x"), Synthetic("x")]
  {
    var calls := [ToolCall("x", "run", ""), ToolCall("x", "run", "")];
    var ask := Message("assistant", "", [], Some(calls), None, None);
    assert Ids(calls) == ["x", "x"];
    RepeatedPair(ask, ToolResult("x", "a"), ToolResult("x", "b"));
    RepeatedPair(ask, ToolResult("x", "b"), Synthetic("x"));
  }

  lemma RepeatedPair(ask: Message, a: Message, b: Message)
    requires ToolIds(ask) == ["x", "x"]
    requires IsTool(a) && IsTool(b) && a.toolCallId == b.toolCallId == Some("x")
    ensures WireValid([ask, a, b]) && Repair([ask, a, b]) == [ask, b, Synthetic("x")]
  {
    hide ToolIds, Repair, Fix, LastFor;
    var ids := ["x", "x"];
    AsksAreNotTools(ask);
    WireValidTurn(ask, [a, b], []);
    assert [ask] + [a, b] + [] == [ask, a, b];
    RepairOfOrdered(ask, [a, b], []);
    LastOfTwo(a, b);
    assert ids[..1] == ["x"];
    assert Fix(ids, [a, b]) == [b, Synthetic("x")];
    RepairEmpty([]);
    assert [ask] + [b, Synthetic("x")] + [] == [ask, b, Synthetic("x")];
  }

  lemma LastOfTwo(a: Message, b: Message)
    requires IsTool(b) && b.toolCallId == Some("x")
    ensures LastFor([a, b], "x") == Some(b)
  {
    assert [a, b][1..] == [b] && [b][0] == b;
    assert LastFor([b], "x") == Some(b);
  }
}
