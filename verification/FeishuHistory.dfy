/**
 * The Feishu path's own clean-up of a history. It counts results instead of matching ids, and strips the calls of a
 * turn that has too few; the exact condition under which its result is accepted is proved here.
 */
module FeishuHistory {
  import opened Sequences
  import opened Wrappers
  import opened Messages
  import opened RepairLaws
  import opened RepairFixpoints
  import opened Interrupted

  /** What is kept of the first turn: all of it if it has enough results, else its message without calls. */
  function TurnKept(ms: seq<Message>): seq<Message>
    requires ms != []
  {
    var ids, c := ToolIds(ms[0]), LeadingTools(ms[1..]);
    if ids == [] then [ms[0]]
    else if c >= |ids| then [ms[0]] + ms[1..1 + c]
    else [ms[0].(toolCalls := None)]
  }

  /** How many messages the first turn takes; results behind a message without calls are looked at one by one. */
  function TurnSpan(ms: seq<Message>): (n: nat)
    requires ms != []
    ensures 0 < n <= |ms|
  {
    if ToolIds(ms[0]) == [] then 1 else 1 + LeadingTools(ms[1..])
  }

  /** From a message that is kept on, turn by turn. */
  function SanitizeRest(ms: seq<Message>): seq<Message>
    decreases |ms|
  {
    if ms == [] then [] else TurnKept(ms) + SanitizeRest(ms[TurnSpan(ms)..])
  }

  function Sanitized(ms: seq<Message>): seq<Message> {
    SanitizeRest(ms[LeadingTools(ms)..])
  }

  method SanitizeHistory(messages: seq<Message>) returns (history: seq<Message>)
    ensures history == Sanitized(messages)
  {
    hide SanitizeRest, ToolIds, IsTool, LeadingTools;
    history := messages;
    while history != [] && IsTool(history[0])
      invariant history[LeadingTools(history)..] == messages[LeadingTools(messages)..]
      decreases |history|
    {
      DropLeading(history);
      history := history[1..];
    }
    NothingLeads(history);
    var i := 0;
    while i < |history|
      invariant 0 <= i <= |history|
      invariant history[..i] + SanitizeRest(history[i..]) == Sanitized(messages)
      decreases |history| - i
    {
      var toolIds := ToolIds(history[i]);
      if toolIds == [] {
        KeepOne(history, i);
        i := i + 1;
        continue;
      }
      var toolCount := CountResults(history, i);
      if toolCount >= |toolIds| {
        KeepTurn(history, i, toolCount);
        i := i + 1 + toolCount;
        continue;
      }
      StripTurn(history, i, toolCount);
      history := StripCalls(history, i, toolCount);
      i := i + 1;
    }
    SanitizeNothing();
    assert history[..i] + [] == history;
  }

  /** How many results follow the message at `i`. */
  method CountResults(history: seq<Message>, i: nat) returns (toolCount: nat)
    requires i < |history|
    ensures toolCount == LeadingTools(history[i + 1..])
  {
    hide LeadingTools;
    toolCount := 0;
    while i + 1 + toolCount < |history| && IsTool(history[i + 1 + toolCount])
      invariant i + 1 + toolCount <= |history|
      invariant forall k :: i < k <= i + toolCount ==> IsTool(history[k])
      decreases |history| - toolCount
    {
      toolCount := toolCount + 1;
    }
    CountedTools(history, i, toolCount);
  }

  /** Takes the calls off the message at `i` and removes the `toolCount` results behind it, one by one. */
  method StripCalls(messages: seq<Message>, i: nat, toolCount: nat) returns (history: seq<Message>)
    requires i + 1 + toolCount <= |messages|
    ensures |history| == |messages| - toolCount
    ensures history[..i + 1] == messages[..i] + [messages[i].(toolCalls := None)]
    ensures history[i + 1..] == messages[i + 1 + toolCount..]
  {
    history := messages[i := messages[i].(toolCalls := None)];
    ghost var front := history[..i + 1];
    var removed := 0;
    while removed < toolCount
      invariant 0 <= removed <= toolCount
      invariant |history| == |messages| - removed && history[..i + 1] == front
      invariant history[i + 1..] == messages[i + 1 + removed..]
    {
      ghost var before := history;
      history := history[..i + 1] + history[i + 2..];
      assert history[i + 1..] == before[i + 1..][1..];
      removed := removed + 1;
    }
  }

  lemma DropLeading(h: seq<Message>)
    requires h != [] && IsTool(h[0])
    ensures h[1..][LeadingTools(h[1..])..] == h[LeadingTools(h)..]
  {
  }

  lemma NothingLeads(h: seq<Message>)
    requires h == [] || !IsTool(h[0])
    ensures h[LeadingTools(h)..] == h && h[0..] == h && h[..0] + SanitizeRest(h) == SanitizeRest(h)
  {
    hide SanitizeRest;
    LeadingToolsUnique(h, 0);
  }

  lemma SanitizeNothing()
    ensures SanitizeRest([]) == []
  {
  }

  lemma CountedTools(h: seq<Message>, i: nat, c: nat)
    requires i + 1 + c <= |h| && (forall k :: i < k <= i + c ==> IsTool(h[k]))
    requires i + 1 + c < |h| ==> !IsTool(h[i + 1 + c])
    ensures LeadingTools(h[i + 1..]) == c
  {
    var tail := h[i + 1..];
    assert forall k :: 0 <= k < c ==> tail[k] == h[i + 1 + k];
    LeadingToolsUnique(tail, c);
  }

  lemma TailAt(h: seq<Message>, i: nat)
    requires i < |h|
    ensures h[i..][0] == h[i] && h[i..][1..] == h[i + 1..] && h[..i + 1] == h[..i] + [h[i]]
  {
  }

  lemma KeepOne(h: seq<Message>, i: nat)
    requires i < |h| && ToolIds(h[i]) == []
    ensures h[..i] + SanitizeRest(h[i..]) == h[..i + 1] + SanitizeRest(h[i + 1..])
  {
    hide ToolIds, LeadingTools, SanitizeRest;
    TailAt(h, i);
    SanitizeMessage(h[i..]);
    Regroup(h[..i], [h[i]], SanitizeRest(h[i + 1..]));
  }

  lemma TurnAt(h: seq<Message>, i: nat, c: nat)
    requires i + c < |h|
    ensures h[i..][1 + c..] == h[i + 1 + c..]
    ensures h[..i + 1 + c] == h[..i] + ([h[i]] + h[i..][1..1 + c])
  {
  }

  lemma SanitizeStep(ms: seq<Message>)
    requires ms != []
    ensures SanitizeRest(ms) == TurnKept(ms) + SanitizeRest(ms[TurnSpan(ms)..])
  {
    hide TurnKept, TurnSpan;
  }

  /** The first turn of a list, kept or stripped. */
  lemma SanitizeTurn(ms: seq<Message>, c: nat)
    requires ms != [] && ToolIds(ms[0]) != [] && c == LeadingTools(ms[1..])
    ensures SanitizeRest(ms)
         == (if c >= |ToolIds(ms[0])| then [ms[0]] + ms[1..1 + c] else [ms[0].(toolCalls := None)])
            + SanitizeRest(ms[1 + c..])
  {
    hide ToolIds, LeadingTools, SanitizeRest;
    SanitizeStep(ms);
  }

  lemma SanitizeMessage(ms: seq<Message>)
    requires ms != [] && ToolIds(ms[0]) == []
    ensures SanitizeRest(ms) == [ms[0]] + SanitizeRest(ms[1..])
  {
    hide ToolIds, LeadingTools, SanitizeRest;
    SanitizeStep(ms);
  }

  lemma KeepTurn(h: seq<Message>, i: nat, c: nat)
    requires i < |h| && ToolIds(h[i]) != [] && c == LeadingTools(h[i + 1..]) >= |ToolIds(h[i])|
    ensures h[..i] + SanitizeRest(h[i..]) == h[..i + 1 + c] + SanitizeRest(h[i + 1 + c..])
  {
    hide ToolIds, LeadingTools, SanitizeRest;
    TailAt(h, i);
    TurnAt(h, i, c);
    SanitizeTurn(h[i..], c);
    Regroup(h[..i], [h[i]] + h[i..][1..1 + c], SanitizeRest(h[i + 1 + c..]));
  }

  lemma StripTurn(h: seq<Message>, i: nat, c: nat)
    requires i < |h| && ToolIds(h[i]) != [] && c == LeadingTools(h[i + 1..]) < |ToolIds(h[i])|
    ensures h[..i] + SanitizeRest(h[i..])
         == h[..i] + [h[i].(toolCalls := None)] + SanitizeRest(h[i + 1 + c..])
  {
    hide ToolIds, LeadingTools, SanitizeRest;
    TailAt(h, i);
    TurnAt(h, i, c);
    SanitizeTurn(h[i..], c);
    Regroup(h[..i], [h[i].(toolCalls := None)], SanitizeRest(h[i + 1 + c..]));
  }

  // ---- When the result is accepted ----

  /** Each run of results is shorter than the calls in front of it, or answers exactly those. */
  predicate RunsFit(ms: seq<Message>)
    decreases |ms|
  {
    ms == [] || (
      var ids, c := ToolIds(ms[0]), LeadingTools(ms[1..]);
      && !IsTool(ms[0])
      && (c < |ids| || (c == |ids| && Answers(ms[1..], ids)))
      && RunsFit(ms[1 + c..]))
  }

  lemma StrippedAsksNothing(m: Message)
    ensures ToolIds(m.(toolCalls := None)) == [] && IsTool(m.(toolCalls := None)) == IsTool(m)
  {
  }

  lemma {:induction false} ValidInFront(m: Message, answers: seq<Message>, rest: seq<Message>)
    requires !IsTool(m) && forall k :: 0 <= k < |answers| ==> IsTool(answers[k])
    requires rest == [] || !IsTool(rest[0])
    ensures WireValid([m] + answers + rest)
       <==> |answers| == |ToolIds(m)| && Answers(answers, ToolIds(m)) && WireValid(rest)
  {
    hide ToolIds;
    var ms, ids := [m] + answers + rest, ToolIds(m);
    assert ms[0] == m && ms[1..] == answers + rest;
    if |ids| < |answers| {
      assert ms[1 + |ids|..][0] == answers[|ids|];
    } else if |answers| < |ids| {
      TooFewAnswers(answers, rest, ids);
    } else {
      AnswersPrefix(answers, rest, ids);
      assert ms[1 + |ids|..] == rest;
    }
  }

  lemma TooFewAnswers(answers: seq<Message>, rest: seq<Message>, ids: seq<string>)
    requires |answers| < |ids| && (rest == [] || !IsTool(rest[0]))
    ensures !Answers(answers + rest, ids)
  {
    if rest != [] {
      assert (answers + rest)[|answers|] == rest[0];
    }
  }

  lemma SanitizeRestStarts(ms: seq<Message>)
    requires ms == [] || !IsTool(ms[0])
    ensures SanitizeRest(ms) == [] || !IsTool(SanitizeRest(ms)[0])
  {
  }

  /** The parts of a list around its first turn. */
  lemma FirstTurn(ms: seq<Message>)
    requires ms != []
    ensures var c := LeadingTools(ms[1..]);
            && ms[1..] == ms[1..1 + c] + ms[1 + c..]
            && ms == [ms[0]] + ms[1..1 + c] + ms[1 + c..]
            && (var run := ms[1..1 + c]; forall k :: 0 <= k < |run| ==> IsTool(run[k]))
            && (ms[1 + c..] == [] || !IsTool(ms[1 + c..][0]))
  {
    hide LeadingTools, IsTool;
    var c := LeadingTools(ms[1..]);
    var run := ms[1..1 + c];
    assert ms[1..] == run + ms[1 + c..];
    forall k | 0 <= k < |run| ensures IsTool(run[k]) {
      assert run[k] == ms[1..][k];
    }
    if 1 + c < |ms| {
      assert ms[1 + c..][0] == ms[1..][c];
    }
    SplitTurn(ms, c);
  }

  lemma {:induction false} SanitizedRestValid(ms: seq<Message>)
    requires ms == [] || !IsTool(ms[0])
    ensures WireValid(SanitizeRest(ms)) <==> RunsFit(ms)
    decreases |ms|
  {
    if ms != [] {
      hide WireValid, ToolIds, Answers, SanitizeRest, LeadingTools;
      var ids, c := ToolIds(ms[0]), LeadingTools(ms[1..]);
      var answers, rest := ms[1..1 + c], ms[1 + c..];
      FirstTurn(ms);
      SanitizedRestValid(rest);
      SanitizeRestStarts(rest);
      if |ids| <= c {
        if ids == [] {
          SanitizePlain(ms, c);
        } else {
          SanitizeTurn(ms, c);
        }
        ValidInFront(ms[0], answers, SanitizeRest(rest));
        if |ids| == c {
          AnswersPrefix(answers, rest, ids);
        }
      } else {
        SanitizeTurn(ms, c);
        StrippedAsksNothing(ms[0]);
        ValidInFront(ms[0].(toolCalls := None), [], SanitizeRest(rest));
        NothingAnswers();
        assert [ms[0].(toolCalls := None)] + [] == [ms[0].(toolCalls := None)];
      }
    } else {
      SanitizeNothing();
      NothingIsAccepted();
    }
  }

  lemma NothingIsAccepted()
    ensures WireValid([]) && RunsFit([])
  {
  }

  lemma NothingAnswers()
    ensures Answers([], [])
  {
  }

  /** Behind a message without calls, results are kept where they are. */
  lemma SanitizePlain(ms: seq<Message>, c: nat)
    requires ms != [] && ToolIds(ms[0]) == [] && c == LeadingTools(ms[1..])
    ensures SanitizeRest(ms) == [ms[0]] + ms[1..1 + c] + SanitizeRest(ms[1 + c..])
  {
    hide ToolIds, SanitizeRest, LeadingTools;
    SanitizeMessage(ms);
    SanitizeTools(ms[1..]);
    assert ms[1..][..c] == ms[1..1 + c] && ms[1..][c..] == ms[1 + c..];
    Regroup([ms[0]], ms[1..1 + c], SanitizeRest(ms[1 + c..]));
  }

  lemma {:induction false} SanitizeTools(ms: seq<Message>)
    ensures SanitizeRest(ms) == ms[..LeadingTools(ms)] + SanitizeRest(ms[LeadingTools(ms)..])
    decreases |ms|
  {
    hide SanitizeRest;
    var n := LeadingTools(ms);
    if n == 0 {
      assert ms[..0] == [] && ms[0..] == ms;
      assert [] + SanitizeRest(ms) == SanitizeRest(ms);
    } else {
      SanitizeTools(ms[1..]);
      SanitizeMessage(ms);
      assert ms[1..][n - 1..] == ms[n..] && [ms[0]] + ms[1..][..n - 1] == ms[..n];
      Regroup([ms[0]], ms[1..][..n - 1], SanitizeRest(ms[n..]));
    }
  }

  /** For every history: the cleaned-up one is accepted exactly when its runs of results fit. */
  lemma SanitizedIsValid(ms: seq<Message>)
    ensures WireValid(Sanitized(ms)) <==> RunsFit(ms[LeadingTools(ms)..])
  {
    hide SanitizeRest, WireValid, RunsFit;
    SanitizedRestValid(ms[LeadingTools(ms)..]);
  }

  lemma {:induction false} InOrderFits(ms: seq<Message>)
    requires InOrder(ms)
    ensures RunsFit(ms)
    decreases |ms|
  {
    hide ToolIds, PartlyAnswers, Answers, InOrder;
    if ms != [] {
      TurnOf(ms);
      var p := LeadingTools(ms[1..]);
      InOrderFits(ms[1 + p..]);
      if p == |ToolIds(ms[0])| {
        PartlyIsAnswered(ms, p, ToolIds(ms[0]));
      }
    }
  }

  /** Any history a turn loop left, interrupted or cut off in front, is repaired. */
  lemma SanitizeRepairsStored(ms: seq<Message>)
    requires Stored(ms)
    ensures WireValid(Sanitized(ms))
  {
    hide Sanitized, InOrder;
    InOrderFits(ms[LeadingTools(ms)..]);
    SanitizedIsValid(ms);
  }

  /** An accepted history is left alone. */
  lemma {:induction false} SanitizeKeepsValid(ms: seq<Message>)
    requires WireValid(ms)
    ensures Sanitized(ms) == ms
  {
    hide SanitizeRest, WireValid, InOrder;
    ValidIsInOrder(ms);
    InOrderIsStored(ms);
    SanitizeRestKeepsValid(ms);
  }

  lemma {:induction false} SanitizeRestKeepsValid(ms: seq<Message>)
    requires WireValid(ms)
    ensures SanitizeRest(ms) == ms
    decreases |ms|
  {
    hide ToolIds, PartlyAnswers, InOrder, Answers;
    if ms != [] {
      ValidIsInOrder(ms);
      TurnOf(ms);
      var n, c := |ToolIds(ms[0])|, LeadingTools(ms[1..]);
      AnswersFit(ms[1..], ToolIds(ms[0]));
      AnswersLead(ms[1..], ToolIds(ms[0]));
      SanitizeRestKeepsValid(ms[1 + n..]);
    }
  }

  lemma AnswersLead(ms: seq<Message>, ids: seq<string>)
    requires Answers(ms, ids)
    ensures |ids| <= LeadingTools(ms)
  {
  }

  /** A truncated history, with a summary in front: accepted exactly when the cut did not fall inside a turn. */
  lemma SummaryHidesOrphans(summary: Message, ms: seq<Message>)
    requires summary.role == "system" && Stored(ms)
    ensures WireValid(Sanitized([summary] + ms)) <==> LeadingTools(ms) == 0
  {
    hide Sanitized, InOrder, PartlyAnswers;
    var all := [summary] + ms;
    assert all[1..] == ms && all[0] == summary;
    LeadingToolsUnique(all, 0);
    assert all[0..] == all;
    SanitizedIsValid(all);
    InOrderFits(ms[LeadingTools(ms)..]);
    assert ToolIds(summary) == [];
    if LeadingTools(ms) == 0 {
      assert ms[0..] == ms && all[1 + 0..] == ms;
    }
  }

  predicate AtMostStripped(kept: seq<Message>, said: seq<Message>) {
    |kept| == |said| && forall k :: 0 <= k < |said| ==> kept[k] in {said[k], said[k].(toolCalls := None)}
  }

  /** What is kept: every message that is not a result, at most without its calls. */
  lemma SanitizedSaysTheSame(ms: seq<Message>)
    ensures AtMostStripped(NonTools(Sanitized(ms)), NonTools(ms))
  {
    hide SanitizeRest;
    var t := LeadingTools(ms);
    NonToolsOfWindow(ms, t);
    AllToolsNoNonTools(ms[..t]);
    assert [] + NonTools(ms[t..]) == NonTools(ms[t..]);
    SanitizeRestSaysTheSame(ms[t..]);
  }

  lemma {:induction false} SanitizeRestSaysTheSame(ms: seq<Message>)
    ensures AtMostStripped(NonTools(SanitizeRest(ms)), NonTools(ms))
    decreases |ms|
  {
    hide ToolIds, AtMostStripped, NonTools, SanitizeRest, LeadingTools;
    if ms == [] {
      SanitizeNothing();
      StrippedNothing();
    } else {
      var c := LeadingTools(ms[1..]);
      var answers, rest := ms[1..1 + c], ms[1 + c..];
      FirstTurn(ms);
      SanitizeRestSaysTheSame(rest);
      if ToolIds(ms[0]) == [] {
        SanitizePlain(ms, c);
      } else {
        SanitizeTurn(ms, c);
      }
      StrippedTurn(ms[0], ms[0], answers, answers, rest);
      StrippedTurn(ms[0], ms[0].(toolCalls := None), answers, [], rest);
      assert [ms[0].(toolCalls := None)] + [] == [ms[0].(toolCalls := None)];
    }
  }

  lemma StrippedNothing()
    ensures AtMostStripped(NonTools([]), NonTools([]))
  {
  }

  lemma {:induction false} StrippedTurn(m: Message, m': Message, answers: seq<Message>, answers': seq<Message>,
                                        rest: seq<Message>)
    requires m' in {m, m.(toolCalls := None)} && AtMostStripped(NonTools(SanitizeRest(rest)), NonTools(rest))
    requires forall k :: 0 <= k < |answers| ==> IsTool(answers[k])
    requires forall k :: 0 <= k < |answers'| ==> IsTool(answers'[k])
    ensures AtMostStripped(NonTools([m'] + answers' + SanitizeRest(rest)), NonTools([m] + answers + rest))
  {
    hide NonTools, SanitizeRest;
    NonToolsThree(m, answers, rest);
    NonToolsThree(m', answers', SanitizeRest(rest));
  }

  lemma NonToolsThree(m: Message, answers: seq<Message>, rest: seq<Message>)
    requires forall k :: 0 <= k < |answers| ==> IsTool(answers[k])
    ensures NonTools([m] + answers + rest) == (if IsTool(m) then [] else [m]) + NonTools(rest)
  {
    hide NonTools;
    NonToolsConcat([m] + answers, rest);
    NonToolsConcat([m], answers);
    NonToolsOne(m);
    AllToolsNoNonTools(answers);
  }

  // ---- Which messages are kept ----

  /** The newest message up to the `i`-th that is not a result: the one whose turn it belongs to. */
  function Owner(ms: seq<Message>, i: nat): (h: Option<nat>)
    requires i < |ms|
    ensures h.Some? ==> h.value <= i && !IsTool(ms[h.value]) && forall k :: h.value < k <= i ==> IsTool(ms[k])
    ensures h.None? ==> forall k :: 0 <= k <= i ==> IsTool(ms[k])
  {
    if !IsTool(ms[i]) then Some(i) else if i == 0 then None else Owner(ms, i - 1)
  }

  /** A message and its results stay if there are enough of them; otherwise only the message does, without its calls. */
  function KeptAt(ms: seq<Message>, i: nat): seq<Message>
    requires i < |ms|
  {
    var h := Owner(ms, i);
    if h.None? then []
    else if |ToolIds(ms[h.value])| <= LeadingTools(ms[h.value + 1..]) then [ms[i]]
    else if i == h.value then [ms[i].(toolCalls := None)]
    else []
  }

  function KeptFrom(ms: seq<Message>, i: nat): seq<Message>
    requires i <= |ms|
    decreases |ms| - i
  {
    if i == |ms| then [] else KeptAt(ms, i) + KeptFrom(ms, i + 1)
  }

  lemma {:induction false} KeptOrphans(ms: seq<Message>, i: nat)
    requires i <= |ms| && forall k :: 0 <= k < i ==> IsTool(ms[k])
    ensures KeptFrom(ms, 0) == KeptFrom(ms, i)
    decreases i
  {
    hide ToolIds, LeadingTools, KeptFrom;
    if i > 0 {
      KeptOrphans(ms, i - 1);
      KeptStep(ms, i - 1);
      assert KeptAt(ms, i - 1) == [] && [] + KeptFrom(ms, i) == KeptFrom(ms, i);
    }
  }

  lemma OwnerOfRun(ms: seq<Message>, h: nat, i: nat)
    requires h <= i < |ms| && !IsTool(ms[h]) && forall k :: h < k <= i ==> IsTool(ms[k])
    ensures Owner(ms, i) == Some(h)
  {
  }

  lemma KeptStep(ms: seq<Message>, i: nat)
    requires i < |ms|
    ensures KeptFrom(ms, i) == KeptAt(ms, i) + KeptFrom(ms, i + 1)
  {
    hide KeptAt;
  }

  lemma KeptInRun(ms: seq<Message>, h: nat, k: nat)
    requires h < k < |ms| && !IsTool(ms[h]) && forall l :: h < l <= k ==> IsTool(ms[l])
    ensures KeptAt(ms, k) == if |ToolIds(ms[h])| <= LeadingTools(ms[h + 1..]) then [ms[k]] else []
  {
    hide ToolIds, LeadingTools, IsTool, Owner;
    OwnerOfRun(ms, h, k);
  }

  /** The results of a turn from the `k`-th message on: all of them or none. */
  lemma {:induction false} KeptRun(ms: seq<Message>, h: nat, k: nat, j: nat)
    requires h < k <= j <= |ms| && !IsTool(ms[h]) && forall l :: h < l < j ==> IsTool(ms[l])
    ensures KeptFrom(ms, k)
         == (if |ToolIds(ms[h])| <= LeadingTools(ms[h + 1..]) then ms[k..j] else []) + KeptFrom(ms, j)
    decreases j - k
  {
    hide ToolIds, LeadingTools, IsTool, KeptAt, KeptFrom;
    if k < j {
      KeptStep(ms, k);
      KeptInRun(ms, h, k);
      KeptRun(ms, h, k + 1, j);
      assert ms[k..j] == [ms[k]] + ms[k + 1..j];
      Regroup([ms[k]], ms[k + 1..j], KeptFrom(ms, j));
    } else {
      assert ms[k..j] == [];
    }
    assert [] + KeptFrom(ms, j) == KeptFrom(ms, j);
  }

  lemma {:induction false} RestIsKept(ms: seq<Message>, i: nat)
    requires i <= |ms| && (i == |ms| || !IsTool(ms[i]))
    ensures SanitizeRest(ms[i..]) == KeptFrom(ms, i)
    decreases |ms| - i
  {
    hide ToolIds, SanitizeRest, LeadingTools, IsTool, Owner, KeptAt;
    if i == |ms| {
      assert ms[i..] == [];
      SanitizeNothing();
    } else {
      var c := LeadingTools(ms[i + 1..]);
      TurnEnds(ms, i, c);
      RestIsKept(ms, i + 1 + c);
      KeptTurn(ms, i, c);
      FirstTurnRest(ms, i, c);
    }
  }

  lemma KeptOwner(ms: seq<Message>, i: nat)
    requires i < |ms| && !IsTool(ms[i])
    ensures KeptAt(ms, i)
         == if |ToolIds(ms[i])| <= LeadingTools(ms[i + 1..]) then [ms[i]] else [ms[i].(toolCalls := None)]
  {
    hide ToolIds, LeadingTools;
  }

  /** One turn, kept message by message. */
  lemma KeptTurn(ms: seq<Message>, i: nat, c: nat)
    requires i + c < |ms| && c == LeadingTools(ms[i + 1..])
    requires !IsTool(ms[i]) && forall k :: i < k <= i + c ==> IsTool(ms[k])
    ensures KeptFrom(ms, i)
         == (if |ToolIds(ms[i])| <= c then [ms[i]] + ms[i + 1..i + 1 + c] else [ms[i].(toolCalls := None)])
            + KeptFrom(ms, i + 1 + c)
  {
    hide ToolIds, LeadingTools, IsTool, KeptAt, KeptFrom;
    KeptStep(ms, i);
    KeptRun(ms, i, i + 1, i + 1 + c);
    KeptOwner(ms, i);
    Regroup([ms[i]], ms[i + 1..i + 1 + c], KeptFrom(ms, i + 1 + c));
    assert [] + KeptFrom(ms, i + 1 + c) == KeptFrom(ms, i + 1 + c);
  }

  /** The same turn, cleaned up as a whole. */
  lemma FirstTurnRest(ms: seq<Message>, i: nat, c: nat)
    requires i + c < |ms| && c == LeadingTools(ms[i + 1..])
    ensures SanitizeRest(ms[i..])
         == (if |ToolIds(ms[i])| <= c then [ms[i]] + ms[i + 1..i + 1 + c] else [ms[i].(toolCalls := None)])
            + SanitizeRest(ms[i + 1 + c..])
  {
    hide ToolIds, LeadingTools, SanitizeRest;
    TailAt(ms, i);
    TurnAt(ms, i, c);
    assert ms[i..][1..1 + c] == ms[i + 1..i + 1 + c];
    if ToolIds(ms[i]) == [] {
      SanitizePlain(ms[i..], c);
    } else {
      SanitizeTurn(ms[i..], c);
    }
  }

  lemma TurnEnds(ms: seq<Message>, i: nat, c: nat)
    requires i < |ms| && c == LeadingTools(ms[i + 1..])
    ensures i + 1 + c <= |ms| && (forall k :: i < k <= i + c ==> IsTool(ms[k]))
    ensures i + 1 + c == |ms| || !IsTool(ms[i + 1 + c])
  {
    hide IsTool;
    var tail := ms[i + 1..];
    assert forall k :: i < k < |ms| ==> ms[k] == tail[k - i - 1];
  }

  /**
   * For every history, message by message: a result stays if and only if the turn it belongs to has enough of them, and a
   * message with fewer results than calls loses its calls; nothing else changes.
   */
  lemma SanitizedIsKept(ms: seq<Message>)
    ensures Sanitized(ms) == KeptFrom(ms, 0)
  {
    hide SanitizeRest, LeadingTools, IsTool, KeptAt;
    KeptOrphans(ms, LeadingTools(ms));
    RestIsKept(ms, LeadingTools(ms));
  }
}
