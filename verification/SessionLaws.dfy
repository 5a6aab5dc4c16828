/**
 * What a session guarantees over whole runs: histories stay repairable by adding results alone, pruning composes,
 * truncation drops no more than it must, and the next request says exactly what the history says.
 */
module SessionLaws {
  import opened Wrappers
  import opened Messages
  import opened ToolSequence
  import opened RepairFixpoints
  import opened Interrupted
  import opened Requests
  import opened Sessions

  // ---- Truncation ----

  /** The token count after dropping `k` messages. */
  function TokensAfter(ms: seq<Message>, tokens: nat, count: string -> nat, k: nat): nat
    requires k <= |ms|
    decreases k
  {
    if k == 0 then tokens else TokensAfter(ms[1..], Minus(tokens, count(ms[0].content)), count, k - 1)
  }

  /** Truncation drops the fewest oldest messages that bring the count within the limit, keeping at least two. */
  lemma {:induction false} TruncationIsMinimal(ms: seq<Message>, tokens: nat, limit: nat, count: string -> nat)
    ensures var (rest, left) := Truncated(ms, tokens, limit, count);
            var n := |ms| - |rest|;
            && 0 <= n && rest == ms[n..]
            && (n > 0 ==> |rest| >= 2)
            && left == TokensAfter(ms, tokens, count, n)
            && (left <= limit || |rest| <= 2)
            && (forall k :: 0 <= k < n ==> TokensAfter(ms, tokens, count, k) > limit)
    decreases |ms|
  {
    if tokens > limit && |ms| > 2 {
      var tokens' := Minus(tokens, count(ms[0].content));
      TruncationIsMinimal(ms[1..], tokens', limit, count);
      var (rest, left) := Truncated(ms, tokens, limit, count);
      var n := |ms| - |rest|;
      forall k | 0 <= k < n ensures TokensAfter(ms, tokens, count, k) > limit {
        if k > 0 {
          assert TokensAfter(ms, tokens, count, k) == TokensAfter(ms[1..], tokens', count, k - 1);
        }
      }
    }
  }

  // ---- Images ----

  function Min(a: nat, b: nat): nat {
    if a <= b then a else b
  }

  lemma {:induction false} PrunedImages(ms: seq<Message>, keep: nat, from: nat)
    requires from <= |ms|
    ensures ImagesFrom(Pruned(ms, keep), from) == Min(ImagesFrom(ms, from), keep)
    decreases |ms| - from
  {
    hide Marked, IMAGE_MARK;
    if from < |ms| {
      PrunedImages(ms, keep, from + 1);
    }
  }

  lemma MarkIsFound(content: string)
    ensures Marked(content + " " + IMAGE_MARK)
  {
    var s := content + " " + IMAGE_MARK;
    assert Text.OccursAt(s, IMAGE_MARK, |content| + 1);
  }

  /** Exactly the `keep` newest image-bearing messages keep their images, and nothing else changes but one marker. */
  lemma PrunedExactly(ms: seq<Message>, keep: nat)
    ensures |Pruned(ms, keep)| == |ms|
    ensures ImagesFrom(Pruned(ms, keep), 0) == Min(ImagesFrom(ms, 0), keep)
    ensures forall i :: 0 <= i < |ms| ==>
              var p := Pruned(ms, keep)[i];
              && (p.images != [] <==> ms[i].images != [] && ImagesFrom(ms, i) <= keep)
              && (p.images == ms[i].images ==> p == ms[i])
              && (p.images != ms[i].images ==>
                    && Marked(p.content)
                    && p == ms[i].(images := [], content := p.content)
                    && p.content == if Marked(ms[i].content) then ms[i].content else ms[i].content + " " + IMAGE_MARK)
  {
    PrunedImages(ms, keep, 0);
    forall i | 0 <= i < |ms|
      ensures Pruned(ms, keep)[i].images != ms[i].images ==> Marked(Pruned(ms, keep)[i].content)
    {
      MarkIsFound(ms[i].content);
    }
  }

  /** Pruning twice is pruning to the smaller number, as exact equality. */
  lemma PruneTwice(ms: seq<Message>, j: nat, k: nat)
    ensures Pruned(Pruned(ms, k), j) == Pruned(ms, Min(j, k))
  {
    hide Marked, IMAGE_MARK, ImagesFrom;
    forall i | 0 <= i < |ms| ensures Pruned(Pruned(ms, k), j)[i] == Pruned(ms, Min(j, k))[i] {
      PrunedImages(ms, k, i);
    }
  }

  // ---- Reasoning ----

  lemma LastAssistantIs(ms: seq<Message>, n: nat, i: nat)
    requires i <= n <= |ms| && (i > 0 ==> IsAssistant(ms[i - 1])) && forall k :: i <= k < n ==> !IsAssistant(ms[k])
    ensures LastAssistant(ms, n) == i
    decreases n
  {
  }

  predicate IsNewestAssistant(ms: seq<Message>, i: nat) {
    i < |ms| && IsAssistant(ms[i]) && forall j :: i < j < |ms| ==> !IsAssistant(ms[j])
  }

  /** Attaching changes the newest assistant message alone, and that only if its reasoning is missing, blank or made up. */
  lemma AttachedExactly(ms: seq<Message>, text: string)
    ensures |Attached(ms, text)| == |ms|
    ensures forall i :: 0 <= i < |ms| ==>
              var m := ms[i];
              var needs := m.reasoning.None? || Blank(m.reasoning.value) || m.reasoning.value == "(reasoning omitted)";
              Attached(ms, text)[i]
              == if text != "" && needs && IsNewestAssistant(ms, i) then m.(reasoning := Some(text)) else m
  {
    hide Blank, LastAssistant;
    var i := LastAssistant(ms, |ms|);
    assert OMITTED == "(reasoning omitted)";
    assert i > 0 ==> IsNewestAssistant(ms, i - 1);
  }

  lemma EmptyIsBlank()
    ensures Blank("")
  {
  }

  /** The first real reasoning attached to a message stays. */
  lemma FirstReasoningStays(ms: seq<Message>, a: string, b: string)
    requires !Blank(a) && a != OMITTED
    ensures Attached(Attached(ms, a), b) == Attached(ms, a)
  {
    hide Blank, OMITTED, LastAssistant;
    EmptyIsBlank();
    var i := LastAssistant(ms, |ms|);
    var attached := Attached(ms, a);
    LastAssistantIs(attached, |attached|, i);
  }

  // ---- Histories stay in order ----

  lemma SameShapeLeading(a: seq<Message>, b: seq<Message>)
    requires SameShape(a, b)
    ensures LeadingTools(a) == LeadingTools(b)
  {
    hide SameShape;
    SameShapeLength(a, b);
    var n := LeadingTools(a);
    forall k | 0 <= k < |a| ensures IsTool(a[k]) == IsTool(b[k]) {
      SameShapeAt(a, b, k);
    }
    LeadingToolsUnique(b, n);
  }

  lemma SameShapePartly(a: seq<Message>, b: seq<Message>, ids: seq<string>)
    requires SameShape(a, b)
    ensures PartlyAnswers(a, ids) <==> PartlyAnswers(b, ids)
  {
  }

  lemma {:induction false} SameShapeInOrder(a: seq<Message>, b: seq<Message>)
    requires SameShape(a, b)
    ensures InOrder(a) <==> InOrder(b)
    decreases |a|
  {
    hide SameShape, PartlyAnswers, ToolIds;
    SameShapeLength(a, b);
    if a != [] {
      SameShapeAt(a, b, 0);
      SameShapeParts(a, b, 1);
      SameShapeLeading(a[1..], b[1..]);
      var p := LeadingTools(a[1..]);
      SameShapeParts(a, b, 1 + p);
      SameShapeInOrder(a[1 + p..], b[1 + p..]);
      SameShapeParts(a[..1 + p], b[..1 + p], 1);
      assert a[..1 + p][1..] == a[1..1 + p] && b[..1 + p][1..] == b[1..1 + p];
      SameShapePartly(a[1..1 + p], b[1..1 + p], ToolIds(a[0]));
    }
  }

  lemma SameShapeStored(a: seq<Message>, b: seq<Message>)
    requires SameShape(a, b) && Stored(a) && DistinctIds(a)
    ensures Stored(b) && DistinctIds(b)
  {
    hide SameShape, InOrder, ToolIds, Distinct;
    SameShapeLength(a, b);
    SameShapeLeading(a, b);
    var n := LeadingTools(a);
    SameShapeParts(a, b, n);
    SameShapeInOrder(a[n..], b[n..]);
    forall k | 0 <= k < |b| ensures Distinct(ToolIds(b[k])) {
      SameShapeAt(a, b, k);
    }
  }

  /** The number of tool messages `ms` ends with. */
  function TrailingTools(ms: seq<Message>): (n: nat)
    ensures n <= |ms|
    ensures forall k :: |ms| - n <= k < |ms| ==> IsTool(ms[k])
    ensures n < |ms| ==> !IsTool(ms[|ms| - n - 1])
    decreases |ms|
  {
    if ms == [] || !IsTool(ms[|ms| - 1]) then 0 else 1 + TrailingTools(ms[..|ms| - 1])
  }

  /** The calls of the last turn that have no result yet. */
  function Pending(ms: seq<Message>): seq<string> {
    var n := TrailingTools(ms);
    if n == |ms| then []
    else
      var ids := ToolIds(ms[|ms| - n - 1]);
      if n <= |ids| then ids[n..] else []
  }

  /** An ordered history can be taken apart in front of any message that is not a result. */
  lemma {:induction false} InOrderSplit(a: seq<Message>, b: seq<Message>)
    requires InOrder(a + b) && (b == [] || !IsTool(b[0]))
    ensures InOrder(a) && InOrder(b)
    decreases |a|, 1
  {
    if a == [] {
      assert a + b == b;
    } else {
      hide InOrder, PartlyAnswers, ToolIds;
      TurnOf(a + b);
      LeadingToolsConcat(a[1..], b);
      SlicesOfConcat(a, b, LeadingTools(a[1..]));
      InOrderSplitTurn(a, b, LeadingTools(a[1..]));
    }
  }

  lemma SlicesOfConcat(a: seq<Message>, b: seq<Message>, p: nat)
    requires p < |a|
    ensures (a + b)[1..] == a[1..] + b && (a + b)[1..1 + p] == a[1..1 + p] && (a + b)[1 + p..] == a[1 + p..] + b
  {
  }

  lemma {:induction false} InOrderSplitTurn(a: seq<Message>, b: seq<Message>, p: nat)
    requires p < |a| && !IsTool(a[0]) && PartlyAnswers(a[1..1 + p], ToolIds(a[0])) && InOrder(a[1 + p..] + b)
    requires b == [] || !IsTool(b[0])
    ensures InOrder(a) && InOrder(b)
    decreases |a|, 0
  {
    hide InOrder, PartlyAnswers, ToolIds;
    InOrderSplit(a[1 + p..], b);
    InOrderTurn(a[0], a[1..1 + p], a[1 + p..]);
    SplitTurn(a, p);
  }

  /** Storing the next expected result keeps the history in order. */
  lemma NextResultInOrder(ms: seq<Message>, r: Message)
    requires InOrder(ms) && Pending(ms) != [] && IsTool(r) && r.toolCallId == Some(Pending(ms)[0])
    ensures InOrder(ms + [r])
  {
    hide InOrder, ToolIds, TrailingTools;
    var n := TrailingTools(ms);
    var i := |ms| - n - 1;
    var front, m, answers := ms[..i], ms[i], ms[i + 1..];
    assert ms == front + ([m] + answers);
    InOrderSplit(front, [m] + answers);
    LastTurn(m, answers);
    OneMore(answers, ToolIds(m), r);
    OneTurnInOrder(m, answers + [r]);
    InOrderConcat(front, [m] + (answers + [r]));
    assert ms + [r] == front + ([m] + (answers + [r]));
  }

  lemma {:induction false} LastTurn(m: Message, answers: seq<Message>)
    requires InOrder([m] + answers) && forall k :: 0 <= k < |answers| ==> IsTool(answers[k])
    ensures !IsTool(m) && PartlyAnswers(answers, ToolIds(m))
  {
    hide ToolIds, PartlyAnswers;
    var ms := [m] + answers;
    assert ms[1..] == answers;
    LeadingToolsUnique(answers, |answers|);
    assert ms[1..1 + |answers|] == answers;
  }

  lemma OneMore(answers: seq<Message>, ids: seq<string>, r: Message)
    requires PartlyAnswers(answers, ids) && |answers| < |ids| && IsTool(r) && r.toolCallId == Some(ids[|answers|])
    ensures PartlyAnswers(answers + [r], ids)
  {
  }

  lemma {:induction false} TrailingToolsConcat(a: seq<Message>, b: seq<Message>)
    requires b != [] && !IsTool(b[0])
    ensures TrailingTools(a + b) == TrailingTools(b)
    decreases |b|
  {
    if IsTool(b[|b| - 1]) {
      assert (a + b)[..|a + b| - 1] == a + b[..|b| - 1];
      TrailingToolsConcat(a, b[..|b| - 1]);
    }
  }

  /** Results whose turn is gone leave nothing pending, and do not hide what is. */
  lemma PendingBehindOrphans(ms: seq<Message>)
    requires Pending(ms) != []
    ensures LeadingTools(ms) < |ms| && Pending(ms[LeadingTools(ms)..]) == Pending(ms)
  {
    hide ToolIds, TrailingTools, LeadingTools, IsTool, Pending;
    var t, n := LeadingTools(ms), TrailingTools(ms);
    PendingIs(ms);
    assert n < |ms| && t <= |ms| - n - 1;
    SuffixAt(ms, t, |ms| - n - 1);
    SuffixTrailing(ms, t);
    PendingIs(ms[t..]);
  }

  lemma PendingIs(ms: seq<Message>)
    ensures Pending(ms)
         == (var n := TrailingTools(ms);
             if n == |ms| then []
             else
               var ids := ToolIds(ms[|ms| - n - 1]);
               if n <= |ids| then ids[n..] else [])
  {
    hide ToolIds, TrailingTools, IsTool;
  }

  lemma SuffixTrailing(ms: seq<Message>, t: nat)
    requires t < |ms| && !IsTool(ms[t])
    ensures TrailingTools(ms[t..]) == TrailingTools(ms)
  {
    hide TrailingTools;
    SuffixAt(ms, t, t);
    TrailingToolsConcat(ms[..t], ms[t..]);
  }

  lemma SuffixAt(ms: seq<Message>, t: nat, k: nat)
    requires t <= k < |ms|
    ensures ms[t..][k - t] == ms[k] && ms == ms[..t] + ms[t..]
  {
  }

  /** A message a turn loop may store next: anything but a result, or the next pending result. */
  predicate Follows(ms: seq<Message>, m: Message) {
    if IsTool(m) then Pending(ms) != [] && m.toolCallId == Some(Pending(ms)[0]) else Distinct(ToolIds(m))
  }

  lemma FollowsKeepsStored(ms: seq<Message>, m: Message)
    requires Stored(ms) && Follows(ms, m)
    ensures Stored(ms + [m])
  {
    hide InOrder, ToolIds, Pending;
    if IsTool(m) {
      var t := LeadingTools(ms);
      PendingBehindOrphans(ms);
      NextResultInOrder(ms[t..], m);
      LeadingToolsUnique(ms + [m], t);
      assert (ms + [m])[t..] == ms[t..] + [m];
    } else {
      PlainInOrder(m);
      StoredConcat(ms, [m]);
    }
  }

  lemma PlainInOrder(m: Message)
    requires !IsTool(m)
    ensures InOrder([m])
  {
    OneTurnInOrder(m, []);
    assert [m] + [] == [m];
  }

  // ---- Whole runs ----

  function Run(s: State, limit: nat, ops: seq<Op>): State
    decreases |ops|
  {
    if ops == [] then s else Run(Apply(s, limit, ops[0]), limit, ops[1..])
  }

  /** Every message stored in the run follows what the session holds at that moment. */
  predicate Disciplined(s: State, limit: nat, ops: seq<Op>)
    decreases |ops|
  {
    ops == [] || (
      && (ops[0].Push? ==> Follows(s.messages, ops[0].msg))
      && Disciplined(Apply(s, limit, ops[0]), limit, ops[1..]))
  }

  predicate Healthy(ms: seq<Message>) {
    Stored(ms) && DistinctIds(ms)
  }

  lemma HealthySuffix(ms: seq<Message>, n: nat)
    requires Healthy(ms) && n <= |ms|
    ensures Healthy(ms[n..])
  {
    hide Stored, DistinctIds;
    StoredSuffix(ms, n);
    DistinctSuffix(ms, n);
  }

  lemma HealthyPush(ms: seq<Message>, m: Message)
    requires Healthy(ms) && Follows(ms, m)
    ensures Healthy(ms + [m])
  {
    hide Stored, ToolIds, Pending, Distinct;
    FollowsKeepsStored(ms, m);
    ToolsAskNothing(m);
  }

  lemma ToolsAskNothing(m: Message)
    ensures IsTool(m) ==> Distinct(ToolIds(m))
  {
  }

  lemma HealthyNothing()
    ensures Healthy([])
  {
  }

  lemma HealthySummary(text: string)
    ensures Healthy([Plain("assistant", text)])
  {
    hide Stored;
    var m := Plain("assistant", text);
    PlainInOrder(m);
    InOrderIsStored([m]);
  }

  lemma ApplyStaysHealthy(s: State, limit: nat, op: Op)
    requires Healthy(s.messages) && (op.Push? ==> Follows(s.messages, op.msg))
    ensures Healthy(Apply(s, limit, op).messages)
  {
    hide Healthy, Follows, Truncated, LastAssistant, ImagesFrom, Blank, OMITTED, Marked, IMAGE_MARK;
    match op
    case Push(m, tokens) => HealthyPush(s.messages, m);
    case Compress(reply, count) =>
      if reply.Some? {
        HealthySummary("[summary] " + reply.value);
      } else {
        TruncationIsMinimal(s.messages, s.tokenCount, limit, count);
        HealthySuffix(s.messages, |s.messages| - |Truncated(s.messages, s.tokenCount, limit, count).0|);
      }
    case Prune(keep) =>
      HealthySameShape(s.messages, Pruned(s.messages, keep));
    case Attach(text) =>
      HealthySameShape(s.messages, Attached(s.messages, text));
    case Clear => HealthyNothing();
  }

  lemma HealthySameShape(a: seq<Message>, b: seq<Message>)
    requires Healthy(a) && SameShape(a, b)
    ensures Healthy(b)
  {
    hide Stored, DistinctIds, SameShape;
    SameShapeStored(a, b);
  }

  lemma {:induction false} RunStaysHealthy(s: State, limit: nat, ops: seq<Op>)
    requires Healthy(s.messages) && Disciplined(s, limit, ops)
    ensures Healthy(Run(s, limit, ops).messages)
    decreases |ops|
  {
    hide Healthy, Apply, Follows;
    if ops != [] {
      ApplyStaysHealthy(s, limit, ops[0]);
      RunStaysHealthy(Apply(s, limit, ops[0]), limit, ops[1..]);
    }
  }

  /** The history that is sent: orphans in front gone, missing results made up. */
  function Told(ms: seq<Message>): seq<Message>
    requires Stored(ms)
  {
    Filled(ms[LeadingTools(ms)..])
  }

  /** What is told of a longer history is what was told before and the new part. */
  lemma ToldConcat(a: seq<Message>, b: seq<Message>)
    requires Stored(a) && InOrder(b)
    ensures Stored(a + b) && Told(a + b) == Told(a) + Filled(b)
  {
    hide InOrder, Filled;
    StoredConcat(a, b);
    InOrderStartsPlain(b);
    LeadingToolsConcat(a, b);
    var n := LeadingTools(a);
    assert (a + b)[n..] == a[n..] + b;
    FilledConcat(a[n..], b);
  }

  lemma RepairOfContext(summary: Option<string>, ms: seq<Message>)
    requires Healthy(ms)
    ensures Repair(ContextOf(summary, ms)) == ContextOf(summary, Told(ms))
  {
    hide Repair, Filled, DistinctIds;
    RepairOfStored(ms);
    if summary.Some? {
      RepairOfSingle(SummaryMessage(summary.value), ms);
    } else {
      assert [] + ms == ms;
      assert [] + Told(ms) == Told(ms);
    }
  }

  /**
   * After any disciplined run from an empty session, through any compressions, truncations, prunings and
   * interruptions, the next request is the stored history with only missing results and reasoning filled in.
   */
  lemma NextRequest(limit: nat, ops: seq<Op>)
    requires Disciplined(State([], 0, None), limit, ops)
    ensures var s := Run(State([], 0, None), limit, ops);
            && Healthy(s.messages)
            && Prepared(ContextOf(s.summary, s.messages)) == AddReasoning(ContextOf(s.summary, Told(s.messages)))
            && Acceptable(Prepared(ContextOf(s.summary, s.messages)))
  {
    hide Repair, Told, Run, Disciplined, AddReasoning, Acceptable;
    HealthyNothing();
    RunStaysHealthy(State([], 0, None), limit, ops);
    var s := Run(State([], 0, None), limit, ops);
    RepairOfContext(s.summary, s.messages);
    PreparedIsAcceptable(ContextOf(s.summary, s.messages));
  }
}
