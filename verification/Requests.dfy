/**
 * From a stored history to the messages of a request: repair, reasoning placeholders, a fresh system message.
 */
module Requests {
  import opened Sequences
  import opened Wrappers
  import opened Messages
  import opened ToolSequence
  import opened RepairLaws
  import Text

  const OMITTED := "(reasoning omitted)"

  /** `trim().is_empty()`. */
  predicate Blank(s: string) {
    forall k :: 0 <= k < |s| ==> Text.IsWhitespace(s[k])
  }

  /** An assistant message with calls whose reasoning is missing or blank gets the placeholder. */
  function WithReasoning(m: Message): Message {
    if ToolIds(m) != [] && (m.reasoning.None? || Blank(m.reasoning.value)) then m.(reasoning := Some(OMITTED)) else m
  }

  function AddReasoning(ms: seq<Message>): (r: seq<Message>)
    ensures |r| == |ms| && forall k :: 0 <= k < |ms| ==> r[k] == WithReasoning(ms[k])
  {
    seq(|ms|, k requires 0 <= k < |ms| => WithReasoning(ms[k]))
  }

  function Prepared(context: seq<Message>): seq<Message> {
    AddReasoning(Repair(context))
  }

  /** Every message with calls has reasoning that is not blank. */
  predicate Reasoned(ms: seq<Message>) {
    forall k :: 0 <= k < |ms| && ToolIds(ms[k]) != [] ==> ms[k].reasoning.Some? && !Blank(ms[k].reasoning.value)
  }

  /** What the API accepts in thinking mode. */
  predicate Acceptable(ms: seq<Message>) {
    WireValid(ms) && Reasoned(ms)
  }

  /** Two lists that differ in nothing the order of calls and results depends on. */
  predicate SameShape(a: seq<Message>, b: seq<Message>) {
    |a| == |b| && forall k :: 0 <= k < |a| ==> SameKind(a[k], b[k])
  }

  predicate SameKind(a: Message, b: Message) {
    a.role == b.role && a.toolCalls == b.toolCalls && a.toolCallId == b.toolCallId
  }

  lemma SameKindAsksTheSame(a: Message, b: Message)
    requires SameKind(a, b)
    ensures ToolIds(a) == ToolIds(b) && IsTool(a) == IsTool(b) && IsAssistant(a) == IsAssistant(b)
  {
  }

  lemma SameShapeParts(a: seq<Message>, b: seq<Message>, n: nat)
    requires SameShape(a, b) && n <= |a|
    ensures SameShape(a[n..], b[n..]) && SameShape(a[..n], b[..n])
  {
    hide SameKind;
  }

  lemma SameShapeAnswers(a: seq<Message>, b: seq<Message>, ids: seq<string>)
    requires SameShape(a, b)
    ensures Answers(a, ids) <==> Answers(b, ids)
  {
  }

  lemma {:induction false} SameShapeValid(a: seq<Message>, b: seq<Message>)
    requires SameShape(a, b)
    ensures WireValid(a) <==> WireValid(b)
    decreases |a|
  {
    hide SameShape, Answers, ToolIds;
    SameShapeLength(a, b);
    if a != [] {
      SameShapeAt(a, b, 0);
      SameShapeParts(a, b, 1);
      SameShapeAnswers(a[1..], b[1..], ToolIds(a[0]));
      if Answers(a[1..], ToolIds(a[0])) {
        AnswersFit(a[1..], ToolIds(a[0]));
        SameShapeParts(a, b, 1 + |ToolIds(a[0])|);
        SameShapeValid(a[1 + |ToolIds(a[0])|..], b[1 + |ToolIds(a[0])|..]);
      }
    }
  }

  lemma SameShapeLength(a: seq<Message>, b: seq<Message>)
    requires SameShape(a, b)
    ensures |a| == |b|
  {
  }

  lemma SameShapeAt(a: seq<Message>, b: seq<Message>, k: nat)
    requires SameShape(a, b) && k < |a|
    ensures k < |b| && ToolIds(a[k]) == ToolIds(b[k]) && IsTool(a[k]) == IsTool(b[k])
    ensures IsAssistant(a[k]) == IsAssistant(b[k])
  {
    SameKindAsksTheSame(a[k], b[k]);
  }

  lemma ReasoningKeepsShape(ms: seq<Message>)
    ensures SameShape(AddReasoning(ms), ms)
  {
  }

  lemma PlaceholderIsNotBlank()
    ensures !Blank(OMITTED)
  {
    assert OMITTED[0] == '(' && !Text.IsWhitespace('(');
  }

  /** Whatever is stored, what is sent is acceptable. */
  lemma PreparedIsAcceptable(context: seq<Message>)
    ensures Acceptable(Prepared(context))
  {
    hide WireValid, Repair, SameShape, ToolIds, OMITTED, Blank;
    var repaired := Repair(context);
    RepairIsWireValid(context);
    ReasoningKeepsShape(repaired);
    SameShapeValid(AddReasoning(repaired), repaired);
    forall k | 0 <= k < |repaired| && ToolIds(AddReasoning(repaired)[k]) != []
      ensures AddReasoning(repaired)[k].reasoning.Some? && !Blank(AddReasoning(repaired)[k].reasoning.value)
    {
      PlaceholderIsNotBlank();
      SameKindAsksTheSame(AddReasoning(repaired)[k], repaired[k]);
    }
  }

  /** Everything said is sent in order; a message differs only if it has calls and no reasoning, and then in that alone. */
  lemma PreparedSaysTheSame(context: seq<Message>)
    ensures NonTools(Prepared(context)) == AddReasoning(NonTools(context))
    ensures var sent, said := NonTools(Prepared(context)), NonTools(context);
            && |sent| == |said|
            && forall k :: 0 <= k < |said| ==>
                 sent[k] == if ToolIds(said[k]) == [] || (said[k].reasoning.Some? && !Blank(said[k].reasoning.value))
                            then said[k] else said[k].(reasoning := Some("(reasoning omitted)"))
  {
    assert OMITTED == "(reasoning omitted)";
    hide Repair, NonTools, AddReasoning;
    RepairKeepsNonTools(context);
    NonToolsOfReasoned(Repair(context));
  }

  lemma {:induction false} NonToolsOfReasoned(ms: seq<Message>)
    ensures NonTools(AddReasoning(ms)) == AddReasoning(NonTools(ms))
    decreases |ms|
  {
    hide ToolIds, Blank, OMITTED;
    if ms != [] {
      assert AddReasoning(ms)[1..] == AddReasoning(ms[1..]);
      NonToolsOfReasoned(ms[1..]);
      assert AddReasoning(ms)[0] == WithReasoning(ms[0]);
    }
  }

  // ---- Dropping system messages ----

  function Retain(ms: seq<Message>, keep: Message -> bool): seq<Message>
    decreases |ms|
  {
    if ms == [] then [] else (if keep(ms[0]) then [ms[0]] else []) + Retain(ms[1..], keep)
  }

  /** Only system messages are dropped. */
  ghost predicate DropsOnlySystem(keep: Message -> bool) {
    forall m: Message :: !keep(m) ==> m.role == "system"
  }

  lemma {:induction false} RetainConcat(a: seq<Message>, b: seq<Message>, keep: Message -> bool)
    ensures Retain(a + b, keep) == Retain(a, keep) + Retain(b, keep)
    decreases |a|
  {
    if a == [] {
      assert a + b == b;
    } else {
      assert (a + b)[0] == a[0] && (a + b)[1..] == a[1..] + b;
      RetainConcat(a[1..], b, keep);
      Regroup(if keep(a[0]) then [a[0]] else [], Retain(a[1..], keep), Retain(b, keep));
    }
  }

  lemma {:induction false} RetainAll(ms: seq<Message>, keep: Message -> bool)
    requires forall k :: 0 <= k < |ms| ==> keep(ms[k])
    ensures Retain(ms, keep) == ms
    decreases |ms|
  {
    if ms != [] {
      RetainAll(ms[1..], keep);
    }
  }

  lemma {:induction false} RetainIsPart(ms: seq<Message>, keep: Message -> bool)
    ensures forall k :: 0 <= k < |Retain(ms, keep)| ==> Retain(ms, keep)[k] in ms && keep(Retain(ms, keep)[k])
    decreases |ms|
  {
    if ms != [] {
      RetainIsPart(ms[1..], keep);
    }
  }

  lemma ToolsAreRetained(ms: seq<Message>, ids: seq<string>, keep: Message -> bool)
    requires Answers(ms, ids) && |ms| == |ids| && DropsOnlySystem(keep)
    ensures Retain(ms, keep) == ms
  {
    RetainAll(ms, keep);
  }

  lemma SystemAsksNothing(m: Message)
    ensures m.role == "system" ==> ToolIds(m) == [] && !IsTool(m)
  {
  }

  /** No system message stands between a message and its results. */
  lemma {:induction false} RetainKeepsValid(ms: seq<Message>, keep: Message -> bool)
    requires WireValid(ms) && DropsOnlySystem(keep)
    ensures WireValid(Retain(ms, keep))
    decreases |ms|
  {
    if ms != [] {
      hide ToolIds, Answers, DropsOnlySystem;
      var ids := ToolIds(ms[0]);
      AnswersFit(ms[1..], ids);
      var answers, rest := ms[1..1 + |ids|], ms[1 + |ids|..];
      RetainKeepsValid(rest, keep);
      RetainTurn(ms, answers, rest, keep);
    }
  }

  lemma {:induction false} RetainTurn(ms: seq<Message>, answers: seq<Message>, rest: seq<Message>,
                                      keep: Message -> bool)
    requires ms != [] && ms == [ms[0]] + answers + rest && |answers| == |ToolIds(ms[0])|
    requires !IsTool(ms[0]) && Answers(ms[1..], ToolIds(ms[0])) && DropsOnlySystem(keep)
    requires WireValid(Retain(rest, keep))
    ensures WireValid(Retain(ms, keep))
  {
    hide WireValid, ToolIds, Answers;
    assert ms[1..] == answers + rest;
    AnswersPrefix(answers, rest, ToolIds(ms[0]));
    ToolsAreRetained(answers, ToolIds(ms[0]), keep);
    RetainConcat(answers, rest, keep);
    WireValidTurn(ms[0], answers, Retain(rest, keep));
    Regroup([ms[0]], answers, Retain(rest, keep));
    if !keep(ms[0]) {
      SystemAsksNothing(ms[0]);
      assert [] + ([] + Retain(rest, keep)) == Retain(rest, keep);
    }
  }

  predicate NotSystem(m: Message) {
    m.role != "system"
  }

  /** `build_messages`: the prepared history without its system messages, behind a fresh one. */
  function BuildMessages(context: seq<Message>, system: Message): seq<Message> {
    [system] + Retain(Prepared(context), NotSystem)
  }

  /** Every request of the ACP and TUI loops is acceptable, whatever the session holds. */
  lemma RequestIsAcceptable(context: seq<Message>, system: Message)
    requires system.role == "system"
    ensures Acceptable(BuildMessages(context, system))
    ensures var request := BuildMessages(context, system);
            request[0] == system && forall k :: 0 < k < |request| ==> request[k].role != "system"
  {
    hide WireValid, Prepared, ToolIds, Blank, Retain;
    PreparedIsAcceptable(context);
    RetainKeepsValid(Prepared(context), NotSystem);
    RetainIsPart(Prepared(context), NotSystem);
    SystemAsksNothing(system);
    PlainInFront(system, Retain(Prepared(context), NotSystem));
    ReasonedInFront(system, Retain(Prepared(context), NotSystem), Prepared(context));
  }

  lemma {:induction false} NonToolsRetained(ms: seq<Message>)
    ensures NonTools(Retain(ms, NotSystem)) == Retain(NonTools(ms), NotSystem)
    decreases |ms|
  {
    if ms != [] {
      NonToolsRetained(ms[1..]);
      var kept := if NotSystem(ms[0]) then [ms[0]] else [];
      NonToolsConcat(kept, Retain(ms[1..], NotSystem));
      NonToolsOne(ms[0]);
      NonToolsNone();
      RetainConcat(NonTools([ms[0]]), NonTools(ms[1..]), NotSystem);
      NonToolsConcat([ms[0]], ms[1..]);
      assert [ms[0]] + ms[1..] == ms;
    }
  }

  /** Everything said but system messages is in the request, in order, behind the fresh system message. */
  lemma RequestSaysTheSame(context: seq<Message>, system: Message)
    requires system.role == "system"
    ensures NonTools(BuildMessages(context, system)) == [system] + Retain(AddReasoning(NonTools(context)), NotSystem)
  {
    hide Prepared, NonTools, Retain, AddReasoning;
    var kept := Retain(Prepared(context), NotSystem);
    NonToolsConcat([system], kept);
    NonToolsOne(system);
    NonToolsRetained(Prepared(context));
    PreparedSaysTheSame(context);
  }

  lemma NonToolsNone()
    ensures NonTools([]) == []
  {
  }

  lemma ReasonedInFront(m: Message, part: seq<Message>, whole: seq<Message>)
    requires Reasoned(whole) && ToolIds(m) == [] && forall k :: 0 <= k < |part| ==> part[k] in whole
    ensures Reasoned([m] + part)
  {
    hide ToolIds, Blank;
    var r := [m] + part;
    forall k | 0 <= k < |r| && ToolIds(r[k]) != []
      ensures r[k].reasoning.Some? && !Blank(r[k].reasoning.value)
    {
      assert r[k] == part[k - 1];
    }
  }
}
