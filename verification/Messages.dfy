/**
 * Chat messages and what the model API accepts as a conversation.
 */
module Messages {
  import opened Wrappers

  /** A recovered or native tool call; its JSON arguments are kept as text. */
  datatype ToolCall = ToolCall(id: string, name: string, arguments: string)

  datatype Image = Image(mime: string, data: string, width: nat, height: nat)

  datatype Message = Message(
    role: string, content: string, images: seq<Image>,
    toolCalls: Option<seq<ToolCall>>, toolCallId: Option<string>, reasoning: Option<string>)

  const MISSING := "(tool result missing: the turn was interrupted)"

  /** A plain text message of the given role. */
  function Plain(role: string, content: string): Message {
    Message(role, content, [], None, None, None)
  }

  function ToolResult(id: string, content: string): Message {
    Message("tool", content, [], None, Some(id), None)
  }

  /** The result the repair makes up for a call that never got one. */
  function Synthetic(id: string): Message {
    ToolResult(id, MISSING)
  }

  predicate IsTool(m: Message) {
    m.role == "tool"
  }

  predicate IsAssistant(m: Message) {
    m.role == "assistant"
  }

  function Ids(calls: seq<ToolCall>): (ids: seq<string>)
    ensures |ids| == |calls|
    ensures forall k :: 0 <= k < |calls| ==> ids[k] == calls[k].id
  {
    seq(|calls|, k requires 0 <= k < |calls| => calls[k].id)
  }

  /** The call ids a message asks results for: none unless it is an assistant message with calls. */
  function ToolIds(m: Message): seq<string> {
    if IsAssistant(m) && m.toolCalls.Some? then Ids(m.toolCalls.value) else []
  }

  predicate Distinct(ids: seq<string>) {
    forall i, j :: 0 <= i < j < |ids| ==> ids[i] != ids[j]
  }

  /** The ids of every assistant message are pairwise distinct. */
  predicate DistinctIds(ms: seq<Message>) {
    forall k :: 0 <= k < |ms| ==> Distinct(ToolIds(ms[k]))
  }

  function NonTools(ms: seq<Message>): seq<Message>
    decreases |ms|
  {
    if ms == [] then [] else (if IsTool(ms[0]) then [] else [ms[0]]) + NonTools(ms[1..])
  }

  /** `ms` starts with one tool message per id, in that order. */
  predicate Answers(ms: seq<Message>, ids: seq<string>) {
    |ids| <= |ms| && forall k :: 0 <= k < |ids| ==> IsTool(ms[k]) && ms[k].toolCallId == Some(ids[k])
  }

  /**
   * What the API accepts: every assistant message with calls is followed at once by exactly its results in call
   * order, and there is no other tool message.
   */
  predicate WireValid(ms: seq<Message>)
    decreases |ms|
  {
    ms == [] || (
      && !IsTool(ms[0])
      && Answers(ms[1..], ToolIds(ms[0]))
      && WireValid(ms[1 + |ToolIds(ms[0])|..]))
  }

  /** The same, message by message: each turn is answered, and each tool message belongs to a turn. */
  predicate Answered(ms: seq<Message>) {
    && (forall i :: 0 <= i < |ms| ==> Answers(ms[i + 1..], ToolIds(ms[i])))
    && (forall j :: 0 <= j < |ms| && IsTool(ms[j]) ==> BelongsToTurn(ms, j))
  }

  predicate BelongsToTurn(ms: seq<Message>, j: nat) {
    exists i :: 0 <= i < j && j < |ms| && j <= i + |ToolIds(ms[i])|
  }

  /** The number of tool messages `ms` starts with. */
  function LeadingTools(ms: seq<Message>): (n: nat)
    ensures n <= |ms|
    ensures forall k :: 0 <= k < n ==> IsTool(ms[k])
    ensures n < |ms| ==> !IsTool(ms[n])
    decreases |ms|
  {
    if ms == [] || !IsTool(ms[0]) then 0 else 1 + LeadingTools(ms[1..])
  }

  lemma {:induction false} NonToolsConcat(a: seq<Message>, b: seq<Message>)
    ensures NonTools(a + b) == NonTools(a) + NonTools(b)
    decreases |a|
  {
    if a == [] {
      assert a + b == b;
    } else {
      assert (a + b)[1..] == a[1..] + b;
      NonToolsConcat(a[1..], b);
    }
  }

  lemma {:induction false} AllToolsNoNonTools(ms: seq<Message>)
    requires forall k :: 0 <= k < |ms| ==> IsTool(ms[k])
    ensures NonTools(ms) == []
    decreases |ms|
  {
    if ms != [] {
      AllToolsNoNonTools(ms[1..]);
    }
  }

  lemma {:induction false} NoToolsIdentity(ms: seq<Message>)
    requires forall k :: 0 <= k < |ms| ==> !IsTool(ms[k])
    ensures NonTools(ms) == ms
    decreases |ms|
  {
    if ms != [] {
      NoToolsIdentity(ms[1..]);
    }
  }

  lemma {:induction false} NonToolsHasNoTools(ms: seq<Message>)
    ensures forall k :: 0 <= k < |NonTools(ms)| ==> !IsTool(NonTools(ms)[k]) && NonTools(ms)[k] in ms
    decreases |ms|
  {
    if ms != [] {
      NonToolsHasNoTools(ms[1..]);
    }
  }

  lemma AnswersPrefix(a: seq<Message>, b: seq<Message>, ids: seq<string>)
    requires |ids| <= |a|
    ensures Answers(a + b, ids) <==> Answers(a, ids)
  {
    assert forall k :: 0 <= k < |ids| ==> (a + b)[k] == a[k];
  }

  /** One turn in front of a valid list gives a valid list. */
  lemma WireValidTurn(m: Message, answers: seq<Message>, rest: seq<Message>)
    requires !IsTool(m) && |answers| == |ToolIds(m)| && Answers(answers, ToolIds(m)) && WireValid(rest)
    ensures WireValid([m] + answers + rest)
  {
    hide ToolIds, Answers;
    var ms := [m] + answers + rest;
    AnswersPrefix(answers, rest, ToolIds(m));
    assert ms[1..] == answers + rest;
    assert ms[1 + |answers|..] == rest;
  }

  lemma {:induction false} WireValidConcat(a: seq<Message>, b: seq<Message>)
    requires WireValid(a) && WireValid(b)
    ensures WireValid(a + b)
    decreases |a|
  {
    hide ToolIds, Answers;
    if a == [] {
      assert a + b == b;
    } else {
      AnswersFit(a[1..], ToolIds(a[0]));
      var n := 1 + |ToolIds(a[0])|;
      WireValidConcat(a[n..], b);
      AnswersPrefix(a[1..], b, ToolIds(a[0]));
      assert (a + b)[1..] == a[1..] + b;
      assert (a + b)[n..] == a[n..] + b;
    }
  }

  lemma AnswersFit(ms: seq<Message>, ids: seq<string>)
    requires Answers(ms, ids)
    ensures |ids| <= |ms|
  {
  }

  /** A list of messages that ask for nothing and answer nothing. */
  lemma {:induction false} WireValidPlain(ms: seq<Message>)
    requires forall k :: 0 <= k < |ms| ==> !IsTool(ms[k]) && ToolIds(ms[k]) == []
    ensures WireValid(ms)
    decreases |ms|
  {
    if ms != [] {
      WireValidPlain(ms[1..]);
    }
  }

  /** The recursive and the message-by-message reading of validity are the same. */
  lemma WireValidMeans(ms: seq<Message>)
    ensures WireValid(ms) <==> Answered(ms)
    decreases |ms|
  {
    if ms == [] {
    } else if WireValid(ms) {
      WireValidForward(ms);
    } else if Answered(ms) {
      WireValidBackward(ms);
    }
  }

  lemma {:induction false} WireValidForward(ms: seq<Message>)
    requires WireValid(ms)
    ensures Answered(ms)
    decreases |ms|
  {
    hide Answers, ToolIds;
    if ms != [] {
      AnswersAreTools(ms, ToolIds(ms[0]));
      var n := 1 + |ToolIds(ms[0])|;
      WireValidForward(ms[n..]);
      forall i | 0 <= i < |ms| ensures Answers(ms[i + 1..], ToolIds(ms[i])) {
        AnswersFromRest(ms, n, i);
      }
      forall j | 0 <= j < |ms| && IsTool(ms[j]) ensures BelongsToTurn(ms, j) {
        BelongsFromRest(ms, n, j);
      }
    }
  }

  lemma AnswersFromRest(ms: seq<Message>, n: nat, i: nat)
    requires 0 < n <= |ms| && i < |ms| && Answers(ms[1..], ToolIds(ms[0])) && Answered(ms[n..])
    requires forall k :: 0 < k < n ==> ToolIds(ms[k]) == []
    ensures Answers(ms[i + 1..], ToolIds(ms[i]))
  {
    hide ToolIds;
    if i >= n {
      hide Answers;
      assert ms[n..][i - n] == ms[i] && ms[n..][(i - n) + 1..] == ms[i + 1..];
    }
  }

  lemma BelongsFromRest(ms: seq<Message>, n: nat, j: nat)
    requires ms != [] && n == 1 + |ToolIds(ms[0])| <= |ms| && !IsTool(ms[0]) && Answered(ms[n..])
    requires j < |ms| && IsTool(ms[j])
    ensures BelongsToTurn(ms, j)
  {
    hide ToolIds, Answers;
    if j >= n {
      assert ms[n..][j - n] == ms[j];
      assert BelongsToTurn(ms[n..], j - n);
      var i :| 0 <= i < j - n && j - n <= i + |ToolIds(ms[n..][i])|;
      assert ms[n..][i] == ms[i + n];
    }
  }

  lemma {:induction false} WireValidBackward(ms: seq<Message>)
    requires Answered(ms)
    ensures WireValid(ms)
    decreases |ms|
  {
    hide ToolIds;
    if ms != [] {
      FirstIsNoTool(ms);
      AnsweredRest(ms);
      WireValidBackward(ms[1 + |ToolIds(ms[0])|..]);
    }
  }

  lemma FirstIsNoTool(ms: seq<Message>)
    requires Answered(ms) && ms != []
    ensures !IsTool(ms[0]) && Answers(ms[1..], ToolIds(ms[0]))
  {
    assert Answers(ms[0 + 1..], ToolIds(ms[0]));
    assert IsTool(ms[0]) ==> BelongsToTurn(ms, 0);
  }

  lemma AnsweredRest(ms: seq<Message>)
    requires Answered(ms) && ms != [] && 1 + |ToolIds(ms[0])| <= |ms|
    ensures Answered(ms[1 + |ToolIds(ms[0])|..])
  {
    var n := 1 + |ToolIds(ms[0])|;
    forall i | 0 <= i < |ms[n..]| ensures Answers(ms[n..][i + 1..], ToolIds(ms[n..][i])) {
      AnswersInRest(ms, n, i);
    }
    forall j | 0 <= j < |ms[n..]| && IsTool(ms[n..][j]) ensures BelongsToTurn(ms[n..], j) {
      TurnOwnsItsTools(ms, n, j + n);
      BelongsInRest(ms, n, j);
    }
  }

  lemma AnswersInRest(ms: seq<Message>, n: nat, i: nat)
    requires Answered(ms) && n <= |ms| && i < |ms[n..]|
    ensures Answers(ms[n..][i + 1..], ToolIds(ms[n..][i]))
  {
    hide ToolIds, Answers;
    assert ms[n..][i] == ms[i + n] && ms[n..][i + 1..] == ms[(i + n) + 1..];
  }

  lemma BelongsInRest(ms: seq<Message>, n: nat, j: nat)
    requires n <= |ms| && j < |ms[n..]|
    requires exists i :: n <= i < j + n && j + n <= i + |ToolIds(ms[i])|
    ensures BelongsToTurn(ms[n..], j)
  {
    hide ToolIds;
    var i :| n <= i < j + n && j + n <= i + |ToolIds(ms[i])|;
    assert ms[n..][i - n] == ms[i];
  }

  lemma AnswersAreTools(ms: seq<Message>, ids: seq<string>)
    requires ms != [] && Answers(ms[1..], ids)
    ensures |ids| < |ms|
    ensures forall i :: 0 < i <= |ids| ==> IsTool(ms[i]) && ToolIds(ms[i]) == []
  {
    forall i | 0 < i <= |ids| ensures IsTool(ms[i]) {
      assert ms[i] == ms[1..][i - 1];
    }
  }

  /** A tool message behind the first turn belongs to a later turn. */
  lemma TurnOwnsItsTools(ms: seq<Message>, n: nat, j: nat)
    requires Answered(ms) && ms != [] && n == 1 + |ToolIds(ms[0])| <= j < |ms| && IsTool(ms[j])
    ensures exists i :: n <= i < j && j <= i + |ToolIds(ms[i])|
  {
    FirstIsNoTool(ms);
    AnswersAreTools(ms, ToolIds(ms[0]));
    OwnerOf(ms, n, j);
  }

  lemma OwnerOf(ms: seq<Message>, n: nat, j: nat)
    requires Answered(ms) && ms != [] && n == 1 + |ToolIds(ms[0])| <= j < |ms| && IsTool(ms[j])
    requires forall i :: 0 < i < n ==> ToolIds(ms[i]) == []
    ensures exists i :: n <= i < j && j <= i + |ToolIds(ms[i])|
  {
    hide ToolIds, Answers;
    assert BelongsToTurn(ms, j);
  }
}
