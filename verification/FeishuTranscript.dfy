/**
 * What a Feishu chat leaves behind, told from its script: what each round stores, what each model call is shown, and how
 * the chat ends.
 */
module FeishuTranscript {
  import opened Sequences
  import opened Wrappers
  import opened Messages
  import opened Requests
  import opened Turns
  import opened FeishuHistory
  import opened FeishuTurn

  /** The calls of a reply are carried out in the first ten rounds only. */
  predicate AsksTools(r: Round, n: nat) {
    n < 10 && r.Answered? && r.calls.Some? && r.calls.value != []
  }

  /** The model is called again once every call has its result. */
  predicate Continues(r: Round, n: nat) {
    AsksTools(r, n) && |r.results| >= |r.calls.value|
  }

  predicate AllContinue(rounds: seq<Round>, n: nat, i: nat) {
    i <= |rounds| && forall j :: 0 <= j < i ==> Continues(rounds[j], n + j)
  }

  lemma ContinuesIffGoesOn(r: Round, n: nat)
    ensures Continues(r, n) <==> GoesOn(r, n < MAX_TOOL_ROUNDS)
  {
  }

  // ---- One round ----

  /** The reply as it is stored: a blank one that comes with calls says that work goes on. */
  predicate Says(m: Message, r: Round, n: nat)
    requires r.Answered?
  {
    && m.role == "assistant" && m.images == [] && m.toolCallId == None && m.reasoning == r.reasoning
    && m.toolCalls == (if n < 10 then r.calls else None)
    && (Blank(r.content) && r.calls.Some? ==> m.content == WORKING)
    && (!Blank(r.content) || r.calls.None? ==> m.content == r.content)
  }

  /** Nothing without a reply; else the reply, and the results of its calls in call order, as far as there are any. */
  predicate Stores(ms: seq<Message>, r: Round, n: nat) {
    if r.CallFailed? then ms == []
    else
      && ms != [] && Says(ms[0], r, n)
      && if AsksTools(r, n) then
           && |ms| == 1 + (if |r.results| < |r.calls.value| then |r.results| else |r.calls.value|)
           && forall k :: 0 < k < |ms| ==> ms[k] == ToolResult(r.calls.value[k - 1].id, r.results[k - 1])
         else |ms| == 1
  }

  lemma RoundStores(r: Round, n: nat)
    ensures Stores(RoundMessages(r, n < MAX_TOOL_ROUNDS), r, n)
  {
    hide Blank, WORKING;
  }

  // ---- A chat, round by round ----

  lemma AllContinueTail(rounds: seq<Round>, n: nat, i: nat)
    requires 0 < i && AllContinue(rounds, n, i)
    ensures Continues(rounds[0], n) && AllContinue(rounds[1..], n + 1, i - 1)
    ensures rounds[..i][0] == rounds[0] && rounds[..i][1..] == rounds[1..][..i - 1]
  {
    hide Continues;
    assert forall j :: 0 <= j < i - 1 ==> rounds[1..][j] == rounds[j + 1];
    assert Continues(rounds[0], n + 0);
    forall j | 0 <= j < i - 1 ensures Continues(rounds[1..][j], n + 1 + j) {
      assert Continues(rounds[j + 1], n + (j + 1));
    }
  }

  lemma AllContinueFront(rounds: seq<Round>, n: nat, i: nat)
    requires rounds != [] && Continues(rounds[0], n) && AllContinue(rounds[1..], n + 1, i)
    ensures AllContinue(rounds, n, i + 1)
  {
    hide Continues;
    forall j | 0 <= j < i + 1 ensures Continues(rounds[j], n + j) {
      if j > 0 {
        assert Continues(rounds[1..][j - 1], n + 1 + (j - 1));
      }
    }
  }

  /** What a chat stores are the messages of its rounds, up to the first that does not go on. */
  lemma {:induction false} ChatStores(rounds: seq<Round>, n: nat, i: nat)
    requires i < |rounds| && AllContinue(rounds, n, i)
    ensures var done := Transcript(rounds[..i], n) + RoundMessages(rounds[i], n + i < MAX_TOOL_ROUNDS);
            && done <= Transcript(rounds, n)
            && (i + 1 == |rounds| || !Continues(rounds[i], n + i) ==> done == Transcript(rounds, n))
            && Stores(RoundMessages(rounds[i], n + i < MAX_TOOL_ROUNDS), rounds[i], n + i)
    decreases i
  {
    hide RoundMessages, GoesOn, Continues, Stores;
    ContinuesIffGoesOn(rounds[0], n);
    var first := RoundMessages(rounds[0], n < MAX_TOOL_ROUNDS);
    if i == 0 {
      RoundStores(rounds[0], n);
      assert rounds[..0] == [] && [] + first == first && first + [] == first;
      assert |rounds| == 1 ==> rounds[1..] == [];
    } else {
      AllContinueTail(rounds, n, i);
      ChatStores(rounds[1..], n + 1, i - 1);
      Regroup(first, Transcript(rounds[1..][..i - 1], n + 1), RoundMessages(rounds[i], n + i < MAX_TOOL_ROUNDS));
    }
  }

  /** There is an `i`-th model call if and only if all rounds before go on; it is shown the opening and all they stored. */
  lemma {:induction false} CallShows(messages: seq<Message>, rounds: seq<Round>, n: nat, i: nat)
    requires i < |rounds|
    ensures var requests := RequestsOf(messages, rounds, n);
            && (i < |requests| <==> AllContinue(rounds, n, i))
            && (AllContinue(rounds, n, i) ==>
                  requests[i] == Request(messages + Transcript(rounds[..i], n), n + i < MAX_TOOL_ROUNDS))
    decreases i
  {
    hide RoundMessages, GoesOn, Continues, Transcript;
    ContinuesIffGoesOn(rounds[0], n);
    var first := RoundMessages(rounds[0], n < MAX_TOOL_ROUNDS);
    if i == 0 {
      NothingStored(rounds, n);
      assert messages + [] == messages;
    } else {
      if Continues(rounds[0], n) {
        CallShows(messages + first, rounds[1..], n + 1, i - 1);
        if AllContinue(rounds[1..], n + 1, i - 1) {
          AllContinueFront(rounds, n, i - 1);
        }
      }
      if AllContinue(rounds, n, i) {
        AllContinueTail(rounds, n, i);
        FirstStored(rounds, n, i);
        Regroup(messages, first, Transcript(rounds[1..][..i - 1], n + 1));
      }
    }
  }

  lemma NothingStored(rounds: seq<Round>, n: nat)
    ensures rounds[..0] == [] && Transcript(rounds[..0], n) == []
  {
  }

  lemma FirstStored(rounds: seq<Round>, n: nat, i: nat)
    requires 0 < i && AllContinue(rounds, n, i)
    ensures Transcript(rounds[..i], n)
         == RoundMessages(rounds[0], n < MAX_TOOL_ROUNDS) + Transcript(rounds[1..][..i - 1], n + 1)
  {
    hide RoundMessages, GoesOn, Continues;
    AllContinueTail(rounds, n, i);
    ContinuesIffGoesOn(rounds[0], n);
  }

  // ---- How a chat ends ----

  /** All rounds before it go on, and it does not. */
  predicate StopsIn(rounds: seq<Round>, n: nat, i: nat) {
    i < |rounds| && AllContinue(rounds, n, i) && !Continues(rounds[i], n + i)
  }

  lemma {:induction false} StopIsOf(rounds: seq<Round>, n: nat, i: nat)
    requires StopsIn(rounds, n, i)
    ensures StopOf(rounds, n) == RoundStop(rounds[i], n + i < MAX_TOOL_ROUNDS)
    decreases i
  {
    hide GoesOn, RoundStop, Continues;
    ContinuesIffGoesOn(rounds[0], n);
    if i > 0 {
      AllContinueTail(rounds, n, i);
      StopIsOf(rounds[1..], n + 1, i - 1);
    }
  }

  lemma {:induction false} StopSomewhere(rounds: seq<Round>, n: nat) returns (i: nat)
    ensures if i == |rounds| then StopOf(rounds, n) == Waiting else StopsIn(rounds, n, i)
    ensures AllContinue(rounds, n, i)
    decreases |rounds|
  {
    hide GoesOn, RoundStop, Continues;
    i := 0;
    if rounds != [] {
      ContinuesIffGoesOn(rounds[0], n);
      if Continues(rounds[0], n) {
        i := StopSomewhere(rounds[1..], n + 1);
        AllContinueFront(rounds, n, i);
        i := i + 1;
      }
    }
  }

  /** The round ends the chat with this text: it calls no tools, or there are no rounds left for them. */
  predicate Concludes(r: Round, n: nat, text: string) {
    r.Answered? && !AsksTools(r, n) && r.content == text
  }

  lemma RoundStopIs(r: Round, n: nat)
    ensures forall text :: RoundStop(r, n < MAX_TOOL_ROUNDS) == Replied(text) <==> Concludes(r, n, text)
    ensures RoundStop(r, n < MAX_TOOL_ROUNDS) == ModelFailed <==> r.CallFailed?
  {
  }

  /** Every chat: it ends with a reply, or with a failed call, if and only if the round it stops in says so. */
  lemma StopIs(rounds: seq<Round>, n: nat, text: string)
    ensures StopOf(rounds, n) == Replied(text)
            <==> exists i: nat :: StopsIn(rounds, n, i) && Concludes(rounds[i], n + i, text)
    ensures StopOf(rounds, n) == ModelFailed <==> exists i: nat :: StopsIn(rounds, n, i) && rounds[i].CallFailed?
  {
    hide Continues, GoesOn, RoundStop, StopOf, Concludes, AllContinue;
    forall i: nat | StopsIn(rounds, n, i)
      ensures StopOf(rounds, n) == Replied(text) <==> Concludes(rounds[i], n + i, text)
      ensures StopOf(rounds, n) == ModelFailed <==> rounds[i].CallFailed?
    {
      StopIsOf(rounds, n, i);
      RoundStopIs(rounds[i], n + i);
    }
    var i := StopSomewhere(rounds, n);
  }

  // ---- What a chat starts with ----

  /** No system message but the summaries of the conversation. */
  predicate IsShown(m: Message) {
    m.role == "system" ==> "[conversation summary]" <= m.content
  }

  lemma {:induction false} RetainedIff(ms: seq<Message>, keep: Message -> bool)
    ensures forall m :: m in Retain(ms, keep) <==> m in ms && keep(m)
    decreases |ms|
  {
    if ms != [] {
      RetainedIff(ms[1..], keep);
      assert ms == [ms[0]] + ms[1..];
    }
  }

  lemma {:induction false} RetainedTwice(ms: seq<Message>, first: Message -> bool, second: Message -> bool)
    requires forall m :: second(m) ==> first(m)
    ensures Retain(Retain(ms, first), second) == Retain(ms, second)
    decreases |ms|
  {
    if ms != [] {
      RetainedTwice(ms[1..], first, second);
      RetainConcat(if first(ms[0]) then [ms[0]] else [], Retain(ms[1..], first), second);
      assert [ms[0]][1..] == [];
    }
  }

  /**
   * The opening: the system message, what is remembered about the user, if anything, and of the cleaned-up history exactly
   * the messages that are no system messages and the summaries, in order.
   */
  lemma OpeningSays(system: Message, memory: string, context: seq<Message>)
    ensures var opening := Opening(system, memory, context);
            var n := if memory == "" then 1 else 2;
            && |opening| >= n && opening[0] == system && (memory != "" ==> opening[1] == Plain("system", memory))
            && (forall m :: m in opening[n..] <==> m in Sanitized(context) && IsShown(m))
            && Retain(opening[n..], NotSystem) == Retain(Sanitized(context), NotSystem)
  {
    hide Sanitized, Retain;
    var kept := Retain(Sanitized(context), KeptInChat);
    var n := if memory == "" then 1 else 2;
    assert Opening(system, memory, context)[n..] == kept;
    RetainedIff(Sanitized(context), KeptInChat);
    RetainedTwice(Sanitized(context), KeptInChat, NotSystem);
  }
}
