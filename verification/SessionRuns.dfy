/**
 * What a session holds after any run of its operations, told from the operations alone: which messages, what may have
 * changed in them, the summary, and the token count.
 */
module SessionRuns {
  import opened Wrappers
  import opened Messages
  import opened ToolSequence
  import opened Interrupted
  import opened Requests
  import opened Sessions
  import opened SessionLaws

  const EMPTY := State([], 0, None)

  // ---- What was said ----

  /** What was stored since the session was last cleared, or compressed while it held something. */
  function Said(ops: seq<Op>): seq<Message>
    decreases |ops|
  {
    if ops == [] then []
    else
      var before := Said(ops[..|ops| - 1]);
      match ops[|ops| - 1]
      case Push(m, _) => before + [m]
      case Compress(Some(text), _) => if before == [] then [] else [Plain("assistant", "[summary] " + text)]
      case Clear => []
      case _ => before
  }

  /** The text of the last compression since the session was last cleared. */
  function SummaryOf(ops: seq<Op>): Option<string>
    decreases |ops|
  {
    if ops == [] then None
    else
      var init := ops[..|ops| - 1];
      match ops[|ops| - 1]
      case Compress(Some(text), _) => if Said(init) == [] then SummaryOf(init) else Some(text)
      case Clear => None
      case _ => SummaryOf(init)
  }

  /** The tokens of what was said, as far as no compression failed. */
  function TokensOf(ops: seq<Op>): nat
    decreases |ops|
  {
    if ops == [] then 0
    else
      var init := ops[..|ops| - 1];
      match ops[|ops| - 1]
      case Push(_, tokens) => TokensOf(init) + tokens
      case Compress(Some(text), count) => if Said(init) == [] then TokensOf(init) else count("[summary] " + text)
      case Clear => 0
      case _ => TokensOf(init)
  }

  predicate NoneFailed(ops: seq<Op>) {
    forall k :: 0 <= k < |ops| ==> !(ops[k].Compress? && ops[k].reply.None?)
  }

  // ---- What may change in a message ----

  predicate WasPruned(ops: seq<Op>) {
    exists k :: 0 <= k < |ops| && ops[k].Prune?
  }

  predicate WasAttached(ops: seq<Op>, text: string) {
    exists k :: 0 <= k < |ops| && ops[k].Attach? && ops[k].text == text
  }

  /** The message as it was said, but for images that were pruned and reasoning that was attached. */
  predicate Resembles(held: Message, said: Message, ops: seq<Op>) {
    && held.role == said.role && held.toolCalls == said.toolCalls && held.toolCallId == said.toolCallId
    && (held.images == said.images || (held.images == [] && WasPruned(ops)))
    && (held.images == said.images ==> held.content == said.content)
    && (held.content == said.content || held.content == said.content + " " + "[image omitted]")
    && (held.reasoning == said.reasoning
        || (held.reasoning.Some? && IsAssistant(said) && WasAttached(ops, held.reasoning.value)))
  }

  /** The end of what was said, at least two messages of it if something is missing. */
  predicate IsEndOf(held: seq<Message>, said: seq<Message>, ops: seq<Op>) {
    && |held| <= |said|
    && (|held| < |said| ==> |held| >= 2 && !NoneFailed(ops))
    && forall k :: 0 <= k < |held| ==> Resembles(held[k], said[|said| - |held| + k], ops)
  }

  // ---- One operation ----

  lemma Longer(init: seq<Op>, op: Op)
    ensures NoneFailed(init + [op]) <==> NoneFailed(init) && !(op.Compress? && op.reply.None?)
    ensures WasPruned(init + [op]) <==> WasPruned(init) || op.Prune?
    ensures forall text :: WasAttached(init + [op], text) <==> WasAttached(init, text) || (op.Attach? && op.text == text)
  {
    var ops := init + [op];
    assert ops[|init|] == op && forall k :: 0 <= k < |init| ==> ops[k] == init[k];
    forall text ensures WasAttached(ops, text) <==> WasAttached(init, text) || (op.Attach? && op.text == text) {
    }
  }

  lemma ResemblesLonger(held: Message, said: Message, init: seq<Op>, op: Op)
    requires Resembles(held, said, init)
    ensures Resembles(held, said, init + [op])
  {
    hide WasPruned, WasAttached;
    Longer(init, op);
  }

  lemma EndLonger(held: seq<Message>, said: seq<Message>, init: seq<Op>, op: Op)
    requires IsEndOf(held, said, init)
    ensures IsEndOf(held, said, init + [op])
  {
    hide NoneFailed, Resembles;
    Longer(init, op);
    forall k | 0 <= k < |held| ensures Resembles(held[k], said[|said| - |held| + k], init + [op]) {
      ResemblesLonger(held[k], said[|said| - |held| + k], init, op);
    }
  }

  lemma ResemblesSelf(m: Message, ops: seq<Op>)
    ensures Resembles(m, m, ops)
  {
  }

  lemma PushedIsEnd(held: seq<Message>, said: seq<Message>, m: Message, ops: seq<Op>)
    requires IsEndOf(held, said, ops)
    ensures IsEndOf(held + [m], said + [m], ops)
  {
    hide Resembles, NoneFailed;
    ResemblesSelf(m, ops);
  }

  lemma PrunedResembles(m: Message, said: Message, ops: seq<Op>)
    requires Resembles(m, said, ops) && m.images != [] && WasPruned(ops)
    ensures Resembles(WithoutImages(m), said, ops)
  {
    hide WasAttached, WasPruned;
    assert IMAGE_MARK == "[image omitted]";
  }

  lemma PrunedIsEnd(held: seq<Message>, said: seq<Message>, keep: nat, ops: seq<Op>)
    requires IsEndOf(held, said, ops) && WasPruned(ops)
    ensures IsEndOf(Pruned(held, keep), said, ops)
  {
    hide Resembles, NoneFailed, WasPruned, WithoutImages, ImagesFrom;
    forall k | 0 <= k < |held| ensures Resembles(Pruned(held, keep)[k], said[|said| - |held| + k], ops) {
      if held[k].images != [] && ImagesFrom(held, k) > keep {
        PrunedResembles(held[k], said[|said| - |held| + k], ops);
      }
    }
  }

  lemma AttachedIsEnd(held: seq<Message>, said: seq<Message>, text: string, ops: seq<Op>)
    requires IsEndOf(held, said, ops) && WasAttached(ops, text)
    ensures IsEndOf(Attached(held, text), said, ops)
  {
    hide Resembles, NoneFailed, WasAttached, NeedsReasoning;
    AttachedExactly(held, text);
    forall k | 0 <= k < |held| ensures Resembles(Attached(held, text)[k], said[|said| - |held| + k], ops) {
      if IsAssistant(held[k]) {
        AttachedResembles(held[k], said[|said| - |held| + k], text, ops);
      }
    }
  }

  lemma AttachedResembles(m: Message, said: Message, text: string, ops: seq<Op>)
    requires Resembles(m, said, ops) && IsAssistant(m) && WasAttached(ops, text)
    ensures Resembles(m.(reasoning := Some(text)), said, ops)
  {
    hide WasPruned, WasAttached;
  }

  lemma TruncatedIsEnd(held: seq<Message>, said: seq<Message>, rest: seq<Message>, ops: seq<Op>)
    requires IsEndOf(held, said, ops) && !NoneFailed(ops)
    requires |rest| <= |held| && rest == held[|held| - |rest|..] && (|rest| < |held| ==> |rest| >= 2)
    ensures IsEndOf(rest, said, ops)
  {
    hide Resembles, NoneFailed;
  }

  lemma OneIsEnd(m: Message, ops: seq<Op>)
    ensures IsEndOf([m], [m], ops)
  {
    hide Resembles, NoneFailed;
    ResemblesSelf(m, ops);
  }

  lemma StepTells(s: State, limit: nat, init: seq<Op>, op: Op)
    requires IsEndOf(s.messages, Said(init), init)
    ensures IsEndOf(Apply(s, limit, op).messages, Said(init + [op]), init + [op])
  {
    hide IsEndOf, Truncated, Pruned, Attached, NoneFailed, WasPruned, WasAttached;
    var ops := init + [op];
    assert ops[..|init|] == init;
    Longer(init, op);
    EndLonger(s.messages, Said(init), init, op);
    match op
    case Push(m, tokens) => PushedIsEnd(s.messages, Said(init), m, ops);
    case Compress(reply, count) =>
      NothingHeld(s.messages, Said(init), init);
      if s.messages != [] {
        if reply.Some? {
          OneIsEnd(Plain("assistant", "[summary] " + reply.value), ops);
        } else {
          TruncationIsMinimal(s.messages, s.tokenCount, limit, count);
          TruncatedIsEnd(s.messages, Said(init), Truncated(s.messages, s.tokenCount, limit, count).0, ops);
        }
      }
    case Prune(keep) => PrunedIsEnd(s.messages, Said(init), keep, ops);
    case Attach(text) => AttachedIsEnd(s.messages, Said(init), text, ops);
    case Clear => NothingIsEnd(ops);
  }

  /** The session is empty exactly if nothing was said. */
  lemma NothingHeld(held: seq<Message>, said: seq<Message>, ops: seq<Op>)
    requires IsEndOf(held, said, ops)
    ensures held == [] <==> said == []
  {
  }

  lemma NothingIsEnd(ops: seq<Op>)
    ensures IsEndOf([], [], ops)
  {
  }

  lemma StepCounts(s: State, limit: nat, init: seq<Op>, op: Op)
    requires s.messages == [] <==> Said(init) == []
    requires s.summary == SummaryOf(init) && (NoneFailed(init) ==> s.tokenCount == TokensOf(init))
    ensures Apply(s, limit, op).summary == SummaryOf(init + [op])
    ensures NoneFailed(init + [op]) ==> Apply(s, limit, op).tokenCount == TokensOf(init + [op])
  {
    hide Said, Truncated, Pruned, Attached, NoneFailed;
    var ops := init + [op];
    assert ops[..|init|] == init;
    Longer(init, op);
  }

  // ---- Whole runs ----

  lemma {:induction false} RunLonger(s: State, limit: nat, init: seq<Op>, op: Op)
    ensures Run(s, limit, init + [op]) == Apply(Run(s, limit, init), limit, op)
    decreases |init|
  {
    hide Apply;
    var ops := init + [op];
    if init == [] {
      assert ops == [op] && ops[1..] == [];
    } else {
      assert ops[0] == init[0] && ops[1..] == init[1..] + [op];
      RunLonger(Apply(s, limit, init[0]), limit, init[1..], op);
    }
  }

  /**
   * After every run from an empty session: it holds what was said since it was last cleared or compressed, all of it unless
   * a compression failed; only images and reasoning may differ, and only if the run pruned or attached some. The summary
   * is the last compression's, and the count that of the messages unless a compression failed.
   */
  lemma {:induction false} RunTells(limit: nat, ops: seq<Op>)
    ensures var s := Run(EMPTY, limit, ops);
            && IsEndOf(s.messages, Said(ops), ops)
            && s.summary == SummaryOf(ops)
            && (NoneFailed(ops) ==> s.tokenCount == TokensOf(ops))
    decreases |ops|
  {
    hide Apply, IsEndOf, Said, SummaryOf, TokensOf, NoneFailed;
    if ops == [] {
      NothingIsEnd(ops);
      NothingCounted();
    } else {
      var init, op := ops[..|ops| - 1], ops[|ops| - 1];
      assert ops == init + [op];
      RunTells(limit, init);
      RunLonger(EMPTY, limit, init, op);
      NothingHeld(Run(EMPTY, limit, init).messages, Said(init), init);
      StepTells(Run(EMPTY, limit, init), limit, init, op);
      StepCounts(Run(EMPTY, limit, init), limit, init, op);
    }
  }

  lemma NothingCounted()
    ensures Said([]) == [] && SummaryOf([]) == None && TokensOf([]) == 0
  {
  }

  // ---- Compression ----

  /** A failed compression drops the oldest messages, no more than it takes to come within the limit, and two stay. */
  lemma FailedCompressionDropsLeast(s: State, limit: nat, count: string -> nat)
    ensures var s' := Apply(s, limit, Op.Compress(None, count));
            var n := |s.messages| - |s'.messages|;
            && 0 <= n && s'.messages == s.messages[n..] && s'.summary == s.summary
            && s'.tokenCount == TokensAfter(s.messages, s.tokenCount, count, n)
            && (n > 0 ==> |s'.messages| >= 2)
            && (s'.tokenCount <= limit || |s'.messages| <= 2)
            && (forall k :: 0 <= k < n ==> TokensAfter(s.messages, s.tokenCount, count, k) > limit)
  {
    hide Truncated, TokensAfter;
    TruncationIsMinimal(s.messages, s.tokenCount, limit, count);
    NothingDropped(s.messages, s.tokenCount, count);
  }

  lemma NothingDropped(ms: seq<Message>, tokens: nat, count: string -> nat)
    ensures TokensAfter(ms, tokens, count, 0) == tokens
  {
  }

  /** What is dropped is taken off the count, message by message, and never below zero. */
  lemma {:induction false} TokensAfterIs(ms: seq<Message>, tokens: nat, count: string -> nat, k: nat)
    requires k <= |ms|
    ensures TokensAfter(ms, tokens, count, k) == Minus(tokens, ContentTokens(ms[..k], count))
    decreases k
  {
    if k > 0 {
      TokensAfterIs(ms[1..], Minus(tokens, count(ms[0].content)), count, k - 1);
      assert ms[..k][1..] == ms[1..][..k - 1];
    }
  }

  /** The request behind a successful compression: the summary and the assistant's note of it, and nothing else. */
  lemma RequestAfterCompression(s: State, limit: nat, text: string, count: string -> nat)
    requires s.messages != []
    ensures var s' := Apply(s, limit, Op.Compress(Some(text), count));
            Prepared(ContextOf(s'.summary, s'.messages))
            == [Plain("system", "[conversation summary] " + text), Plain("assistant", "[summary] " + text)]
  {
    var a, b := Plain("system", "[conversation summary] " + text), Plain("assistant", "[summary] " + text);
    assert [a] + [b] == [a, b];
    PlainPairIsRepaired(a, b);
  }

  lemma PlainPairIsRepaired(a: Message, b: Message)
    requires !IsTool(a) && !IsTool(b) && ToolIds(a) == [] && ToolIds(b) == []
    ensures Prepared([a, b]) == [a, b]
  {
    hide ToolIds, Repair;
    RepairOfSingle(a, [b]);
    RepairOfSingle(b, []);
    assert [a] + [b] == [a, b] && [b] + [] == [b];
    RepairOfNothing();
  }

  lemma RepairOfNothing()
    ensures Repair([]) == []
  {
  }
}
