/**
 * Assembling streamed tool calls from fragments that name the call's index. Arguments are JSON text; the parse at the
 * end is a function of that text and not modelled.
 */
module ToolDeltas {
  import opened Sequences
  import opened Wrappers

  datatype Delta = Delta(index: nat, id: Option<string>, name: Option<string>, arguments: Option<string>)

  /** What one choice of a chunk carries: fragments, and whether it finishes with tool calls. */
  datatype Choice = Choice(deltas: seq<Delta>, finishes: bool)

  datatype Builder = Builder(id: Option<string>, name: Option<string>, arguments: string)

  datatype Call = Call(id: string, name: string, arguments: string)

  const EMPTY := Builder(None, None, "")

  // ---- What a call is made of ----

  /** The fragments of call `i`, in order. */
  function Only(ds: seq<Delta>, i: nat): seq<Delta>
    decreases |ds|
  {
    if ds == [] then []
    else Only(ds[..|ds| - 1], i) + if ds[|ds| - 1].index == i then [ds[|ds| - 1]] else []
  }

  function Text(o: Option<string>): string {
    if o.Some? then o.value else ""
  }

  /** All argument text, in order. */
  function Arguments(ds: seq<Delta>): string
    decreases |ds|
  {
    if ds == [] then "" else Arguments(ds[..|ds| - 1]) + Text(ds[|ds| - 1].arguments)
  }

  function LastId(ds: seq<Delta>): Option<string>
    decreases |ds|
  {
    if ds == [] then None
    else if ds[|ds| - 1].id.Some? then ds[|ds| - 1].id
    else LastId(ds[..|ds| - 1])
  }

  function LastName(ds: seq<Delta>): Option<string>
    decreases |ds|
  {
    if ds == [] then None
    else if ds[|ds| - 1].name.Some? then ds[|ds| - 1].name
    else LastName(ds[..|ds| - 1])
  }

  /** A builder holds the latest id and name and all argument text of its own fragments. */
  function BuilderFor(own: seq<Delta>): Builder {
    Builder(LastId(own), LastName(own), Arguments(own))
  }

  /** One more than the largest index. */
  function Width(ds: seq<Delta>): nat
    decreases |ds|
  {
    if ds == [] then 0
    else
      var w, last := Width(ds[..|ds| - 1]), ds[|ds| - 1].index + 1;
      if w < last then last else w
  }

  function Built(ds: seq<Delta>): (b: seq<Builder>)
    ensures |b| == Width(ds) && forall i :: 0 <= i < |b| ==> b[i] == BuilderFor(Only(ds, i))
  {
    seq(Width(ds), i requires 0 <= i => BuilderFor(Only(ds, i)))
  }

  function Finished(b: Builder): Call {
    Call(Text(b.id), Text(b.name), b.arguments)
  }

  /** The calls emitted for a run of fragments. */
  function CallsOf(ds: seq<Delta>): (calls: seq<Call>)
    ensures |calls| == Width(ds) && forall i :: 0 <= i < |calls| ==> calls[i] == Finished(BuilderFor(Only(ds, i)))
  {
    seq(Width(ds), i requires 0 <= i => Finished(BuilderFor(Only(ds, i))))
  }

  /** All calls emitted: at each finish those of the fragments since the one before. */
  function Emitted(since: seq<Delta>, choices: seq<Choice>): seq<Call>
    decreases |choices|
  {
    if choices == [] then []
    else
      var ds := since + choices[0].deltas;
      if choices[0].finishes then CallsOf(ds) + Emitted([], choices[1..]) else Emitted(ds, choices[1..])
  }

  // ---- The loop ----

  method Assemble(choices: seq<Choice>) returns (calls: seq<Call>)
    ensures calls == Emitted([], choices)
  {
    hide Width, BuilderFor, Only, Finished, Built;
    calls := [];
    var builders: seq<Builder> := [];
    ghost var since: seq<Delta> := [];
    var c := 0;
    NothingBuilt();
    assert choices[0..] == choices && [] + Emitted([], choices) == Emitted([], choices);
    while c < |choices|
      invariant 0 <= c <= |choices|
      invariant builders == Built(since)
      invariant calls + Emitted(since, choices[c..]) == Emitted([], choices)
    {
      NextChoice(since, choices, c, calls);
      builders := AddDeltas(builders, choices[c].deltas, since);
      since := since + choices[c].deltas;
      if choices[c].finishes {
        var emitted := EmitAll(builders);
        assert emitted == CallsOf(since);
        calls := calls + emitted;
        builders := [];
        since := [];
        NothingBuilt();
      }
      c := c + 1;
    }
    assert calls + [] == calls;
  }

  method AddDeltas(known: seq<Builder>, deltas: seq<Delta>, ghost since: seq<Delta>) returns (builders: seq<Builder>)
    requires known == Built(since)
    ensures builders == Built(since + deltas)
  {
    hide Width, BuilderFor, Only;
    builders := known;
    var k := 0;
    assert since + deltas[..0] == since;
    while k < |deltas|
      invariant 0 <= k <= |deltas|
      invariant builders == Built(since + deltas[..k])
    {
      builders := AddDelta(builders, deltas[k], since + deltas[..k]);
      assert since + deltas[..k] + [deltas[k]] == since + deltas[..k + 1];
      k := k + 1;
    }
    assert deltas[..k] == deltas;
  }

  /** Builders are added up to the index, then one of them takes the fragment. */
  method AddDelta(known: seq<Builder>, d: Delta, ghost since: seq<Delta>) returns (builders: seq<Builder>)
    requires known == Built(since)
    ensures builders == Built(since + [d])
  {
    hide BuilderFor, Only;
    builders := known;
    while |builders| <= d.index
      invariant |known| <= |builders| && (|builders| == |known| || |builders| <= d.index + 1)
      invariant forall i :: 0 <= i < |builders| ==> builders[i] == if i < |known| then known[i] else EMPTY
      decreases d.index + 1 - |builders|
    {
      builders := builders + [EMPTY];
    }
    var b := builders[d.index];
    if d.id.Some? {
      b := b.(id := d.id);
    }
    if d.name.Some? {
      b := b.(name := d.name);
    }
    if d.arguments.Some? {
      b := b.(arguments := b.arguments + d.arguments.value);
    }
    builders := builders[d.index := b];
    WidthNext(since, d);
    forall i | 0 <= i < |builders| ensures builders[i] == BuilderFor(Only(since + [d], i)) {
      BuilderNext(since, d, i);
    }
  }

  method EmitAll(builders: seq<Builder>) returns (calls: seq<Call>)
    ensures |calls| == |builders| && forall i :: 0 <= i < |builders| ==> calls[i] == Finished(builders[i])
  {
    calls := [];
    var i := 0;
    while i < |builders|
      invariant 0 <= i <= |builders| && |calls| == i
      invariant forall j :: 0 <= j < i ==> calls[j] == Finished(builders[j])
    {
      calls := calls + [Finished(builders[i])];
      i := i + 1;
    }
  }

  lemma NothingBuilt()
    ensures Built([]) == []
  {
  }

  lemma NextChoice(since: seq<Delta>, choices: seq<Choice>, c: nat, calls: seq<Call>)
    requires c < |choices|
    ensures var ds := since + choices[c].deltas;
            calls + Emitted(since, choices[c..])
            == if choices[c].finishes then calls + CallsOf(ds) + Emitted([], choices[c + 1..])
               else calls + Emitted(ds, choices[c + 1..])
  {
    hide CallsOf;
    assert choices[c..][0] == choices[c] && choices[c..][1..] == choices[c + 1..];
  }

  lemma WidthNext(ds: seq<Delta>, d: Delta)
    ensures Width(ds + [d]) == if Width(ds) < d.index + 1 then d.index + 1 else Width(ds)
  {
    assert (ds + [d])[..|ds|] == ds;
  }

  lemma OnlyAppend(ds: seq<Delta>, d: Delta, i: nat)
    ensures Only(ds + [d], i) == Only(ds, i) + if d.index == i then [d] else []
  {
    assert (ds + [d])[..|ds|] == ds;
  }

  lemma {:induction false} OnlyBelowWidth(ds: seq<Delta>, i: nat)
    ensures i >= Width(ds) ==> Only(ds, i) == []
    decreases |ds|
  {
    if ds != [] {
      OnlyBelowWidth(ds[..|ds| - 1], i);
      assert ds == ds[..|ds| - 1] + [ds[|ds| - 1]];
      OnlyAppend(ds[..|ds| - 1], ds[|ds| - 1], i);
    }
  }

  /** One more fragment changes its own builder only. */
  lemma BuilderNext(ds: seq<Delta>, d: Delta, i: nat)
    ensures var b, b' := BuilderFor(Only(ds, i)), BuilderFor(Only(ds + [d], i));
            if d.index == i then
              b' == Builder(if d.id.Some? then d.id else b.id, if d.name.Some? then d.name else b.name,
                            b.arguments + Text(d.arguments))
            else b' == b
    ensures i >= Width(ds) ==> BuilderFor(Only(ds, i)) == EMPTY
    ensures forall s: string :: s + "" == s
  {
    hide Width;
    OnlyAppend(ds, d, i);
    OnlyBelowWidth(ds, i);
    var own := Only(ds, i);
    assert (own + [d])[..|own|] == own;
    assert own + [] == own;
  }

  // ---- The calls of a finish, field by field ----

  /** Fragment `k` is the last one of call `i` that carries an id. */
  predicate GivesId(ds: seq<Delta>, i: nat, k: nat)
    requires k < |ds|
  {
    && ds[k].index == i && ds[k].id.Some?
    && forall j :: k < j < |ds| ==> !(ds[j].index == i && ds[j].id.Some?)
  }

  predicate GivesName(ds: seq<Delta>, i: nat, k: nat)
    requires k < |ds|
  {
    && ds[k].index == i && ds[k].name.Some?
    && forall j :: k < j < |ds| ==> !(ds[j].index == i && ds[j].name.Some?)
  }

  /** The argument text of all fragments of call `i`, front to back. */
  function ArgumentText(ds: seq<Delta>, i: nat): string
    decreases |ds|
  {
    if ds == [] then ""
    else
      (if ds[0].index == i && ds[0].arguments.Some? then ds[0].arguments.value else "") + ArgumentText(ds[1..], i)
  }

  lemma {:induction false} IdOfLast(ds: seq<Delta>, i: nat, k: nat)
    requires k < |ds| && GivesId(ds, i, k)
    ensures LastId(Only(ds, i)) == ds[k].id
    decreases |ds|
  {
    hide LastId, LastName, Only;
    var init, last := ds[..|ds| - 1], ds[|ds| - 1];
    assert ds == init + [last];
    LastOfOnly(init, last, i);
    if k < |init| {
      assert init[k] == ds[k] && forall j :: 0 <= j < |init| ==> init[j] == ds[j];
      IdOfLast(init, i, k);
    }
  }

  lemma {:induction false} NameOfLast(ds: seq<Delta>, i: nat, k: nat)
    requires k < |ds| && GivesName(ds, i, k)
    ensures LastName(Only(ds, i)) == ds[k].name
    decreases |ds|
  {
    hide LastId, LastName, Only;
    var init, last := ds[..|ds| - 1], ds[|ds| - 1];
    assert ds == init + [last];
    LastOfOnly(init, last, i);
    if k < |init| {
      assert init[k] == ds[k] && forall j :: 0 <= j < |init| ==> init[j] == ds[j];
      NameOfLast(init, i, k);
    }
  }

  lemma {:induction false} NoId(ds: seq<Delta>, i: nat)
    requires forall k :: 0 <= k < |ds| ==> !(ds[k].index == i && ds[k].id.Some?)
    ensures LastId(Only(ds, i)) == None
    decreases |ds|
  {
    if ds != [] {
      var init, last := ds[..|ds| - 1], ds[|ds| - 1];
      assert ds == init + [last] && forall j :: 0 <= j < |init| ==> init[j] == ds[j];
      NoId(init, i);
      hide LastId, LastName, Only;
      LastOfOnly(init, last, i);
    }
  }

  lemma {:induction false} NoName(ds: seq<Delta>, i: nat)
    requires forall k :: 0 <= k < |ds| ==> !(ds[k].index == i && ds[k].name.Some?)
    ensures LastName(Only(ds, i)) == None
    decreases |ds|
  {
    if ds != [] {
      var init, last := ds[..|ds| - 1], ds[|ds| - 1];
      assert ds == init + [last] && forall j :: 0 <= j < |init| ==> init[j] == ds[j];
      NoName(init, i);
      hide LastId, LastName, Only;
      LastOfOnly(init, last, i);
    }
  }

  lemma LastOfOnly(init: seq<Delta>, last: Delta, i: nat)
    ensures LastId(Only(init + [last], i))
         == if last.index == i && last.id.Some? then last.id else LastId(Only(init, i))
    ensures LastName(Only(init + [last], i))
         == if last.index == i && last.name.Some? then last.name else LastName(Only(init, i))
    ensures last.index != i ==> Only(init + [last], i) == Only(init, i)
  {
    OnlyAppend(init, last, i);
    var own := Only(init, i);
    assert (own + [last])[..|own|] == own && own + [] == own;
  }

  lemma {:induction false} ArgumentTextAppend(ds: seq<Delta>, d: Delta, i: nat)
    ensures ArgumentText(ds + [d], i) == ArgumentText(ds, i) + if d.index == i then Text(d.arguments) else ""
    decreases |ds|
  {
    if ds == [] {
      assert [d][1..] == [] && ds + [d] == [d];
    } else {
      assert (ds + [d])[1..] == ds[1..] + [d];
      ArgumentTextAppend(ds[1..], d, i);
    }
  }

  lemma {:induction false} ArgumentsAreText(ds: seq<Delta>, i: nat)
    ensures Arguments(Only(ds, i)) == ArgumentText(ds, i)
    decreases |ds|
  {
    if ds != [] {
      var init, last := ds[..|ds| - 1], ds[|ds| - 1];
      assert ds == init + [last];
      ArgumentsAreText(init, i);
      ArgumentTextAppend(init, last, i);
      OnlyAppend(init, last, i);
      var own := Only(init, i);
      assert (own + [last])[..|own|] == own && own + [] == own;
      assert Arguments(own) + "" == Arguments(own);
    }
  }

  lemma {:induction false} WidthIsReached(ds: seq<Delta>, i: nat)
    ensures i < Width(ds) <==> exists k :: 0 <= k < |ds| && ds[k].index >= i
    decreases |ds|
  {
    if ds != [] {
      var init := ds[..|ds| - 1];
      WidthIsReached(init, i);
      assert forall k :: 0 <= k < |init| ==> init[k] == ds[k];
      if i < Width(ds) && !(exists k :: 0 <= k < |init| && init[k].index >= i) {
        assert ds[|ds| - 1].index >= i;
      }
      if k :| 0 <= k < |init| && init[k].index >= i {
        assert ds[k].index >= i;
      }
    }
  }

  /**
   * What a finish emits for the fragments since the one before. There is a call for every index up to the largest. Call
   * `i` has the id and the name of the last fragment of index `i` that carries one, empty if none does, and as arguments
   * the text of exactly those fragments in order.
   */
  lemma CallFields(ds: seq<Delta>, i: nat)
    ensures i < |CallsOf(ds)| <==> exists k :: 0 <= k < |ds| && ds[k].index >= i
    ensures i < |CallsOf(ds)| ==>
              var call := CallsOf(ds)[i];
              && (forall k :: 0 <= k < |ds| && GivesId(ds, i, k) ==> call.id == ds[k].id.value)
              && ((forall k :: 0 <= k < |ds| ==> !(ds[k].index == i && ds[k].id.Some?)) ==> call.id == "")
              && (forall k :: 0 <= k < |ds| && GivesName(ds, i, k) ==> call.name == ds[k].name.value)
              && ((forall k :: 0 <= k < |ds| ==> !(ds[k].index == i && ds[k].name.Some?)) ==> call.name == "")
              && call.arguments == ArgumentText(ds, i)
  {
    hide Only, LastId, LastName, Arguments, Width, ArgumentText;
    WidthIsReached(ds, i);
    forall k | 0 <= k < |ds| && GivesId(ds, i, k) ensures LastId(Only(ds, i)) == ds[k].id {
      IdOfLast(ds, i, k);
    }
    forall k | 0 <= k < |ds| && GivesName(ds, i, k) ensures LastName(Only(ds, i)) == ds[k].name {
      NameOfLast(ds, i, k);
    }
    if forall k :: 0 <= k < |ds| ==> !(ds[k].index == i && ds[k].id.Some?) {
      NoId(ds, i);
    }
    if forall k :: 0 <= k < |ds| ==> !(ds[k].index == i && ds[k].name.Some?) {
      NoName(ds, i);
    }
    ArgumentsAreText(ds, i);
  }

  // ---- Interleaving does not matter ----

  predicate SameFragments(ds: seq<Delta>, es: seq<Delta>, n: nat) {
    forall i :: 0 <= i < n ==> Only(ds, i) == Only(es, i)
  }

  lemma {:induction false} WidthFrom(ds: seq<Delta>, n: nat)
    requires Width(ds) > 0 && n == Width(ds) - 1
    ensures Only(ds, n) != []
    decreases |ds|
  {
    var init, last := ds[..|ds| - 1], ds[|ds| - 1];
    assert ds == init + [last];
    OnlyAppend(init, last, n);
    if Width(init) == Width(ds) {
      WidthFrom(init, n);
    }
  }

  /** The calls depend on each call's own fragments only, however they are interleaved. */
  lemma InterleavingIsIrrelevant(ds: seq<Delta>, es: seq<Delta>)
    requires SameFragments(ds, es, Width(ds)) && SameFragments(ds, es, Width(es))
    ensures CallsOf(ds) == CallsOf(es)
  {
    hide Only, Width, BuilderFor, Finished;
    if Width(ds) > Width(es) {
      WidthFrom(ds, Width(ds) - 1);
      OnlyBelowWidth(es, Width(ds) - 1);
    }
    if Width(es) > Width(ds) {
      WidthFrom(es, Width(es) - 1);
      OnlyBelowWidth(ds, Width(es) - 1);
    }
  }

  /** A finish emits its calls once: what follows starts from nothing. */
  lemma {:induction false} EmittedOnce(since: seq<Delta>, choices: seq<Choice>, more: seq<Choice>)
    requires choices != [] && choices[|choices| - 1].finishes
    ensures Emitted(since, choices + more) == Emitted(since, choices) + Emitted([], more)
    decreases |choices|
  {
    hide CallsOf;
    var ds := since + choices[0].deltas;
    assert (choices + more)[0] == choices[0] && (choices + more)[1..] == choices[1..] + more;
    if |choices| == 1 {
      assert choices[1..] == [] && [] + more == more;
      assert CallsOf(ds) + [] == CallsOf(ds);
    } else if choices[0].finishes {
      EmittedOnce([], choices[1..], more);
      Regroup(CallsOf(ds), Emitted([], choices[1..]), Emitted([], more));
    } else {
      EmittedOnce(ds, choices[1..], more);
    }
  }

  /** An index that was skipped is emitted as a call without id, name and arguments. */
  lemma SkippedIndexIsEmitted(ds: seq<Delta>, i: nat)
    requires i < Width(ds) && Only(ds, i) == []
    ensures CallsOf(ds)[i] == Call("", "", "")
  {
  }

  // ---- Which fragments are sent ----

  /** The runs of fragments that one finish each turns into calls. */
  function Groups(since: seq<Delta>, choices: seq<Choice>): seq<seq<Delta>>
    decreases |choices|
  {
    if choices == [] then []
    else
      var ds := since + choices[0].deltas;
      if choices[0].finishes then [ds] + Groups([], choices[1..]) else Groups(ds, choices[1..])
  }

  /** The fragments no finish follows. */
  function Unsent(since: seq<Delta>, choices: seq<Choice>): seq<Delta>
    decreases |choices|
  {
    if choices == [] then since
    else Unsent(if choices[0].finishes then [] else since + choices[0].deltas, choices[1..])
  }

  function Flat(groups: seq<seq<Delta>>): seq<Delta>
    decreases |groups|
  {
    if groups == [] then [] else groups[0] + Flat(groups[1..])
  }

  function AllCalls(groups: seq<seq<Delta>>): seq<Call>
    decreases |groups|
  {
    if groups == [] then [] else CallsOf(groups[0]) + AllCalls(groups[1..])
  }

  function AllDeltas(choices: seq<Choice>): seq<Delta>
    decreases |choices|
  {
    if choices == [] then [] else choices[0].deltas + AllDeltas(choices[1..])
  }

  /** What is emitted are the calls of these runs; they and the unsent fragments are all fragments, in order. */
  lemma {:induction false} EmittedIsGroups(since: seq<Delta>, choices: seq<Choice>)
    ensures Emitted(since, choices) == AllCalls(Groups(since, choices))
    ensures Flat(Groups(since, choices)) + Unsent(since, choices) == since + AllDeltas(choices)
    decreases |choices|
  {
    hide CallsOf;
    if choices != [] {
      var ds, rest := since + choices[0].deltas, choices[1..];
      Regroup(since, choices[0].deltas, AllDeltas(rest));
      if choices[0].finishes {
        EmittedIsGroups([], rest);
        var groups := [ds] + Groups([], rest);
        assert groups[0] == ds && groups[1..] == Groups([], rest);
        Regroup(ds, Flat(Groups([], rest)), Unsent([], rest));
        assert [] + AllDeltas(rest) == AllDeltas(rest);
      } else {
        EmittedIsGroups(ds, rest);
      }
    }
  }

  /** A finish comes with the choice or after it. */
  predicate FinishFollows(choices: seq<Choice>, k: nat) {
    exists j :: k <= j < |choices| && choices[j].finishes
  }

  lemma FinishLater(choices: seq<Choice>, k: nat)
    requires choices != []
    ensures FinishFollows(choices, k + 1) <==> FinishFollows(choices[1..], k)
    ensures FinishFollows(choices, 0) <==> choices[0].finishes || FinishFollows(choices[1..], 0)
  {
    var rest := choices[1..];
    assert forall j :: 0 <= j < |rest| ==> rest[j] == choices[j + 1];
    if FinishFollows(rest, k) {
      var j :| k <= j < |rest| && rest[j].finishes;
      assert choices[j + 1].finishes;
    }
    if FinishFollows(choices, k + 1) {
      var j :| k + 1 <= j < |choices| && choices[j].finishes;
      assert rest[j - 1].finishes;
    }
    if FinishFollows(rest, 0) {
      var j :| 0 <= j < |rest| && rest[j].finishes;
      assert choices[j + 1].finishes;
    }
    if FinishFollows(choices, 0) && !choices[0].finishes {
      var j :| 0 <= j < |choices| && choices[j].finishes;
      assert rest[j - 1].finishes;
    }
  }

  lemma NoFinish(choices: seq<Choice>)
    requires choices == []
    ensures !FinishFollows(choices, 0)
  {
  }

  lemma {:induction false} UnsentIff(since: seq<Delta>, choices: seq<Choice>)
    ensures Unsent(since, choices) == []
            <==> (since == [] || FinishFollows(choices, 0))
                 && forall k :: 0 <= k < |choices| && choices[k].deltas != [] ==> FinishFollows(choices, k)
    decreases |choices|
  {
    hide FinishFollows;
    if choices == [] {
      NoFinish(choices);
    } else {
      var rest := choices[1..];
      UnsentIff(if choices[0].finishes then [] else since + choices[0].deltas, rest);
      assert forall k :: 0 <= k < |rest| ==> rest[k] == choices[k + 1];
      forall k: nat ensures FinishFollows(choices, k + 1) <==> FinishFollows(rest, k) {
        FinishLater(choices, k);
      }
      FinishLater(choices, 0);
      assert forall k :: 1 <= k < |choices| ==> (FinishFollows(choices, k) <==> FinishFollows(rest, k - 1));
    }
  }

  /**
   * Every fragment of a reply becomes part of a call that is sent if and only if no fragment comes behind the last
   * choice that finishes with tool calls.
   */
  lemma EveryFragmentIsSentIff(choices: seq<Choice>)
    ensures Flat(Groups([], choices)) == AllDeltas(choices)
            <==> forall k :: 0 <= k < |choices| && choices[k].deltas != [] ==> FinishFollows(choices, k)
  {
    hide Groups, Unsent, Flat, AllDeltas, FinishFollows;
    EmittedIsGroups([], choices);
    UnsentIff([], choices);
    var sent := Flat(Groups([], choices));
    assert [] + AllDeltas(choices) == AllDeltas(choices);
    assert sent + Unsent([], choices) == sent <==> Unsent([], choices) == [];
  }

  /** A reply that ends without that finish reason, or goes on behind it, never sends the call it carries. */
  lemma FragmentBehindFinishIsLost(d: Delta)
    ensures Emitted([], [Choice([d], false)]) == []
    ensures Emitted([], [Choice([], true), Choice([d], false)]) == []
  {
    var last := [Choice([d], false)];
    assert last[1..] == [];
    assert [Choice([], true), Choice([d], false)][1..] == last;
  }
}
