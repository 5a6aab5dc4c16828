/**
 * Server-sent events: draining complete frames from a byte buffer. A frame ends with its first empty line
 * (compare section 9.2 of the WHATWG HTML standard); how the bytes were cut into network chunks does not matter.
 */
module SseFrames {
  import opened Sequences
  import opened Bytes

  /** Two line feeds at `i`. */
  predicate BreakAt(b: seq<Byte>, i: nat) {
    i + 1 < |b| && b[i] == LF && b[i + 1] == LF
  }

  /** The first pair of line feeds at or after `from`, or the length of the text. */
  function FirstBreak(b: seq<Byte>, from: nat): (i: nat)
    requires from <= |b|
    ensures from <= i <= |b|
    ensures i < |b| ==> BreakAt(b, i)
    ensures forall k :: from <= k < i ==> !BreakAt(b, k)
    decreases |b| - from
  {
    if from == |b| || BreakAt(b, from) then from else FirstBreak(b, from + 1)
  }

  datatype Drained = Drained(frames: seq<seq<Byte>>, rest: seq<Byte>)

  /** The complete frames of a buffer, each with its empty line, and what is left. */
  function Drain(b: seq<Byte>): (d: Drained)
    ensures forall k :: 0 <= k < |d.rest| ==> !BreakAt(d.rest, k)
    decreases |b|
  {
    var i := FirstBreak(b, 0);
    if i == |b| then Drained([], b)
    else
      var d := Drain(b[i + 2..]);
      Drained([b[..i + 2]] + d.frames, d.rest)
  }

  function Joined(parts: seq<seq<Byte>>): seq<Byte>
    decreases |parts|
  {
    if parts == [] then [] else parts[0] + Joined(parts[1..])
  }

  lemma FirstBreakIs(b: seq<Byte>, i: nat)
    requires BreakAt(b, i) && forall k :: 0 <= k < i ==> !BreakAt(b, k)
    ensures FirstBreak(b, 0) == i
  {
  }

  lemma NoBreak(b: seq<Byte>)
    ensures FirstBreak(b, 0) == |b| <==> forall k :: 0 <= k < |b| ==> !BreakAt(b, k)
  {
  }

  lemma DrainStep(b: seq<Byte>)
    ensures var i := FirstBreak(b, 0);
            if i == |b| then Drain(b) == Drained([], b)
            else i + 2 <= |b| && Drain(b) == Drained([b[..i + 2]] + Drain(b[i + 2..]).frames, Drain(b[i + 2..]).rest)
  {
    hide FirstBreak;
  }

  /** Nothing of the text is lost or reordered. */
  lemma {:induction false} DrainKeepsBytes(b: seq<Byte>)
    ensures Joined(Drain(b).frames) + Drain(b).rest == b
    decreases |b|
  {
    hide Joined, Drain, FirstBreak, BreakAt;
    var i := FirstBreak(b, 0);
    DrainStep(b);
    if i == |b| {
      NothingDrained();
      assert [] + b == b;
    } else {
      var front, d := b[..i + 2], Drain(b[i + 2..]);
      DrainKeepsBytes(b[i + 2..]);
      JoinedFirst(front, d.frames);
      Regroup(front, Joined(d.frames), d.rest);
      assert front + b[i + 2..] == b;
    }
  }

  lemma JoinedFirst(part: seq<Byte>, parts: seq<seq<Byte>>)
    ensures Joined([part] + parts) == part + Joined(parts)
  {
    assert ([part] + parts)[1..] == parts;
  }

  /** A frame is a text that ends with its first empty line. */
  predicate IsFrame(f: seq<Byte>) {
    |f| >= 2 && BreakAt(f, |f| - 2) && forall k :: 0 <= k < |f| - 2 ==> !BreakAt(f, k)
  }

  lemma {:induction false} DrainedAreFrames(b: seq<Byte>)
    ensures forall k :: 0 <= k < |Drain(b).frames| ==> IsFrame(Drain(b).frames[k])
    decreases |b|
  {
    var i := FirstBreak(b, 0);
    if i < |b| {
      var d := Drain(b[i + 2..]);
      DrainedAreFrames(b[i + 2..]);
      FrontIsFrame(b, i);
      var frames := Drain(b).frames;
      forall k | 0 <= k < |frames| ensures IsFrame(frames[k]) {
        if k > 0 {
          assert frames[k] == d.frames[k - 1];
        }
      }
    }
  }

  lemma FrontIsFrame(b: seq<Byte>, i: nat)
    requires BreakAt(b, i) && forall k :: 0 <= k < i ==> !BreakAt(b, k)
    ensures IsFrame(b[..i + 2])
  {
    var f := b[..i + 2];
    assert f[i] == b[i] && f[i + 1] == b[i + 1];
    forall k | 0 <= k < i ensures !BreakAt(f, k) {
      assert !BreakAt(b, k);
      assert f[k] == b[k] && f[k + 1] == b[k + 1];
    }
  }

  /** More bytes at the end do not change the frames that were complete. */
  lemma {:induction false} DrainMore(a: seq<Byte>, b: seq<Byte>)
    ensures Drain(a + b)
         == Drained(Drain(a).frames + Drain(Drain(a).rest + b).frames, Drain(Drain(a).rest + b).rest)
    decreases |a|
  {
    var i := FirstBreak(a, 0);
    if i == |a| {
      assert [] + Drain(a + b).frames == Drain(a + b).frames;
    } else {
      BreakStays(a, b, i);
      assert (a + b)[i + 2..] == a[i + 2..] + b && (a + b)[..i + 2] == a[..i + 2];
      DrainMore(a[i + 2..], b);
      Regroup([a[..i + 2]], Drain(a[i + 2..]).frames, Drain(Drain(a).rest + b).frames);
    }
  }

  lemma BreakStays(a: seq<Byte>, b: seq<Byte>, i: nat)
    requires i == FirstBreak(a, 0) < |a|
    ensures FirstBreak(a + b, 0) == i
  {
    assert BreakAt(a, i);
    assert (a + b)[i] == a[i] && (a + b)[i + 1] == a[i + 1];
    forall k | 0 <= k < i ensures !BreakAt(a + b, k) {
      assert !BreakAt(a, k);
      assert (a + b)[k] == a[k] && (a + b)[k + 1] == a[k + 1];
    }
    FirstBreakIs(a + b, i);
  }

  // ---- The reading loop ----

  /** How many of the chunks are read: up to the one that completes a frame with the end marker. */
  function Consumed(buffer: seq<Byte>, chunks: seq<seq<Byte>>, isDone: seq<Byte> -> bool): nat
    decreases |chunks|
  {
    if chunks == [] then 0
    else
      var d := Drain(buffer + chunks[0]);
      if HasDone(d.frames, isDone) then 1 else 1 + Consumed(d.rest, chunks[1..], isDone)
  }

  predicate HasDone(frames: seq<seq<Byte>>, isDone: seq<Byte> -> bool) {
    exists k :: 0 <= k < |frames| && isDone(frames[k])
  }

  lemma {:induction false} ConsumedBound(buffer: seq<Byte>, chunks: seq<seq<Byte>>, isDone: seq<Byte> -> bool)
    ensures Consumed(buffer, chunks, isDone) <= |chunks|
    decreases |chunks|
  {
    if chunks != [] {
      ConsumedBound(Drain(buffer + chunks[0]).rest, chunks[1..], isDone);
    }
  }

  /**
   * The frames handled, in order. `isDone` says whether a frame holds the end marker; it is looked at only when the
   * frames already in the buffer are drained, as in the source.
   */
  method ReadFrames(chunks: seq<seq<Byte>>, isDone: seq<Byte> -> bool)
    returns (frames: seq<seq<Byte>>, buffer: seq<Byte>, done: bool)
    ensures Consumed([], chunks, isDone) <= |chunks|
    ensures Drained(frames, buffer) == Drain(Joined(chunks[..Consumed([], chunks, isDone)]))
    ensures done <==> HasDone(frames, isDone)
    ensures !done ==> Consumed([], chunks, isDone) == |chunks|
    ensures FirstBreak(buffer, 0) == |buffer|
  {
    hide Drain, FirstBreak;
    frames, buffer, done := [], [], false;
    var i := 0;
    NothingDrained();
    assert chunks[0..] == chunks && chunks[..0] == [];
    ConsumedBound([], chunks, isDone);
    while i < |chunks| && !done
      invariant 0 <= i <= |chunks|
      invariant Drained(frames, buffer) == Drain(Joined(chunks[..i]))
      invariant done <==> HasDone(frames, isDone)
      invariant Consumed([], chunks, isDone) == if done then i else i + Consumed(buffer, chunks[i..], isDone)
    {
      ghost var before, held := frames, buffer;
      JoinedNext(chunks, i);
      DrainMore(Joined(chunks[..i]), chunks[i]);
      buffer := buffer + chunks[i];
      ghost var all := Drain(buffer);
      EmptyPrefix(all.frames);
      var drained := [];
      while FirstBreak(buffer, 0) < |buffer|
        invariant all == Drained(drained + Drain(buffer).frames, Drain(buffer).rest)
        invariant done <==> HasDone(drained, isDone)
        decreases |buffer|
      {
        var lineEnd := FirstBreak(buffer, 0);
        DrainNext(buffer, drained);
        HasDoneMore(drained, buffer[..lineEnd + 2], isDone);
        drained := drained + [buffer[..lineEnd + 2]];
        if isDone(buffer[..lineEnd + 2]) {
          done := true;
        }
        buffer := buffer[lineEnd + 2..];
      }
      DrainEnd(buffer, drained);
      frames := frames + drained;
      HasDoneJoin(before, drained, isDone);
      assert chunks[i..][0] == chunks[i] && chunks[i..][1..] == chunks[i + 1..];
      i := i + 1;
    }
    RestHasNoBreak(Joined(chunks[..i]));
  }

  lemma NothingDrained()
    ensures Drain([]) == Drained([], []) && Joined([]) == []
  {
  }

  lemma EmptyPrefix(frames: seq<seq<Byte>>)
    ensures [] + frames == frames
  {
  }

  lemma {:induction false} JoinedNext(chunks: seq<seq<Byte>>, i: nat)
    requires i < |chunks|
    ensures Joined(chunks[..i + 1]) == Joined(chunks[..i]) + chunks[i]
    decreases i
  {
    if i == 0 {
      assert chunks[..1] == [chunks[0]] && chunks[..1][1..] == [];
      assert chunks[0] + [] == chunks[0];
    } else {
      JoinedNext(chunks[1..], i - 1);
      assert chunks[..i + 1][1..] == chunks[1..][..i] && chunks[..i][1..] == chunks[1..][..i - 1];
      Regroup(chunks[0], Joined(chunks[1..][..i - 1]), chunks[i]);
    }
  }

  lemma {:induction false} DrainNext(b: seq<Byte>, drained: seq<seq<Byte>>)
    requires FirstBreak(b, 0) < |b|
    ensures var i := FirstBreak(b, 0);
            && i + 2 <= |b|
            && Drain(b).rest == Drain(b[i + 2..]).rest
            && drained + Drain(b).frames == drained + [b[..i + 2]] + Drain(b[i + 2..]).frames
  {
  }

  lemma DrainEnd(b: seq<Byte>, drained: seq<seq<Byte>>)
    requires FirstBreak(b, 0) == |b|
    ensures Drain(b) == Drained([], b) && drained + [] == drained
  {
  }

  lemma RestHasNoBreak(b: seq<Byte>)
    ensures FirstBreak(Drain(b).rest, 0) == |Drain(b).rest|
  {
    NoBreak(Drain(b).rest);
  }

  lemma HasDoneMore(frames: seq<seq<Byte>>, f: seq<Byte>, isDone: seq<Byte> -> bool)
    ensures HasDone(frames + [f], isDone) <==> HasDone(frames, isDone) || isDone(f)
  {
    if HasDone(frames, isDone) {
      var k :| 0 <= k < |frames| && isDone(frames[k]);
      assert (frames + [f])[k] == frames[k];
    }
    if isDone(f) {
      assert (frames + [f])[|frames|] == f;
    }
  }

  lemma HasDoneJoin(a: seq<seq<Byte>>, b: seq<seq<Byte>>, isDone: seq<Byte> -> bool)
    ensures HasDone(a + b, isDone) <==> HasDone(a, isDone) || HasDone(b, isDone)
  {
    if HasDone(a, isDone) {
      var k :| 0 <= k < |a| && isDone(a[k]);
      assert (a + b)[k] == a[k];
    }
    if HasDone(b, isDone) {
      var k :| 0 <= k < |b| && isDone(b[k]);
      assert (a + b)[|a| + k] == b[k];
    }
  }

  // ---- Cutting does not matter ----

  /** The frames up to and including the first with the end marker. */
  function UpToDone(frames: seq<seq<Byte>>, isDone: seq<Byte> -> bool): seq<seq<Byte>>
    decreases |frames|
  {
    if frames == [] then [] else [frames[0]] + if isDone(frames[0]) then [] else UpToDone(frames[1..], isDone)
  }

  lemma {:induction false} UpToDoneExtends(a: seq<seq<Byte>>, b: seq<seq<Byte>>, isDone: seq<Byte> -> bool)
    requires HasDone(a, isDone)
    ensures UpToDone(a + b, isDone) == UpToDone(a, isDone)
    decreases |a|
  {
    assert (a + b)[0] == a[0] && (a + b)[1..] == a[1..] + b;
    if !isDone(a[0]) {
      var k :| 0 <= k < |a| && isDone(a[k]);
      assert a[1..][k - 1] == a[k];
      UpToDoneExtends(a[1..], b, isDone);
    }
  }

  lemma {:induction false} JoinedConcat(a: seq<seq<Byte>>, b: seq<seq<Byte>>)
    ensures Joined(a + b) == Joined(a) + Joined(b)
    decreases |a|
  {
    if a == [] {
      assert a + b == b;
      assert [] + Joined(b) == Joined(b);
    } else {
      assert (a + b)[1..] == a[1..] + b;
      JoinedConcat(a[1..], b);
      Regroup(a[0], Joined(a[1..]), Joined(b));
    }
  }

  /** What the loop handles up to the end marker is what the whole text holds up to it. */
  lemma HandledIsWhole(chunks: seq<seq<Byte>>, n: nat, isDone: seq<Byte> -> bool)
    requires n <= |chunks|
    requires n == |chunks| || HasDone(Drain(Joined(chunks[..n])).frames, isDone)
    ensures UpToDone(Drain(Joined(chunks[..n])).frames, isDone) == UpToDone(Drain(Joined(chunks)).frames, isDone)
  {
    hide Drain, UpToDone;
    assert chunks == chunks[..n] + chunks[n..];
    JoinedConcat(chunks[..n], chunks[n..]);
    DrainMore(Joined(chunks[..n]), Joined(chunks[n..]));
    if n < |chunks| {
      var first := Drain(Joined(chunks[..n]));
      UpToDoneExtends(first.frames, Drain(first.rest + Joined(chunks[n..])).frames, isDone);
    } else {
      assert chunks[..n] == chunks;
    }
  }

  lemma {:induction false} ConsumedStops(done: seq<Byte>, buffer: seq<Byte>, chunks: seq<seq<Byte>>,
                                         isDone: seq<Byte> -> bool)
    requires Drain(done).rest == buffer
    ensures var n := Consumed(buffer, chunks, isDone);
            n <= |chunks| && (n == |chunks| || HasDone(Drain(done + Joined(chunks[..n])).frames, isDone))
    decreases |chunks|
  {
    hide Drain, HasDone;
    if chunks != [] {
      var d := Drain(buffer + chunks[0]);
      DrainMore(done, chunks[0]);
      if HasDone(d.frames, isDone) {
        assert chunks[..1] == [chunks[0]];
        JoinedOne(chunks[0]);
        HasDoneJoin(Drain(done).frames, d.frames, isDone);
      } else {
        ConsumedStops(done + chunks[0], d.rest, chunks[1..], isDone);
        var m := Consumed(d.rest, chunks[1..], isDone);
        assert chunks[..m + 1] == [chunks[0]] + chunks[1..][..m];
        JoinedConcat([chunks[0]], chunks[1..][..m]);
        JoinedOne(chunks[0]);
        Regroup(done, chunks[0], Joined(chunks[1..][..m]));
      }
    }
  }

  lemma JoinedOne(c: seq<Byte>)
    ensures Joined([c]) == c
  {
    assert [c][1..] == [];
    assert c + [] == c;
  }

  /** For any two ways of cutting the same bytes, the frames handled up to the end marker are the same. */
  lemma CuttingIsIrrelevant(a: seq<seq<Byte>>, b: seq<seq<Byte>>, isDone: seq<Byte> -> bool)
    requires Joined(a) == Joined(b)
    ensures var m, n := Consumed([], a, isDone), Consumed([], b, isDone);
            && m <= |a| && n <= |b|
            && UpToDone(Drain(Joined(a[..m])).frames, isDone) == UpToDone(Drain(Joined(b[..n])).frames, isDone)
  {
    hide Drain, UpToDone, Consumed, HasDone;
    NothingDrained();
    ConsumedStops([], [], a, isDone);
    ConsumedStops([], [], b, isDone);
    var m, n := Consumed([], a, isDone), Consumed([], b, isDone);
    assert [] + Joined(a[..m]) == Joined(a[..m]) && [] + Joined(b[..n]) == Joined(b[..n]);
    HandledIsWhole(a, m, isDone);
    HandledIsWhole(b, n, isDone);
  }

  /** Frames behind the end marker are handled all the same when they arrive in the same chunk. */
  lemma FramesBehindDone(f: seq<Byte>, g: seq<Byte>, isDone: seq<Byte> -> bool)
    requires IsFrame(f) && IsFrame(g) && isDone(f)
    ensures Consumed([], [f + g], isDone) == 1 && Drain(f + g).frames == [f, g]
    ensures Consumed([], [f, g], isDone) == 1 && Drain(f).frames == [f]
  {
    hide Drain, IsFrame;
    OneFrame(f);
    OneFrame(g);
    DrainMore(f, g);
    assert [] + g == g && [] + f == f && [] + (f + g) == f + g;
    assert [f] + [g] == [f, g];
    assert [f, g][0] == f && [f][0] == f;
  }

  lemma OneFrame(f: seq<Byte>)
    requires IsFrame(f)
    ensures Drain(f) == Drained([f], [])
  {
    FirstBreakIs(f, |f| - 2);
    assert f[..|f|] == f && f[|f|..] == [];
    NothingDrained();
    assert [f] + [] == [f];
  }
}
