/**
 * What the user gets to see: no opening tag in any piece, and none in the pieces put together while no block has closed.
 */
module DsmlShown {
  import opened Wrappers
  import opened DsmlTags
  import opened DsmlPartial
  import opened DsmlParse
  import opened DsmlStream
  import opened DsmlRefinement
  import opened DsmlCuts
  import opened DsmlRuns

  // ---------- Piece by piece ----------

  predicate ShowsNoTag(pieces: seq<Piece>) {
    forall p :: p in pieces && p.Emitted? ==> FindOpen(p.text, 0, TOOL_CALL_TAGS).None?
  }

  /** The text in front of the first opening tag, or any part of a text without one, holds none. */
  lemma NoTagBefore(buf: string, n: nat)
    requires n <= |buf|
    requires var open := FindOpen(buf, 0, TOOL_CALL_TAGS); open.None? || n <= open.value.0
    ensures FindOpen(buf[..n], 0, TOOL_CALL_TAGS).None?
  {
    hide MatchTagAt, FindTagFrom, TOOL_CALL_TAGS, AllPlain;
    OuterNamesArePlain();
    if FindOpen(buf[..n], 0, TOOL_CALL_TAGS).Some? {
      FindStable(buf[..n], buf, 0, TOOL_CALL_TAGS, false);
    }
  }

  lemma {:induction false} SettleShowsNoTag(buf: string)
    ensures ShowsNoTag(Settle(buf, false).pieces)
    decreases |buf|, 1
  {
    hide FindOpen, TOOL_CALL_TAGS, KeepFrom, SettleBlock;
    var open := FindOpen(buf, 0, TOOL_CALL_TAGS);
    if open.Some? {
      NoTagBefore(buf, open.value.0);
      BlockShowsNoTag(buf[..open.value.0], buf[open.value.0..]);
    } else {
      NoTagBefore(buf, KeepFrom(buf, 0));
    }
  }

  lemma {:induction false} BlockShowsNoTag(prefix: string, buf: string)
    requires FindOpen(prefix, 0, TOOL_CALL_TAGS).None?
    ensures ShowsNoTag(SettleBlock(prefix, buf).pieces)
    decreases |buf|, 0
  {
    hide FindOpen, FindClose, TOOL_CALL_TAGS, Settle, Extract;
    var close := FindClose(buf, 0, TOOL_CALL_TAGS);
    if close.Some? {
      SettleShowsNoTag(buf[close.value.1..]);
    }
  }

  /** No piece of text shown to the user holds an outer opening tag, for every stream. */
  lemma {:induction false} RunShowsNoTag(s: Buffer, deltas: seq<string>)
    ensures ShowsNoTag(Run(s, deltas).pieces)
    decreases |deltas|
  {
    hide Settle, SettleBlock, FindOpen, TOOL_CALL_TAGS;
    if deltas != [] {
      var buf := s.buf + deltas[0];
      if s.inDsml {
        SettleInBlock(buf);
        NothingIsNoTag();
        BlockShowsNoTag("", buf);
      } else {
        SettleShowsNoTag(buf);
      }
      RunShowsNoTag(Feed(s, deltas[0]).state, deltas[1..]);
    }
  }

  // ---------- Put together ----------

  /** One delta while no block has closed: what is let go of is shown, unless a block is open. */
  lemma StepShown(a: string, d: string)
    requires ShortBareTags(a + d, false) && After(a + d).start == 0
    ensures var g, h := After(a), After(a + d);
            && g.held <= h.held && g.start == 0 && (g.inBlock ==> h == g)
            && Visible(Feed(StateAfter(a), d).pieces) == if h.inBlock then "" else (a + d)[g.held..h.held]
  {
    hide FindOpen, FindClose, TOOL_CALL_TAGS, ShortBareTags, KeepFrom, Settle, SettleBlock, After, Feed, StateAfter,
      Visible, ShortBare;
    if FindOpen(a + d, 0, TOOL_CALL_TAGS).None? {
      ShownOutside(a, d);
    } else {
      ShownInside(a, d);
    }
  }

  lemma NoTagInParts(a: string, d: string, n: nat)
    requires FindOpen(a + d, 0, TOOL_CALL_TAGS).None? && n <= |a|
    ensures FindOpen(a, 0, TOOL_CALL_TAGS).None? && FindOpen((a + d)[n..], 0, TOOL_CALL_TAGS).None?
  {
    hide FindTagFrom, TOOL_CALL_TAGS, AllPlain;
    OuterNamesArePlain();
    if FindOpen(a, 0, TOOL_CALL_TAGS).Some? {
      FindStable(a, a + d, 0, TOOL_CALL_TAGS, false);
    }
    assert a + d == (a + d)[..n] + (a + d)[n..];
    SearchShift((a + d)[..n], (a + d)[n..]);
  }

  /** Outside a block everything but the held end is shown. */
  lemma ShownOf(y: string)
    requires FindOpen(y, 0, TOOL_CALL_TAGS).None?
    ensures Visible(Settle(y, false).pieces) == y[..KeepFrom(y, 0)]
  {
    hide FindTagFrom, TOOL_CALL_TAGS, KeepFrom, Settle, Visible;
    SettleOutside(y);
  }

  lemma ShownOutside(a: string, d: string)
    requires FindOpen(a + d, 0, TOOL_CALL_TAGS).None?
    ensures var g, h := After(a), After(a + d);
            && g.held <= h.held && g.start == 0 && !g.inBlock && !h.inBlock
            && Visible(Feed(StateAfter(a), d).pieces) == (a + d)[g.held..h.held]
  {
    hide FindOpen, TOOL_CALL_TAGS, KeepFrom, Settle, After, Feed, StateAfter, Visible;
    var n := KeepFrom(a, 0);
    var y := (a + d)[n..];
    NoTagInParts(a, d, n);
    NothingOpen(a);
    NothingOpen(a + d);
    KeepContinues(a, d);
    CutJoins(a + d, n, 0);
    SliceOfRest(a + d, n, KeepFrom(y, 0));
    StateIs(a, d, (a + d)[..n], y);
    ShownOf(y);
  }

  lemma SliceOfRest(u: string, n: nat, m: nat)
    requires n <= |u| && m <= |u[n..]|
    ensures u[n..][..m] == u[n..n + m]
  {
  }

  /** An open block shows nothing, whatever stood in front of it. */
  lemma OpenShowsNothing(prefix: string, b: string)
    requires FindClose(b, 0, TOOL_CALL_TAGS).None?
    ensures Visible(SettleBlock(prefix, b).pieces) == ""
  {
    hide FindTagFrom, TOOL_CALL_TAGS, SettleBlock, Visible;
    SettleInside(prefix, b);
  }

  lemma OpenShown(y: string, i: nat)
    requires var open := FindOpen(y, 0, TOOL_CALL_TAGS); open.Some? && open.value.0 == i
    requires FindClose(y[i..], 0, TOOL_CALL_TAGS).None?
    ensures Visible(Settle(y, false).pieces) == ""
  {
    hide FindOpen, FindClose, TOOL_CALL_TAGS, SettleBlock, Visible;
    SettleOpens(y);
    OpenShowsNothing(y[..i], y[i..]);
  }

  /** The block a text ends with, from its tag on. */
  lemma OpenBlockOf(u: string)
    requires ShortBareTags(u, false) && After(u).start == 0 && FindOpen(u, 0, TOOL_CALL_TAGS).Some?
    ensures var (p, q) := FindOpen(u, 0, TOOL_CALL_TAGS).value;
            && After(u) == Progress(0, p, true) && FindClose(u, q, TOOL_CALL_TAGS).None?
            && FindClose(u[p..], 0, TOOL_CALL_TAGS).None?
  {
    hide FindOpen, FindClose, TOOL_CALL_TAGS, ShortBareTags, After, ShortBare, EmptyBlocks, StartsBare, ParseInvokes;
    var (p, q) := FindOpen(u, 0, TOOL_CALL_TAGS).value;
    AfterUnfold(u, p, q);
    var front, b := u[..p], u[p..];
    assert u == front + b && front + b + "" == u && b + "" == b;
    OpensBare(front, b, "", false);
    AfterShift(front, b);
    FirstBlock(b);
  }

  lemma {:induction false} ShownInside(a: string, d: string)
    requires ShortBareTags(a + d, false) && After(a + d).start == 0 && FindOpen(a + d, 0, TOOL_CALL_TAGS).Some?
    ensures var g, h := After(a), After(a + d);
            && g.held <= h.held && g.start == 0 && (g.inBlock ==> h == g) && h.inBlock
            && Visible(Feed(StateAfter(a), d).pieces) == ""
  {
    hide FindOpen, FindClose, TOOL_CALL_TAGS, ShortBareTags, Settle, SettleBlock, After, Feed, StateAfter, Visible;
    var u := a + d;
    var p := FindOpen(u, 0, TOOL_CALL_TAGS).value.0;
    OpenBlockOf(u);
    StateOfOpen(a, d);
    var n := After(a).held;
    var y := u[n..];
    assert u == u[..n] + y && y[p - n..] == u[p..];
    StateIs(a, d, u[..n], y);
    if After(a).inBlock {
      SettleInBlock(y);
      OpenShowsNothing("", y);
    } else {
      SearchShift(u[..n], y);
      OpenShown(y, p - n);
    }
  }

  /** Where the accumulator stands when the text it will open its first block in has partly arrived. */
  lemma StateOfOpen(a: string, d: string)
    requires ShortBareTags(a + d, false) && FindOpen(a + d, 0, TOOL_CALL_TAGS).Some?
    requires FindClose(a + d, FindOpen(a + d, 0, TOOL_CALL_TAGS).value.1, TOOL_CALL_TAGS).None?
    ensures var p := FindOpen(a + d, 0, TOOL_CALL_TAGS).value.0;
            After(a).start == 0 && After(a).held <= p && (After(a).inBlock ==> After(a).held == p)
  {
    hide FindTagFrom, TOOL_CALL_TAGS, ShortBareTags, KeepFrom, AllPlain;
    OuterNamesArePlain();
    var (p, q) := FindOpen(a + d, 0, TOOL_CALL_TAGS).value;
    if FindOpen(a, 0, TOOL_CALL_TAGS).None? {
      NothingLetGoTooEarly(a, d, false);
    } else {
      FindStable(a, a + d, 0, TOOL_CALL_TAGS, false);
      if FindClose(a, q, TOOL_CALL_TAGS).Some? {
        FindStable(a, a + d, q, TOOL_CALL_TAGS, true);
      }
    }
  }

  lemma JoinSlices(a: string, t: string, i: nat, j: nat, k: nat)
    requires a <= t && i <= j <= k <= |t| && j <= |a|
    ensures a[i..j] + t[j..k] == t[i..k] && t[i..i] == "" && "" + t[i..i] == ""
  {
  }

  lemma ShownStep(s: Buffer, deltas: seq<string>)
    requires deltas != []
    ensures Visible(Run(s, deltas).pieces)
         == Visible(Feed(s, deltas[0]).pieces) + Visible(Run(Feed(s, deltas[0]).state, deltas[1..]).pieces)
  {
    hide Feed, Visible;
    VisibleConcat(Feed(s, deltas[0]).pieces, Run(Feed(s, deltas[0]).state, deltas[1..]).pieces);
  }

  /** While no block has closed, the whole visible text is a part of the stream's text without gaps. */
  lemma {:induction false} RunShown(a: string, deltas: seq<string>) returns (k: nat)
    requires ShortBareTags(a + Concat(deltas), false) && After(a + Concat(deltas)).start == 0
    ensures var t := a + Concat(deltas);
            && After(a).held <= k <= After(t).held && (After(a).inBlock ==> k == After(a).held)
            && Visible(Run(StateAfter(a), deltas).pieces) == t[After(a).held..k]
    decreases |deltas|
  {
    hide ShortBareTags, StateAfter, After, Feed, Visible, Run, LostAt, EmptyBlocks, TextsOf;
    k := After(a).held;
    if deltas == [] {
      assert a + "" == a;
      NoneShown(StateAfter(a));
    } else {
      var d, rest := deltas[0], deltas[1..];
      var t := a + Concat(deltas);
      assert t == a + d + Concat(rest);
      TagsInPrefix(a + d, Concat(rest));
      NothingClosedYet(a + d, Concat(rest));
      StepShown(a, d);
      Forward(a, d);
      ShownStep(StateAfter(a), deltas);
      var k' := RunShown(a + d, rest);
      var g, h := After(a), After(a + d);
      if h.inBlock {
        JoinSlices(a + d, t, g.held, g.held, g.held);
      } else {
        k := k';
        JoinSlices(a + d, t, g.held, h.held, k);
      }
    }
  }

  lemma NoneShown(s: Buffer)
    ensures Visible(Run(s, []).pieces) == ""
  {
  }

  lemma NothingClosedYet(a: string, d: string)
    requires After(a + d).start == 0
    ensures After(a).start == 0
  {
    hide FindOpen, FindClose, TOOL_CALL_TAGS, KeepFrom;
    var open := FindOpen(a, 0, TOOL_CALL_TAGS);
    if open.Some? && FindClose(a, open.value.1, TOOL_CALL_TAGS).Some? {
      FirstTagsStay(a, d);
    }
  }

  /** While no block has closed, all text shown so far, put together, holds no outer opening tag. */
  lemma ShownTogetherHasNoTag(deltas: seq<string>)
    requires ShortBareTags(Concat(deltas), false) && After(Concat(deltas)).start == 0
    ensures FindOpen(Visible(Run(EMPTY, deltas).pieces), 0, TOOL_CALL_TAGS).None?
  {
    hide ShortBareTags, Run, StateAfter, FindOpen, FindClose, Visible, TOOL_CALL_TAGS, KeepFrom;
    var t := Concat(deltas);
    assert "" + t == t;
    NothingYet();
    var k := RunShown("", deltas);
    assert t[0..k] == t[..k];
    NoTagBefore(t, k);
  }

  // ---------- Tags in the cleaned text ----------

  /** A place of the cleaned text where a block was taken out. */
  predicate Joint(t: string, j: nat)
    decreases |t|
  {
    var open := FindOpen(t, 0, TOOL_CALL_TAGS);
    open.Some? &&
    var (p, q) := open.value;
    var close := FindClose(t, q, TOOL_CALL_TAGS);
    close.Some? && (j == p || (j >= p && Joint(t[close.value.1..], j - p)))
  }

  /** An opening tag reaches over such a place. */
  predicate Straddles(t: string, k: nat, j: nat) {
    var e := MatchTagAt(Extract(t).text, k, TOOL_CALL_TAGS, false);
    Joint(t, j) && e.Some? && k < j < e.value
  }

  /** A tag found in a text with `a`, which holds none, in front: in the rest, or reaching over the end of `a`. */
  lemma FoundBehind(a: string, u: string)
    requires FindOpen(a, 0, TOOL_CALL_TAGS).None? && FindOpen(a + u, 0, TOOL_CALL_TAGS).Some?
    ensures var (k, m) := FindOpen(a + u, 0, TOOL_CALL_TAGS).value;
            && |a| < m
            && (|a| <= k ==> FindOpen(u, 0, TOOL_CALL_TAGS) == Some((k - |a|, m - |a|)))
  {
    hide FindTagFrom, MatchTagAt, TOOL_CALL_TAGS, AllPlain;
    OuterNamesArePlain();
    var (k, m) := FindOpen(a + u, 0, TOOL_CALL_TAGS).value;
    assert (a + u)[|a|..] == u;
    if m <= |a| {
      FindWithin(a, a + u, 0, TOOL_CALL_TAGS, false);
    } else if |a| <= k {
      FindFromLater(a + u, 0, |a|, TOOL_CALL_TAGS, false);
      FindShift(u, a + u, 0, |a|, TOOL_CALL_TAGS, false);
    }
  }

  /** A first block that holds a call is taken out. */
  lemma BlockTakenOut(t: string, p: nat, q: nat, c: nat, e: nat)
    requires FindOpen(t, 0, TOOL_CALL_TAGS) == Some((p, q)) && q <= |t|
    requires FindClose(t, q, TOOL_CALL_TAGS) == Some((c, e)) && EmptyBlocks(t) == []
    ensures p <= e <= |t| && Extract(t).text == t[..p] + Extract(t[e..]).text
    ensures EmptyBlocks(t[e..]) == [] && After(t[e..]).inBlock == After(t).inBlock
  {
    hide FindOpen, FindClose, TOOL_CALL_TAGS, After, EmptyBlocks, Extract, ParseInvokes;
    ExtractBlock(t, p, q, c, e);
    AfterUnfold(t, p, q);
    assert t[..p] + "" == t[..p];
  }

  lemma {:induction false} FirstTagStraddles(t: string) returns (j: nat)
    requires EmptyBlocks(t) == [] && !After(t).inBlock && FindOpen(Extract(t).text, 0, TOOL_CALL_TAGS).Some?
    ensures var (k, m) := FindOpen(Extract(t).text, 0, TOOL_CALL_TAGS).value; Joint(t, j) && k < j < m
    decreases |t|
  {
    hide FindOpen, FindClose, TOOL_CALL_TAGS, After, EmptyBlocks, Extract, ParseInvokes, Joint;
    j := 0;
    var open := FindOpen(t, 0, TOOL_CALL_TAGS);
    if open.None? {
      ExtractUnfinished(t);
    } else {
      var (p, q) := open.value;
      var close := FindClose(t, q, TOOL_CALL_TAGS);
      if close.None? {
        AfterUnfold(t, p, q);
      } else {
        var (c, e) := close.value;
        BlockTakenOut(t, p, q, c, e);
        NoTagBefore(t, p);
        var a, u := t[..p], Extract(t[e..]).text;
        FoundBehind(a, u);
        var (k, m) := FindOpen(a + u, 0, TOOL_CALL_TAGS).value;
        j := p;
        if p <= k {
          j := FirstTagStraddles(t[e..]);
          j := j + p;
        }
        JointAt(t, p, q, c, e, j);
      }
    }
  }

  lemma JointAt(t: string, p: nat, q: nat, c: nat, e: nat, j: nat)
    requires FindOpen(t, 0, TOOL_CALL_TAGS) == Some((p, q)) && q <= |t|
    requires FindClose(t, q, TOOL_CALL_TAGS) == Some((c, e)) && e <= |t|
    ensures Joint(t, j) <==> j == p || (j >= p && Joint(t[e..], j - p))
  {
    hide FindOpen, FindClose, TOOL_CALL_TAGS;
  }

  /**
   * When every block of a text closes and holds a call, the cleaned text holds an outer opening tag if and only if one
   * reaches over a place where a block was taken out.
   */
  lemma CleanedHoldsTagIff(t: string)
    requires EmptyBlocks(t) == [] && !After(t).inBlock
    ensures FindOpen(Extract(t).text, 0, TOOL_CALL_TAGS).Some? <==> exists k, j :: Straddles(t, k, j)
  {
    hide MatchTagAt, TOOL_CALL_TAGS, After, EmptyBlocks, Extract, Joint;
    if FindOpen(Extract(t).text, 0, TOOL_CALL_TAGS).Some? {
      var j := FirstTagStraddles(t);
      assert Straddles(t, FindOpen(Extract(t).text, 0, TOOL_CALL_TAGS).value.0, j);
    }
    if k, j :| Straddles(t, k, j) {
      NoTagAnywhere(Extract(t).text, k);
    }
  }

  lemma NoTagAnywhere(t: string, k: nat)
    requires MatchTagAt(t, k, TOOL_CALL_TAGS, false).Some?
    ensures FindOpen(t, 0, TOOL_CALL_TAGS).Some?
  {
    hide MatchTagAt, TOOL_CALL_TAGS;
    assert k < |t|;
  }

  /** So does what a stream shows, flush included, when it shows the cleaned text. */
  lemma ShownHoldsTagIff(deltas: seq<string>)
    requires ShortBareTags(Concat(deltas), true) && !After(Concat(deltas)).inBlock
    requires forall k :: 0 <= k < |deltas| ==> !LosesAt("", deltas, k)
    ensures var o := Run(EMPTY, deltas);
            FindOpen(Visible(o.pieces) + o.state.buf, 0, TOOL_CALL_TAGS).Some?
            <==> exists k, j :: Straddles(Concat(deltas), k, j)
  {
    hide ShortBareTags, After, EmptyBlocks, Extract, Run, Visible, LosesAt, FindOpen, TOOL_CALL_TAGS, Straddles;
    YieldingMeans(Concat(deltas));
    VisibleIsCleaned(deltas);
    CleanedHoldsTagIff(Concat(deltas));
  }
}
