/**
 * The newest events of an append-only log with one event per line: reading a tail window against a full scan.
 * Parsing a line is a parameter.
 */
module AuditLog {
  import opened Sequences
  import opened Wrappers
  import opened Bytes

  const AVERAGE_LINE := 200

  function FirstLf(s: seq<Byte>, from: nat): (i: nat)
    requires from <= |s|
    ensures from <= i <= |s|
    ensures i < |s| ==> s[i] == LF
    ensures forall k :: from <= k < i ==> s[k] != LF
    decreases |s| - from
  {
    if from == |s| || s[from] == LF then from else FirstLf(s, from + 1)
  }

  /** The lines of a text that are not empty. */
  function Lines(s: seq<Byte>): seq<seq<Byte>>
    decreases |s|
  {
    var i := FirstLf(s, 0);
    (if i == 0 then [] else [s[..i]]) + if i == |s| then [] else Lines(s[i + 1..])
  }

  /** The events of those lines that parse. */
  function Parsed<E>(lines: seq<seq<Byte>>, parse: seq<Byte> -> Option<E>): seq<E>
    decreases |lines|
  {
    if lines == [] then []
    else
      var e := parse(lines[|lines| - 1]);
      Parsed(lines[..|lines| - 1], parse) + if e.Some? then [e.value] else []
  }

  function Last<T>(xs: seq<T>, n: nat): seq<T> {
    if |xs| <= n then xs else xs[|xs| - n..]
  }

  /** The last `count` events of the whole file. */
  function All<E>(file: seq<Byte>, count: nat, parse: seq<Byte> -> Option<E>): seq<E> {
    Last(Parsed(Lines(file), parse), count)
  }

  /** Where the window starts. */
  function WindowStart(file: seq<Byte>, count: nat): (k: nat)
    ensures k <= |file|
  {
    var estimate := count * AVERAGE_LINE;
    if estimate <= |file| then |file| - estimate else 0
  }

  function Recent<E>(file: seq<Byte>, count: nat, parse: seq<Byte> -> Option<E>): seq<E> {
    if count == 0 || file == [] then []
    else
      var lines := Lines(file[WindowStart(file, count)..]);
      if |lines| < count then All(file, count, parse) else Parsed(Last(lines, count), parse)
  }

  method ReadRecent<E>(file: seq<Byte>, count: nat, parse: seq<Byte> -> Option<E>) returns (events: seq<E>)
    ensures events == Recent(file, count, parse)
  {
    hide Lines;
    if count == 0 {
      return [];
    }
    if |file| == 0 {
      return [];
    }
    var estimate := count * AVERAGE_LINE;
    var seekBack := if estimate < |file| then estimate else |file|;
    var buf := file[|file| - seekBack..];
    var lines := SplitLines(buf);
    if |lines| < count {
      events := ReadAll(file, count, parse);
      return;
    }
    var tail := lines[|lines| - count..];
    events := ParseLines(tail, parse);
  }

  method ReadAll<E>(file: seq<Byte>, count: nat, parse: seq<Byte> -> Option<E>) returns (events: seq<E>)
    ensures events == All(file, count, parse)
  {
    var lines := SplitLines(file);
    events := ParseLines(lines, parse);
    if |events| > count {
      events := events[|events| - count..];
    }
  }

  method SplitLines(s: seq<Byte>) returns (lines: seq<seq<Byte>>)
    ensures lines == Lines(s)
  {
    hide FirstLf, Lines;
    lines := [];
    var from := 0;
    var more := true;
    assert s[0..] == s && [] + Lines(s) == Lines(s);
    while more
      invariant 0 <= from <= |s|
      invariant Lines(s) == if more then lines + Lines(s[from..]) else lines
      decreases more, |s| - from
    {
      var rest := s[from..];
      var i := FirstLf(rest, 0);
      LinesUnfold(rest);
      if i > 0 {
        lines := lines + [rest[..i]];
      }
      if i == |rest| {
        more := false;
      } else {
        assert rest[i + 1..] == s[from + i + 1..];
        from := from + i + 1;
      }
    }
  }

  method ParseLines<E>(lines: seq<seq<Byte>>, parse: seq<Byte> -> Option<E>) returns (events: seq<E>)
    ensures events == Parsed(lines, parse)
  {
    events := [];
    var k := 0;
    while k < |lines|
      invariant 0 <= k <= |lines|
      invariant events == Parsed(lines[..k], parse)
    {
      assert lines[..k + 1][..k] == lines[..k];
      var e := parse(lines[k]);
      if e.Some? {
        events := events + [e.value];
      }
      k := k + 1;
    }
    assert lines[..k] == lines;
  }

  // ---- Cutting a text ----

  /** The cut is inside a line. */
  predicate Torn(a: seq<Byte>, b: seq<Byte>) {
    a != [] && b != [] && a[|a| - 1] != LF && b[0] != LF
  }

  lemma {:induction false} LinesUnfold(s: seq<Byte>)
    ensures var i := FirstLf(s, 0);
            Lines(s) == (if i == 0 then [] else [s[..i]]) + if i == |s| then [] else Lines(s[i + 1..])
  {
    hide FirstLf;
  }

  /** The text before the first line feed, if there is any. */
  function Front(s: seq<Byte>, i: nat): seq<seq<Byte>>
    requires i <= |s|
  {
    if i == 0 then [] else [s[..i]]
  }

  predicate FirstAt(s: seq<Byte>, i: nat) {
    i <= |s| && (i < |s| ==> s[i] == LF) && forall k :: 0 <= k < i ==> s[k] != LF
  }

  lemma LinesFrom(s: seq<Byte>, i: nat)
    requires FirstAt(s, i)
    ensures Lines(s) == if i == |s| then Front(s, i) else Front(s, i) + Lines(s[i + 1..])
  {
    hide Lines;
    assert FirstLf(s, 0) == i;
    LinesUnfold(s);
    assert Front(s, i) + [] == Front(s, i);
  }

  lemma FirstLfIs(s: seq<Byte>)
    ensures FirstAt(s, FirstLf(s, 0))
  {
    hide FirstLf;
  }

  /** Only what follows the first line feed of `a` depends on what is appended. */
  lemma LinesPrefix(a: seq<Byte>, b: seq<Byte>, i: nat)
    requires FirstAt(a, i) && i < |a|
    ensures Lines(a + b) == Front(a, i) + Lines(a[i + 1..] + b)
  {
    hide Lines;
    assert FirstAt(a + b, i);
    LinesFrom(a + b, i);
    assert (a + b)[..i] == a[..i] && (a + b)[i + 1..] == a[i + 1..] + b;
  }

  /** Text without a line feed joins the first line of what follows. */
  lemma {:induction false} LinesJoin(a: seq<Byte>, b: seq<Byte>, j: nat)
    requires a != [] && FirstAt(a, |a|) && FirstAt(b, j)
    ensures Lines(a) == [a]
    ensures Lines(a + b) == [a + b[..j]] + if j == |b| then [] else Lines(b[j + 1..])
  {
    hide Lines;
    LinesFrom(a, |a|);
    assert a[..|a|] == a;
    var ab := a + b;
    assert forall k :: 0 <= k < |ab| ==> ab[k] == if k < |a| then a[k] else b[k - |a|];
    assert FirstAt(ab, |a| + j);
    LinesFrom(ab, |a| + j);
    assert ab[..|a| + j] == a + b[..j];
    if j < |b| {
      assert ab[|a| + j + 1..] == b[j + 1..];
    } else {
      assert [a + b[..j]] + [] == [a + b[..j]];
    }
  }

  lemma NoLines()
    ensures Lines([]) == []
  {
  }

  /** At a line boundary the lines of the parts are the lines of the whole. */
  lemma {:induction false} LinesAtBoundary(a: seq<Byte>, b: seq<Byte>)
    requires !Torn(a, b)
    ensures Lines(a + b) == Lines(a) + Lines(b)
    decreases |a|
  {
    hide Lines, FirstLf, FirstAt, Front;
    NoLines();
    if a == [] {
      assert a + b == b && [] + Lines(b) == Lines(b);
    } else if b == [] {
      assert a + b == a && Lines(a) + [] == Lines(a);
    } else {
      var i := FirstLf(a, 0);
      FirstLfIs(a);
      if i < |a| {
        LinesFrom(a, i);
        LinesPrefix(a, b, i);
        LinesAtBoundary(a[i + 1..], b);
        Regroup(Front(a, i), Lines(a[i + 1..]), Lines(b));
      } else {
        StartsWithLf(b);
        LinesJoin(a, b, 0);
        assert a + b[..0] == a;
      }
    }
  }

  lemma StartsWithLf(b: seq<Byte>)
    requires b != [] && b[0] == LF
    ensures FirstAt(b, 0) && Lines(b) == Lines(b[1..])
  {
    hide Lines;
    LinesFrom(b, 0);
    assert [] + Lines(b[1..]) == Lines(b[1..]);
  }

  /** The lines of a text that was cut inside a line. */
  function Mended(front: seq<seq<Byte>>, back: seq<seq<Byte>>): seq<seq<Byte>>
    requires front != [] && back != []
  {
    front[..|front| - 1] + ([front[|front| - 1] + back[0]] + back[1..])
  }

  /** Inside a line, the last line of the front and the first of the back are parts of one line of the whole. */
  lemma {:induction false} LinesTorn(a: seq<Byte>, b: seq<Byte>)
    requires Torn(a, b)
    ensures Lines(a) != [] && Lines(b) != []
    ensures Lines(a + b) == Mended(Lines(a), Lines(b))
    decreases |a|
  {
    hide Lines, FirstLf, FirstAt, Front, Mended;
    var i := FirstLf(a, 0);
    FirstLfIs(a);
    if i < |a| {
      var rest := a[i + 1..];
      LinesFrom(a, i);
      LinesPrefix(a, b, i);
      LinesTorn(rest, b);
      MendedBehind(Front(a, i), Lines(rest), Lines(b));
    } else {
      TornLine(a, b);
    }
  }

  lemma MendedBehind(head: seq<seq<Byte>>, front: seq<seq<Byte>>, back: seq<seq<Byte>>)
    requires front != [] && back != []
    ensures Mended(head + front, back) == head + Mended(front, back)
  {
    PushFront(head, front);
    Regroup(head, front[..|front| - 1], [front[|front| - 1] + back[0]] + back[1..]);
  }

  lemma TornLine(a: seq<Byte>, b: seq<Byte>)
    requires a != [] && b != [] && FirstAt(a, |a|) && b[0] != LF
    ensures Lines(a) == [a] && Lines(b) != [] && Lines(a + b) == Mended([a], Lines(b))
  {
    hide Lines, FirstLf;
    var j := FirstLf(b, 0);
    FirstLfIs(b);
    LinesJoin(a, b, j);
    LinesFrom(b, j);
    var after := if j == |b| then [] else Lines(b[j + 1..]);
    assert Lines(b) == [b[..j]] + after;
    assert Lines(b)[0] == b[..j] && Lines(b)[1..] == after && [a][..0] == [];
    assert [] + ([a + b[..j]] + after) == [a + b[..j]] + after;
  }

  lemma PushFront<T>(head: seq<T>, front: seq<T>)
    requires front != []
    ensures (head + front)[..|head + front| - 1] == head + front[..|front| - 1]
    ensures (head + front)[|head + front| - 1] == front[|front| - 1]
  {
  }

  // ---- When the window shows what the full scan shows ----

  predicate AllParse<E>(lines: seq<seq<Byte>>, parse: seq<Byte> -> Option<E>) {
    forall k :: 0 <= k < |lines| ==> parse(lines[k]).Some?
  }

  lemma {:induction false} ParsedAll<E>(lines: seq<seq<Byte>>, parse: seq<Byte> -> Option<E>)
    requires AllParse(lines, parse)
    ensures |Parsed(lines, parse)| == |lines|
    ensures forall k :: 0 <= k < |lines| ==> Parsed(lines, parse)[k] == parse(lines[k]).value
    decreases |lines|
  {
    if lines != [] {
      ParsedAll(lines[..|lines| - 1], parse);
    }
  }

  lemma {:induction false} ParsedFirst<E>(line: seq<Byte>, lines: seq<seq<Byte>>, parse: seq<Byte> -> Option<E>)
    ensures Parsed([line] + lines, parse)
         == (if parse(line).Some? then [parse(line).value] else []) + Parsed(lines, parse)
    decreases |lines|
  {
    var all := [line] + lines;
    if lines == [] {
      assert all == [line] && [line][..0] == [];
    } else {
      var init, last := lines[..|lines| - 1], lines[|lines| - 1];
      assert all[..|all| - 1] == [line] + init;
      ParsedFirst(line, init, parse);
      Regroup(if parse(line).Some? then [parse(line).value] else [], Parsed(init, parse),
              if parse(last).Some? then [parse(last).value] else []);
    }
  }

  /** If the last `count` lines are the same, so are the events. */
  lemma {:induction false} SameTail<E>(all: seq<seq<Byte>>, lines: seq<seq<Byte>>, count: nat,
                                       parse: seq<Byte> -> Option<E>)
    requires AllParse(all, parse) && |all| >= count && |lines| >= count
    requires all[|all| - count..] == lines[|lines| - count..]
    ensures Parsed(Last(lines, count), parse) == Last(Parsed(all, parse), count)
  {
    var tail := all[|all| - count..];
    assert Last(lines, count) == tail;
    assert forall k :: 0 <= k < |tail| ==> tail[k] == all[|all| - count + k];
    ParsedAll(all, parse);
    ParsedAll(tail, parse);
    assert Parsed(tail, parse) == Last(Parsed(all, parse), count);
  }

  /** The window cuts a line and holds exactly `count` lines, the torn one first. */
  predicate CutsNeededLine(file: seq<Byte>, count: nat) {
    var k := WindowStart(file, count);
    Torn(file[..k], file[k..]) && |Lines(file[k..])| == count
  }

  lemma CutLineIsThere(file: seq<Byte>, count: nat)
    requires count > 0 && CutsNeededLine(file, count)
    ensures var k := WindowStart(file, count);
            && |Lines(file)| >= count && Lines(file[k..]) != []
            && Lines(file[..k]) != []
            && Lines(file)[|Lines(file)| - count]
               == Lines(file[..k])[|Lines(file[..k])| - 1] + Lines(file[k..])[0]
            && Lines(file)[|Lines(file)| - count + 1..] == Lines(file[k..])[1..]
  {
    hide Lines, WindowStart;
    var k := WindowStart(file, count);
    assert file == file[..k] + file[k..];
    LinesTorn(file[..k], file[k..]);
  }

  /**
   * On a log whose every line parses, the tail reader returns the last `count` events of the full scan, unless the
   * window starts inside the first line it needs and what is left of that line does not parse to the same.
   */
  lemma {:induction false} RecentIsAllIff<E>(file: seq<Byte>, count: nat, parse: seq<Byte> -> Option<E>)
    requires AllParse(Lines(file), parse)
    ensures CutsNeededLine(file, count) && count > 0 ==>
              |Lines(file)| >= count && Lines(file[WindowStart(file, count)..]) != []
    ensures Recent(file, count, parse) == All(file, count, parse)
       <==> !(count > 0 && CutsNeededLine(file, count)
              && parse(Lines(file[WindowStart(file, count)..])[0]) != parse(Lines(file)[|Lines(file)| - count]))
  {
    hide Lines, WindowStart, Torn, Parsed, Last;
    var k := WindowStart(file, count);
    var front, back := file[..k], file[k..];
    assert file == front + back;
    if count == 0 {
      NothingAsked(Parsed(Lines(file), parse));
    } else if file == [] {
      NoLines();
      NothingParsed<E>(parse, count);
    } else if |Lines(back)| >= count {
      if CutsNeededLine(file, count) {
        CutLineIsThere(file, count);
        TornResult(Lines(file), Lines(back), count, parse);
      } else {
        TailIsWhole(front, back, count);
        SameTail(Lines(file), Lines(back), count, parse);
      }
    }
  }

  lemma NothingAsked<T>(xs: seq<T>)
    ensures Last(xs, 0) == []
  {
  }

  lemma NothingParsed<E>(parse: seq<Byte> -> Option<E>, count: nat)
    ensures Last(Parsed([], parse), count) == []
  {
  }

  lemma {:induction false} TailIsWhole(front: seq<Byte>, back: seq<Byte>, count: nat)
    requires |Lines(back)| >= count && !(Torn(front, back) && |Lines(back)| == count)
    ensures var all, lines := Lines(front + back), Lines(back);
            |all| >= count && all[|all| - count..] == lines[|lines| - count..]
  {
    hide Lines, Torn;
    var all, lines := Lines(front + back), Lines(back);
    if Torn(front, back) {
      LinesTorn(front, back);
      assert all[|all| - (|lines| - 1)..] == lines[1..];
      assert all[|all| - count..] == all[|all| - (|lines| - 1)..][|lines| - 1 - count..];
    } else {
      LinesAtBoundary(front, back);
    }
  }

  lemma {:induction false} TornResult<E>(all: seq<seq<Byte>>, lines: seq<seq<Byte>>, count: nat,
                                         parse: seq<Byte> -> Option<E>)
    requires AllParse(all, parse) && 0 < count == |lines| && |all| >= count
    requires all[|all| - count + 1..] == lines[1..]
    ensures Parsed(Last(lines, count), parse) == Last(Parsed(all, parse), count)
       <==> parse(lines[0]) == parse(all[|all| - count])
  {
    var whole := all[|all| - count];
    var tail := all[|all| - count..];
    SameTail(all, tail, count, parse);
    assert tail == [whole] + lines[1..] && lines == [lines[0]] + lines[1..];
    ParsedFirst(whole, lines[1..], parse);
    ParsedFirst(lines[0], lines[1..], parse);
    SameHead(parse(lines[0]), parse(whole).value, Parsed(lines[1..], parse));
  }

  lemma SameHead<E>(a: Option<E>, b: E, rest: seq<E>)
    ensures (if a.Some? then [a.value] else []) + rest == [b] + rest <==> a == Some(b)
  {
    var left, right := (if a.Some? then [a.value] else []) + rest, [b] + rest;
    if a.Some? {
      assert left[0] == a.value && right[0] == b;
    } else {
      assert |left| != |right|;
    }
  }

  lemma {:induction false} ParsedConcat<E>(a: seq<seq<Byte>>, b: seq<seq<Byte>>, parse: seq<Byte> -> Option<E>)
    ensures Parsed(a + b, parse) == Parsed(a, parse) + Parsed(b, parse)
    decreases |b|
  {
    if b == [] {
      assert a + b == a && Parsed(a, parse) + [] == Parsed(a, parse);
    } else {
      var init, last := b[..|b| - 1], b[|b| - 1];
      assert (a + b)[..|a + b| - 1] == a + init;
      ParsedConcat(a, init, parse);
      Regroup(Parsed(a, parse), Parsed(init, parse), if parse(last).Some? then [parse(last).value] else []);
    }
  }

  lemma {:induction false} ParsedAtMost<E>(lines: seq<seq<Byte>>, parse: seq<Byte> -> Option<E>)
    ensures |Parsed(lines, parse)| <= |lines|
    decreases |lines|
  {
    if lines != [] {
      ParsedAtMost(lines[..|lines| - 1], parse);
    }
  }

  /**
   * On any log, lines that do not parse included: unless the window cuts a line it needs, the tail reader returns the
   * newest events of the full scan, namely those on the last `count` lines; so it returns all of them if and only if as
   * many of these lines parse as the full scan has events.
   */
  lemma {:induction false} RecentIsNewest<E>(file: seq<Byte>, count: nat, parse: seq<Byte> -> Option<E>)
    requires |Lines(file[WindowStart(file, count)..])| >= count && !CutsNeededLine(file, count)
    ensures |Lines(file)| >= count
    ensures var recent, all := Recent(file, count, parse), All(file, count, parse);
            && recent == Parsed(Lines(file)[|Lines(file)| - count..], parse)
            && |recent| <= |all| && recent == all[|all| - |recent|..]
            && (recent == all <==> |recent| == |all|)
  {
    hide Lines, WindowStart, Torn, Parsed;
    var k := WindowStart(file, count);
    var front, back := file[..k], file[k..];
    assert file == front + back;
    TailIsWhole(front, back, count);
    var lines := Lines(file);
    var older, tail := lines[..|lines| - count], lines[|lines| - count..];
    assert lines == older + tail;
    ParsedConcat(older, tail, parse);
    ParsedAtMost(tail, parse);
    assert Last(Lines(back), count) == tail;
    NoLines();
    NoneParsed<E>(parse);
  }

  lemma NoneParsed<E>(parse: seq<Byte> -> Option<E>)
    ensures Parsed([], parse) == []
  {
  }

  /** A single event on a line longer than the window is not shown when one event is asked for. */
  lemma LongLineIsMissed<E>(line: seq<Byte>, parse: seq<Byte> -> Option<E>)
    requires |line| >= AVERAGE_LINE && LF !in line
    requires parse(line).Some? && parse(line[|line| - (AVERAGE_LINE - 1)..]).None?
    ensures All(line + [LF], 1, parse) == [parse(line).value]
    ensures Recent(line + [LF], 1, parse) == []
  {
    hide FirstLf, Lines;
    var file, n := line + [LF], |line|;
    var piece := line[n - (AVERAGE_LINE - 1)..];
    assert file[|file| - AVERAGE_LINE..] == piece + [LF];
    assert forall k :: 0 <= k < |piece| ==> piece[k] == line[n - (AVERAGE_LINE - 1) + k];
    OneClosedLine(line);
    OneClosedLine(piece);
    ParsedFirst(piece, [], parse);
    ParsedFirst(line, [], parse);
    assert [piece] + [] == [piece] && [line] + [] == [line];
    assert WindowStart(file, 1) == |file| - AVERAGE_LINE;
    assert Last([piece], 1) == [piece];
  }

  lemma OneClosedLine(line: seq<Byte>)
    requires line != [] && LF !in line
    ensures Lines(line + [LF]) == [line]
  {
    hide Lines;
    LinesFrom(line + [LF], |line|);
    assert (line + [LF])[..|line|] == line && (line + [LF])[|line| + 1..] == [];
    NoLines();
    assert [line] + [] == [line];
  }
}
