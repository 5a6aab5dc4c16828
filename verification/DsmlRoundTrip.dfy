/**
 * Printing and parsing back. A document of free text and printed tool-call blocks, in any accepted spelling, is parsed
 * to exactly the calls that were printed, whole or streamed in any pieces. The last part shows on printed documents
 * where the stream shows the user less than the batch parser would.
 */
module DsmlRoundTrip {
  import opened Wrappers
  import opened Text
  import opened DsmlTags
  import opened DsmlPartial
  import opened DsmlParse
  import opened DsmlStream
  import opened DsmlRefinement
  import DsmlCuts
  import opened DsmlRuns
  import opened DsmlPrint

  // ---------- Printing ----------

  /** A parameter; unless it is a string it may be printed without saying so. */
  datatype Param = Param(name: string, value: ArgValue, marked: bool)

  datatype Invocation = Invocation(name: string, params: seq<Param>)

  function ParamAttrs(st: Style, p: Param): string {
    NameAttrs(st.quote, p.name, if p.marked then StringAttr(st.quote, p.value.StringValue?) else "")
  }

  function PrintParams(st: Style, ps: seq<Param>): string
    decreases |ps|
  {
    if ps == [] then st.sep
    else
      st.sep + Element(st, "parameter", ParamAttrs(st, ps[0]), ps[0].value.text) + PrintParams(st, ps[1..])
  }

  function PrintInvocations(st: Style, cs: seq<Invocation>): string
    decreases |cs|
  {
    if cs == [] then st.sep
    else
      var attrs := NameAttrs(st.quote, cs[0].name, "");
      st.sep + Element(st, "invoke", attrs, PrintParams(st, cs[0].params)) + PrintInvocations(st, cs[1..])
  }

  function PrintBlock(st: Style, cs: seq<Invocation>): string {
    Element(st, st.wrapper, "", PrintInvocations(st, cs))
  }

  function AddAll(acc: map<string, ArgValue>, ps: seq<Param>): map<string, ArgValue>
    decreases |ps|
  {
    if ps == [] then acc else AddAll(acc[ps[0].name := ps[0].value], ps[1..])
  }

  function ToCall(c: Invocation): Call {
    Call(c.name, AddAll(map[], c.params))
  }

  function ToCalls(cs: seq<Invocation>): (r: seq<Call>)
    ensures |r| == |cs| && forall i :: 0 <= i < |cs| ==> r[i] == ToCall(cs[i])
    decreases |cs|
  {
    if cs == [] then [] else [ToCall(cs[0])] + ToCalls(cs[1..])
  }

  // ---------- What can be printed ----------

  predicate PrintableName(st: Style, name: string) {
    st.quote !in name && '>' !in name
  }

  predicate PrintableParam(st: Style, p: Param) {
    && (p.value.StringValue? ==> p.marked)
    && PrintableName(st, p.name) && FindFrom(p.name, "string=", 0).None?
    && NoClose(p.value.text, PARAMETER_TAGS) && NoClose(p.value.text, INVOKE_TAGS) && NoClose(p.value.text, TOOL_CALL_TAGS)
  }

  predicate Printable(st: Style, c: Invocation) {
    PrintableName(st, c.name) && forall p :: p in c.params ==> PrintableParam(st, p)
  }

  predicate AllPrintable(st: Style, cs: seq<Invocation>) {
    forall c :: c in cs ==> Printable(st, c)
  }

  lemma SepHoldsNoTag(st: Style)
    requires Accepted(st)
    ensures '<' !in st.sep
  {
    assert !IsWhitespace('<');
  }

  lemma InnerNames()
    ensures Distinguished("parameter", PARAMETER_TAGS) && Distinguished("invoke", INVOKE_TAGS)
    ensures AllPlain(PARAMETER_TAGS) && AllPlain(INVOKE_TAGS) && AllPlain(TOOL_CALL_TAGS)
    ensures forall n :: n in INVOKE_TAGS || n in TOOL_CALL_TAGS ==> n[0] != "parameter"[0]
    ensures forall n :: n in TOOL_CALL_TAGS ==> n[0] != "invoke"[0]
  {
    InnerNamesArePlain();
    OuterNamesArePlain();
  }

  lemma AttrsArePrinted(st: Style, name: string, more: string)
    requires Accepted(st) && PrintableName(st, name)
    requires more == "" || more == StringAttr(st.quote, true) || more == StringAttr(st.quote, false)
    ensures var attrs := NameAttrs(st.quote, name, more);
            Attributes(attrs, false) && attrs != "" && IsQuote(attrs[|attrs| - 1])
  {
    assert '>' !in Quoted(st.quote, "name", name);
    assert '>' !in more;
  }

  lemma AttrsOfParam(st: Style, p: Param)
    requires Accepted(st) && PrintableName(st, p.name)
    ensures var attrs := ParamAttrs(st, p); Attributes(attrs, false) && attrs != "" && IsQuote(attrs[|attrs| - 1])
  {
    hide NameAttrs, StringAttr, Accepted, PrintableName, IsQuote;
    AttrsArePrinted(st, p.name, if p.marked then StringAttr(st.quote, p.value.StringValue?) else "");
  }

  // ---------- Round trips ----------

  lemma {:induction false} ParamsNoClose(st: Style, ps: seq<Param>, names: seq<string>)
    requires Accepted(st) && (names == INVOKE_TAGS || names == TOOL_CALL_TAGS)
    requires forall p :: p in ps ==> PrintableParam(st, p)
    ensures NoClose(PrintParams(st, ps), names)
    decreases |ps|
  {
    hide TOOL_CALL_TAGS, INVOKE_TAGS, PARAMETER_TAGS, MARKERS, NoClose, Accepted, Distinguished, AllPlain, Attributes,
      Element, NameAttrs, StringAttr, PrintableName;
    InnerNames();
    SepHoldsNoTag(st);
    if ps == [] {
      NoTagInBlank(st.sep, names);
    } else {
      var p := ps[0];
      assert PrintableParam(st, p);
      ParamsNoClose(st, ps[1..], names);
      AttrsOfParam(st, p);
      ElementNoClose(st, "parameter", ParamAttrs(st, p), PARAMETER_TAGS, names, st.sep, p.value.text,
                     PrintParams(st, ps[1..]));
    }
  }

  lemma {:induction false} InvocationsNoClose(st: Style, cs: seq<Invocation>)
    requires Accepted(st) && AllPrintable(st, cs)
    ensures NoClose(PrintInvocations(st, cs), TOOL_CALL_TAGS)
    decreases |cs|
  {
    hide TOOL_CALL_TAGS, INVOKE_TAGS, MARKERS, NoClose, Accepted, Distinguished, AllPlain, Attributes, Element, NameAttrs,
      PrintableName, PrintParams;
    InnerNames();
    SepHoldsNoTag(st);
    if cs == [] {
      NoTagInBlank(st.sep, TOOL_CALL_TAGS);
    } else {
      var c := cs[0];
      assert Printable(st, c);
      InvocationsNoClose(st, cs[1..]);
      AttrsArePrinted(st, c.name, "");
      ParamsNoClose(st, c.params, TOOL_CALL_TAGS);
      ElementNoClose(st, "invoke", NameAttrs(st.quote, c.name, ""), INVOKE_TAGS, TOOL_CALL_TAGS, st.sep,
                     PrintParams(st, c.params),
                     PrintInvocations(st, cs[1..]));
    }
  }

  /** One parameter at the front of a text is read back and the rest is parsed. */
  lemma ParamStep(st: Style, p: Param, rest: string, acc: map<string, ArgValue>)
    requires Accepted(st) && PrintableParam(st, p)
    ensures var attrs := ParamAttrs(st, p);
            ParseParameters(st.sep + Element(st, "parameter", attrs, p.value.text) + rest, acc) ==
            ParseParameters(rest, acc[p.name := p.value])
  {
    hide TOOL_CALL_TAGS, INVOKE_TAGS, PARAMETER_TAGS, MARKERS, NoClose, Accepted, Distinguished, AllPlain, Attributes,
      Element, NameAttrs, StringAttr, FindOpen, FindClose, Tag, ExtractAttr;
    InnerNames();
    SepHoldsNoTag(st);
    var isString, attrs := p.value.StringValue?, ParamAttrs(st, p);
    AttrsOfParam(st, p);
    BlankLeads(st.sep, Tag("<", st, "parameter", attrs), PARAMETER_TAGS);
    ElementFound(st, "parameter", attrs, PARAMETER_TAGS, st.sep, p.value.text, rest);
    assert '=' !in "parameter";
    NameReadBack(st, "parameter", p.name, if p.marked then StringAttr(st.quote, isString) else "");
    if p.marked {
      StringReadBack(st, p.name, isString);
    } else {
      StringNotThere(st, p.name);
    }
    assert "true" != "false";
  }

  /** Printed parameters are read back, in order, into the argument map. */
  lemma {:induction false} ParamsRoundTrip(st: Style, ps: seq<Param>, acc: map<string, ArgValue>)
    requires Accepted(st) && forall p :: p in ps ==> PrintableParam(st, p)
    ensures ParseParameters(PrintParams(st, ps), acc) == AddAll(acc, ps)
    decreases |ps|
  {
    hide TOOL_CALL_TAGS, PARAMETER_TAGS, MARKERS, Accepted, PrintableParam, Element, FindTagFrom;
    if ps == [] {
      SepHoldsNoTag(st);
      BlankHoldsNoTag(st.sep, PARAMETER_TAGS, false);
    } else {
      hide ParseParameters;
      ParamStep(st, ps[0], PrintParams(st, ps[1..]), acc);
      ParamsRoundTrip(st, ps[1..], acc[ps[0].name := ps[0].value]);
    }
  }

  lemma InvocationStep(st: Style, c: Invocation, rest: string)
    requires Accepted(st) && Printable(st, c)
    ensures ParseInvokes(st.sep + Element(st, "invoke", NameAttrs(st.quote, c.name, ""), PrintParams(st, c.params)) + rest) ==
            [ToCall(c)] + ParseInvokes(rest)
  {
    hide TOOL_CALL_TAGS, INVOKE_TAGS, PARAMETER_TAGS, MARKERS, NoClose, Accepted, Distinguished, AllPlain, Attributes,
      Element, NameAttrs, FindOpen, FindClose, Tag, ExtractAttr, ParseParameters, PrintParams, PrintableParam;
    InnerNames();
    SepHoldsNoTag(st);
    var attrs := NameAttrs(st.quote, c.name, "");
    AttrsArePrinted(st, c.name, "");
    ParamsNoClose(st, c.params, INVOKE_TAGS);
    BlankLeads(st.sep, Tag("<", st, "invoke", attrs), INVOKE_TAGS);
    ElementFound(st, "invoke", attrs, INVOKE_TAGS, st.sep, PrintParams(st, c.params), rest);
    assert '=' !in "invoke";
    NameReadBack(st, "invoke", c.name, "");
    ParamsRoundTrip(st, c.params, map[]);
  }

  /** Printed invocations are read back in order, with their names and arguments. */
  lemma {:induction false} InvocationsRoundTrip(st: Style, cs: seq<Invocation>)
    requires Accepted(st) && AllPrintable(st, cs)
    ensures ParseInvokes(PrintInvocations(st, cs)) == ToCalls(cs)
    decreases |cs|
  {
    hide TOOL_CALL_TAGS, INVOKE_TAGS, MARKERS, Accepted, Printable, Element, FindTagFrom, PrintParams, ToCall;
    if cs == [] {
      SepHoldsNoTag(st);
      BlankHoldsNoTag(st.sep, INVOKE_TAGS, false);
    } else {
      hide ParseInvokes;
      assert Printable(st, cs[0]);
      InvocationStep(st, cs[0], PrintInvocations(st, cs[1..]));
      InvocationsRoundTrip(st, cs[1..]);
    }
  }

  // ---------- Documents ----------

  /** Free text followed by a block of at least one call. */
  datatype Section = Section(text: string, calls: seq<Invocation>)

  function PrintDocument(st: Style, sections: seq<Section>, tail: string): string
    decreases |sections|
  {
    if sections == [] then tail
    else sections[0].text + PrintBlock(st, sections[0].calls) + PrintDocument(st, sections[1..], tail)
  }

  function DocumentText(sections: seq<Section>, tail: string): string
    decreases |sections|
  {
    if sections == [] then tail else sections[0].text + DocumentText(sections[1..], tail)
  }

  function DocumentCalls(sections: seq<Section>): seq<Call>
    decreases |sections|
  {
    if sections == [] then [] else ToCalls(sections[0].calls) + DocumentCalls(sections[1..])
  }

  /** No outer opening tag starts in the text, not even together with the tag that follows it. */
  predicate PrintableSection(st: Style, s: Section) {
    Leads(s.text, Tag("<", st, st.wrapper, ""), TOOL_CALL_TAGS) && s.calls != [] && AllPrintable(st, s.calls)
  }

  predicate PrintableDocument(st: Style, sections: seq<Section>, tail: string) {
    FindOpen(tail, 0, TOOL_CALL_TAGS).None? && forall s :: s in sections ==> PrintableSection(st, s)
  }

  /** The outer opening tag fits the 64 bytes the accumulator may hold back. */
  predicate FitsTheBuffer(st: Style) {
    Bytes("<" + st.marker + st.gap + st.wrapper) <= MAX_TAG_LEN
  }

  /** The tags of a printed section in front of any text. */
  lemma SectionFound(st: Style, s: Section, rest: string)
    requires Accepted(st) && PrintableSection(st, s)
    ensures var t := s.text + PrintBlock(st, s.calls) + rest;
            var open := Tag("<", st, st.wrapper, "");
            var p, q := |s.text|, |s.text| + |open|;
            var c := q + |PrintInvocations(st, s.calls)|;
            var e := c + |Tag("</", st, st.wrapper, "")|;
            && FindOpen(t, 0, TOOL_CALL_TAGS) == Some((p, q)) && q <= |t|
            && FindClose(t, q, TOOL_CALL_TAGS) == Some((c, e)) && e <= |t|
            && t[..p] == s.text && t[p..q] == open && t[q..c] == PrintInvocations(st, s.calls) && t[e..] == rest
  {
    hide TOOL_CALL_TAGS, MARKERS, NoClose, AllPlain, Distinguished, Element, FindOpen, FindClose, Tag, AllPrintable,
      PrintInvocations;
    OuterNamesArePlain();
    WrapperIsDistinguished(st.wrapper);
    InvocationsNoClose(st, s.calls);
    ElementFound(st, st.wrapper, "", TOOL_CALL_TAGS, s.text, PrintInvocations(st, s.calls), rest);
  }

  /** Parsing a printed section hands out its text and its calls and goes on behind it. */
  lemma SectionStep(st: Style, s: Section, rest: string)
    requires Accepted(st) && PrintableSection(st, s)
    ensures var t := s.text + PrintBlock(st, s.calls) + rest;
            && Extract(t).text == s.text + Extract(rest).text
            && Extract(t).calls == ToCalls(s.calls) + Extract(rest).calls
  {
    hide TOOL_CALL_TAGS, MARKERS, Accepted, FindOpen, FindClose, Tag, AllPrintable, PrintInvocations, PrintBlock, Extract,
      ParseInvokes;
    SectionFound(st, s, rest);
    var t := s.text + PrintBlock(st, s.calls) + rest;
    var q := |s.text| + |Tag("<", st, st.wrapper, "")|;
    var c := q + |PrintInvocations(st, s.calls)|;
    var e := c + |Tag("</", st, st.wrapper, "")|;
    ExtractBlock(t, |s.text|, q, c, e);
    InvocationsRoundTrip(st, s.calls);
    assert ToCalls(s.calls) != [];
    assert s.text + "" == s.text;
  }

  /** Round trip: a printed document is parsed to its text without the blocks, and to the calls that were printed. */
  lemma {:induction false} DocumentRoundTrip(st: Style, sections: seq<Section>, tail: string)
    requires Accepted(st) && PrintableDocument(st, sections, tail)
    ensures Extract(PrintDocument(st, sections, tail)).text == DocumentText(sections, tail)
    ensures Extract(PrintDocument(st, sections, tail)).calls == DocumentCalls(sections)
    decreases |sections|
  {
    hide TOOL_CALL_TAGS, MARKERS, Accepted, FindTagFrom, PrintBlock, Extract, PrintableSection;
    if sections == [] {
      ExtractUnfinished(tail);
    } else {
      assert PrintableSection(st, sections[0]);
      DocumentRoundTrip(st, sections[1..], tail);
      SectionStep(st, sections[0], PrintDocument(st, sections[1..], tail));
    }
  }

  /** The wrapper's opening tag is bare and short. */
  lemma WrapperIsShortBare(st: Style)
    requires Accepted(st) && FitsTheBuffer(st)
    ensures var open := Tag("<", st, st.wrapper, "");
            ShortBare(open, 0, |open|) && |open| > 1 && open[|open| - 1] == '>'
  {
    hide TOOL_CALL_TAGS, MARKERS, IsBare, IsOuterTag, IsWhitespace;
    WrapperIsBare(st);
    var open := Tag("<", st, st.wrapper, "");
    assert open[0..|open| - 1] == "<" + st.marker + st.gap + st.wrapper;
  }

  lemma SectionIsShortBare(st: Style, s: Section, rest: string)
    requires Accepted(st) && FitsTheBuffer(st) && PrintableSection(st, s) && ShortBareTags(rest, true)
    ensures ShortBareTags(s.text + PrintBlock(st, s.calls) + rest, true)
  {
    hide TOOL_CALL_TAGS, MARKERS, Accepted, FindOpen, FindClose, Tag, AllPrintable, PrintInvocations, PrintBlock,
      ParseInvokes, ShortBare, FitsTheBuffer;
    SectionFound(st, s, rest);
    InvocationsRoundTrip(st, s.calls);
    assert ToCalls(s.calls) != [];
    WrapperIsShortBare(st);
    var open, t := Tag("<", st, st.wrapper, ""), s.text + PrintBlock(st, s.calls) + rest;
    var p, q := |s.text|, |s.text| + |open|;
    BareInPrefix(open, t[p..], |open|);
    BareShift(t[p..], t, 0, |open|, p);
  }

  lemma {:induction false} DocumentIsShortBare(st: Style, sections: seq<Section>, tail: string)
    requires Accepted(st) && FitsTheBuffer(st) && PrintableDocument(st, sections, tail)
    ensures ShortBareTags(PrintDocument(st, sections, tail), true)
    decreases |sections|
  {
    hide TOOL_CALL_TAGS, MARKERS, Accepted, FindTagFrom, PrintBlock, PrintableSection, FitsTheBuffer;
    if sections != [] {
      assert PrintableSection(st, sections[0]);
      DocumentIsShortBare(st, sections[1..], tail);
      SectionIsShortBare(st, sections[0], PrintDocument(st, sections[1..], tail));
    }
  }

  /** End to end: however a printed document is cut into deltas, the stream hands out the calls that were printed. */
  lemma StreamedDocument(st: Style, sections: seq<Section>, tail: string, deltas: seq<string>)
    requires Accepted(st) && FitsTheBuffer(st) && PrintableDocument(st, sections, tail)
    requires Concat(deltas) == PrintDocument(st, sections, tail)
    ensures Run(EMPTY, deltas).calls == DocumentCalls(sections)
    ensures (forall d :: d in deltas ==> |d| == 1) ==>
              Visible(Run(EMPTY, deltas).pieces) + Run(EMPTY, deltas).state.buf == DocumentText(sections, tail)
  {
    hide Accepted, FitsTheBuffer, PrintableDocument, Extract, ShortBareTags, Run, Visible, PrintDocument, DocumentText;
    DocumentIsShortBare(st, sections, tail);
    DocumentRoundTrip(st, sections, tail);
    StreamRefinesBatch(deltas, true);
    if forall d :: d in deltas ==> |d| == 1 {
      DsmlCuts.YieldingMeans(Concat(deltas));
      OneCharVisible(deltas);
    }
  }

  // ---------- Where the stream shows less ----------

  lemma SettleLoses(buf: string, p: nat, q: nat)
    requires FindOpen(buf, 0, TOOL_CALL_TAGS) == Some((p, q)) && 0 < p <= |buf|
    requires FindClose(buf[p..], 0, TOOL_CALL_TAGS).None?
    ensures Settle(buf, false).pieces == [Lost(buf[..p])]
  {
    hide FindOpen, FindClose, TOOL_CALL_TAGS, KeepFrom, Extract;
  }

  lemma {:induction false} SettleDrops(buf: string, q: nat, c: nat)
    requires FindOpen(buf, 0, TOOL_CALL_TAGS) == Some((0, q)) && FindClose(buf, 0, TOOL_CALL_TAGS) == Some((c, |buf|))
    requires Extract(buf).calls == []
    ensures Settle(buf, false).pieces == [Dropped(buf)]
  {
    hide FindOpen, FindClose, TOOL_CALL_TAGS, KeepFrom, Extract;
    assert buf[..0] == "" && buf[0..] == buf && buf[..|buf|] == buf && buf[|buf|..] == "";
    SettleEmpty();
  }

  /** The wrapper's opening tag alone: a tag, and nothing closes it. */
  lemma OpenTagAlone(st: Style)
    requires Accepted(st) && FitsTheBuffer(st)
    ensures FindClose(Tag("<", st, st.wrapper, ""), 0, TOOL_CALL_TAGS).None?
  {
    hide TOOL_CALL_TAGS, MARKERS, Tag, ShortBare, MatchTagAt, FitsTheBuffer;
    OuterNamesArePlain();
    WrapperIsDistinguished(st.wrapper);
    WrapperIsShortBare(st);
    var open := Tag("<", st, st.wrapper, "");
    ElementOpens(st, st.wrapper, "", TOOL_CALL_TAGS, "", "");
    assert "" + (open + "") == open;
    CloseAfterBare(open);
  }

  /** A delta that ends right after an opening tag loses all text it brought in front of the tag. */
  lemma TextBeforeOpenTagIsLost(st: Style, text: string)
    requires Accepted(st) && FitsTheBuffer(st) && text != "" && Leads(text, Tag("<", st, st.wrapper, ""), TOOL_CALL_TAGS)
    ensures Feed(EMPTY, text + Tag("<", st, st.wrapper, "")).pieces == [Lost(text)]
  {
    hide TOOL_CALL_TAGS, MARKERS, Tag, FindOpen, FindClose, Settle, FitsTheBuffer;
    OuterNamesArePlain();
    WrapperIsDistinguished(st.wrapper);
    var open := Tag("<", st, st.wrapper, "");
    var buf := EMPTY.buf + (text + open);
    OpenTagAlone(st);
    ElementOpens(st, st.wrapper, "", TOOL_CALL_TAGS, text, "");
    assert text + (open + "") == buf && buf[..|text|] == text && buf[|text|..] == open;
    SettleLoses(buf, |text|, |buf|);
  }

  /** Where the tags of an empty block stand. */
  lemma EmptyBlockFound(st: Style) returns (q: nat, c: nat)
    requires Accepted(st) && FitsTheBuffer(st)
    ensures var block := PrintBlock(st, []);
            && q <= c <= |block| && block[q..c] == PrintInvocations(st, [])
            && FindOpen(block, 0, TOOL_CALL_TAGS) == Some((0, q))
            && FindClose(block, q, TOOL_CALL_TAGS) == Some((c, |block|))
            && FindClose(block, 0, TOOL_CALL_TAGS) == Some((c, |block|))
  {
    hide TOOL_CALL_TAGS, MARKERS, Tag, FindOpen, FindClose, ShortBare, FitsTheBuffer, NoClose, Distinguished, AllPlain;
    var block, open := PrintBlock(st, []), Tag("<", st, st.wrapper, "");
    OuterNamesArePlain();
    WrapperIsDistinguished(st.wrapper);
    InvocationsNoClose(st, []);
    ElementFound(st, st.wrapper, "", TOOL_CALL_TAGS, "", PrintInvocations(st, []), "");
    assert "" + block + "" == block;
    q := |open|;
    c := q + |PrintInvocations(st, [])|;
    WrapperIsShortBare(st);
    BareInPrefix(open, block, |open|);
    CloseAfterBare(block);
  }

  /** A closed block without an invocation stays in the cleaned text of the batch parser; the stream drops it. */
  lemma EmptyBlockIsDropped(st: Style)
    requires Accepted(st) && FitsTheBuffer(st)
    ensures var block := PrintBlock(st, []);
            && Extract(block) == Extracted(block, [])
            && Feed(EMPTY, block).pieces == [Dropped(block)]
  {
    hide TOOL_CALL_TAGS, MARKERS, Accepted, FitsTheBuffer, FindOpen, FindClose, ParseInvokes, Extract, PrintBlock, Settle,
      PrintInvocations;
    var block := PrintBlock(st, []);
    var q, c := EmptyBlockFound(st);
    InvocationsRoundTrip(st, []);
    ExtractBlock(block, 0, q, c, |block|);
    ExtractNothing();
    assert block[..0] == "" && block[0..|block|] == block && block[|block|..] == "" && EMPTY.buf + block == block;
    assert "" + block + "" == block;
    SettleDrops(block, q, c);
  }

  // ---------- Where text before and behind a block meets ----------

  /** A marker that is followed by a tag starts no tag itself. */
  lemma MarkerBeforeTag(m: string, y: string)
    requires m in MARKERS && y != "" && y[0] == '<'
    ensures var t := "<" + m + y; forall k :: 0 <= k <= |m| ==> MatchTagAt(t, k, TOOL_CALL_TAGS, false).None?
  {
    hide MARKERS, MatchTagAt;
    BracketBeforeTag(m, y);
    MarkersArePlain();
    assert Plain(m);
    var t := "<" + m + y;
    assert forall k :: 1 <= k <= |m| ==> t[k] == m[k - 1] && m[k - 1] in m;
  }

  lemma BracketBeforeTag(m: string, y: string)
    requires m in MARKERS && y != "" && y[0] == '<'
    ensures MatchTagAt("<" + m + y, 0, TOOL_CALL_TAGS, false).None?
  {
    hide MARKERS, TOOL_CALL_TAGS, SkipFirst, IsWhitespace, MatchName, OccursAt, AllPlain;
    var t, i := "<" + m + y, 1 + |m|;
    assert t[i] == '<';
    OccursMiddle("<", m, y);
    AngleIsForeign();
    MarkerChosen(t, 1, m);
    OuterNamesArePlain();
    NoNameAtAngle(t, i, TOOL_CALL_TAGS);
  }

  lemma AngleIsForeign()
    ensures !BarOrCapital('<') && !IsWhitespace('<')
  {
  }

  lemma {:induction false} NoNameAtAngle(t: string, i: nat, names: seq<string>)
    requires i < |t| && t[i] == '<' && AllPlain(names)
    ensures MatchName(t, i, names, false).None?
    decreases |names|
  {
    if names != [] {
      assert Plain(names[0]);
      if OccursAt(t, names[0], i) {
        OccursPlain(t, names[0], i);
      }
      NoNameAtAngle(t, i, names[1..]);
    }
  }

  lemma CallsIsAName()
    ensures "calls" in TOOL_CALL_TAGS
  {
    assert TOOL_CALL_TAGS[1] == "calls";
  }

  /** A partial tag, a block with calls, and the rest of that tag: the cleaned text is an opening tag. */
  lemma HalvesMeet(st: Style, calls: seq<Invocation>)
    requires Accepted(st) && FitsTheBuffer(st) && AllPrintable(st, calls) && calls != []
    ensures var t := "<" + st.marker + (PrintBlock(st, calls) + "calls>");
            && ShortBareTags(t, true)
            && Extract(t).calls == ToCalls(calls)
            && IsOuterTag(Extract(t).text)
  {
    hide MARKERS, TOOL_CALL_TAGS, FindTagFrom, MatchTagAt, Extract, ShortBareTags, PrintBlock, AllPrintable, ToCalls,
      FitsTheBuffer, IsWhitespace, MatchName, SkipMarker;
    var s, rest := Section("", calls), "calls>";
    var a, y := "<" + st.marker, PrintBlock(st, calls) + rest;
    assert "" + PrintBlock(st, calls) + rest == y;
    BlockStartsWithTag(st, calls);
    MarkerBeforeTag(st.marker, y);
    assert a + y == "<" + st.marker + y;
    NoTagInFront(a, y);
    BlankHoldsNoTag(rest, TOOL_CALL_TAGS, false);
    ExtractUnfinished(rest);
    SectionStep(st, s, rest);
    assert ShortBareTags(rest, true) by {
      NoTagIsShortBare(rest);
    }
    SectionIsShortBare(st, s, rest);
    ExtractShift(a, y);
    TagsShift(a, y, true);
    assert ToCalls(calls) + [] == ToCalls(calls);
    CallsIsAName();
    var joined := Style(st.marker, "", "calls", "", '"');
    WrapperIsBare(joined);
    assert Tag("<", joined, "calls", "") == a + ("" + rest);
  }

  lemma NoTagInFront(a: string, y: string)
    requires forall k :: 0 <= k < |a| ==> MatchTagAt(a + y, k, TOOL_CALL_TAGS, false).None?
    ensures var open := FindOpen(a + y, 0, TOOL_CALL_TAGS); open.None? || |a| <= open.value.0
  {
    hide MatchTagAt, TOOL_CALL_TAGS;
  }

  lemma NoTagIsShortBare(t: string)
    requires FindOpen(t, 0, TOOL_CALL_TAGS).None?
    ensures ShortBareTags(t, true)
  {
  }

  lemma BlockStartsWithTag(st: Style, calls: seq<Invocation>)
    ensures PrintBlock(st, calls) != "" && PrintBlock(st, calls)[0] == '<'
  {
    hide PrintInvocations;
  }
}
