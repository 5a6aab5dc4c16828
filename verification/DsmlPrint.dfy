/**
 * Printed tags, attributes and elements, in any accepted spelling of marker, whitespace and wrapper name, and what the
 * matchers find in them.
 */
module DsmlPrint {
  import opened Wrappers
  import opened Text
  import opened DsmlTags
  import opened DsmlPartial
  import opened DsmlParse

  /**
   * How tags are spelled: the marker, the whitespace after it, the name of the wrapper, what separates tags, and the quote
   * around attribute values.
   */
  datatype Style = Style(marker: string, gap: string, wrapper: string, sep: string, quote: char)

  predicate IsQuote(c: char) {
    c == '"' || c == '\''
  }

  predicate Blank(t: string) {
    forall c :: c in t ==> IsWhitespace(c)
  }

  predicate Accepted(st: Style) {
    st.marker in MARKERS && Blank(st.gap) && st.wrapper in TOOL_CALL_TAGS && Blank(st.sep) && IsQuote(st.quote)
  }

  // ---------- A printed tag matches ----------

  /** All tag names of the format start with a lower-case letter, which separates them from marker and whitespace. */
  predicate TagName(name: string) {
    name != "" && 'a' <= name[0] <= 'z'
  }

  function Tag(bracket: string, st: Style, name: string, attrs: string): string {
    bracket + st.marker + st.gap + name + attrs + ">"
  }

  lemma OccursMiddle(a: string, pat: string, b: string)
    ensures OccursAt(a + pat + b, pat, |a|)
  {
  }

  lemma SkipWsMiddle(a: string, gap: string, b: string)
    requires Blank(gap) && (b != "" ==> !IsWhitespace(b[0]))
    ensures SkipWs(a + gap + b, |a|) == |a| + |gap|
  {
    hide IsWhitespace;
    var t := a + gap + b;
    assert forall k :: |a| <= k < |a| + |gap| ==> t[k] == gap[k - |a|] && gap[k - |a|] in gap;
    assert b != "" ==> t[|a| + |gap|] == b[0];
  }

  /** Longer marker forms come first, so the marker that was printed is the one that is skipped. */
  lemma MarkerChosen(t: string, i: nat, marker: string)
    requires marker in MARKERS && OccursAt(t, marker, i) && i + |marker| < |t| && !BarOrCapital(t[i + |marker|])
    ensures SkipFirst(t, i, MARKERS) == Some(i + |marker|)
  {
    forall m | m in MARKERS && OccursAt(t, m, i)
      ensures |m| <= |marker|
    {
      MarkerLonger(t, i, marker, m);
    }
    MarkerOrder(t, i, marker);
  }

  lemma MarkerLonger(t: string, i: nat, marker: string, m: string)
    requires m in MARKERS && OccursAt(t, m, i) && i + |marker| < |t| && !BarOrCapital(t[i + |marker|])
    ensures |m| <= |marker|
  {
    hide MARKERS;
    MarkerChars(m);
    if |m| > |marker| {
      OccursCharIn(t, i, m, i + |marker|);
    }
  }

  /** Two markers that occur at the same place and have the same length are the same; longer ones are tried first. */
  lemma MarkerOrder(t: string, i: nat, marker: string)
    requires marker in MARKERS && OccursAt(t, marker, i)
    requires forall m :: m in MARKERS && OccursAt(t, m, i) ==> |m| <= |marker|
    ensures SkipFirst(t, i, MARKERS) == Some(i + |marker|)
  {
    MarkersLongestFirst();
    hide MARKERS, OccursAt;
    var m := SkipFirstLongest(t, i, MARKERS, marker);
  }

  lemma MarkersLongestFirst()
    ensures LongestFirst(MARKERS)
  {
    assert |MARKERS[0]| == 8 && |MARKERS[1]| == 7 && |MARKERS[2]| == 7 && |MARKERS[3]| == 6;
  }

  predicate LongestFirst(forms: seq<string>) {
    forall j, k :: 0 <= j < k < |forms| ==> |forms[j]| >= |forms[k]|
  }

  lemma {:induction false} SkipFirstLongest(t: string, i: nat, forms: seq<string>, form: string) returns (m: string)
    requires LongestFirst(forms) && form in forms && OccursAt(t, form, i)
    ensures m in forms && OccursAt(t, m, i) && |m| >= |form| && SkipFirst(t, i, forms) == Some(i + |m|)
    decreases |forms|
  {
    hide OccursAt;
    if OccursAt(t, forms[0], i) {
      m := forms[0];
    } else {
      var k :| 0 <= k < |forms| && forms[k] == form;
      assert forms[1..][k - 1] == form;
      m := SkipFirstLongest(t, i, forms[1..], form);
    }
  }

  /** Names of one list start with different letters, so the printed one is found whatever stands before it. */
  predicate Distinguished(name: string, names: seq<string>) {
    name in names && TagName(name) && forall n :: n in names ==> n != "" && (n == name || n[0] != name[0])
  }

  lemma {:induction false} NameChosen(t: string, i: nat, name: string, names: seq<string>, closing: bool)
    requires Distinguished(name, names) && OccursAt(t, name, i) && Tail(t, i + |name|, closing).Some?
    ensures MatchName(t, i, names, closing) == Tail(t, i + |name|, closing)
    decreases |names|
  {
    hide Tail;
    if names[0] != name {
      assert names == [names[0]] + names[1..];
      assert name in names[1..];
      assert forall n :: n in names[1..] ==> n in names;
      assert names[0] in names;
      assert t[i + 0] == name[0];
      NameChosen(t, i, name, names[1..], closing);
    }
  }

  /** What may stand between the name and the '>': whitespace, and in an opening tag anything behind it without a '>'. */
  predicate Attributes(attrs: string, closing: bool) {
    if closing then Blank(attrs) else '>' !in attrs && (attrs == "" || IsWhitespace(attrs[0]))
  }

  lemma TailChosen(t: string, i: nat, attrs: string, closing: bool)
    requires Attributes(attrs, closing) && i <= |t| && t[i..] == attrs + ">"
    ensures Tail(t, i, closing) == Some(|t|)
  {
    hide IsWhitespace;
    AngleIsNotBlank();
    var n := |t| - 1;
    assert n == i + |attrs|;
    assert forall k :: i <= k < |t| ==> t[k] == (attrs + ">")[k - i];
    assert t[n] == '>';
    forall k | i <= k < n
      ensures t[k] != '>' && (closing ==> IsWhitespace(t[k]))
    {
      assert t[k] == attrs[k - i] && attrs[k - i] in attrs;
    }
    if attrs != "" {
      assert t[i] == attrs[0];
    }
  }

  lemma AngleIsNotBlank()
    ensures !IsWhitespace('>')
  {
  }

  /** Where the parts of a printed tag stand. */
  lemma TagMarkerAt(br: string, st: Style, name: string, attrs: string)
    requires Blank(st.gap) && TagName(name)
    ensures var t := Tag(br, st, name, attrs);
            && OccursAt(t, br, 0) && OccursAt(t, st.marker, |br|)
            && |br| + |st.marker| < |t| && !BarOrCapital(t[|br| + |st.marker|])
  {
    var t := Tag(br, st, name, attrs);
    var rest := st.gap + name + attrs + ">";
    assert t == br + st.marker + rest;
    OccursMiddle(br, st.marker, rest);
    assert OccursAt(t, br, 0);
    AfterMarker(st.gap, name);
    assert t[|br| + |st.marker|] == rest[0] == (st.gap + name)[0];
  }

  lemma TagNameAt(br: string, st: Style, name: string, attrs: string)
    requires Blank(st.gap) && TagName(name)
    ensures var t := Tag(br, st, name, attrs);
            var i := |br| + |st.marker|;
            && i <= |t| && SkipWs(t, i) == i + |st.gap|
            && OccursAt(t, name, i + |st.gap|)
            && i + |st.gap| + |name| <= |t| && t[i + |st.gap| + |name|..] == attrs + ">"
  {
    hide IsWhitespace;
    var t := Tag(br, st, name, attrs);
    var front, rest := br + st.marker, attrs + ">";
    LetterIsNotWhitespace(name[0]);
    assert t == front + st.gap + (name + rest);
    SkipWsMiddle(front, st.gap, name + rest);
    assert t == (front + st.gap) + name + rest;
    OccursMiddle(front + st.gap, name, rest);
  }

  /** A printed tag is matched as a whole. */
  lemma TagMatches(st: Style, name: string, attrs: string, names: seq<string>, closing: bool)
    requires Accepted(st) && Distinguished(name, names) && Attributes(attrs, closing)
    ensures var t := Tag(Bracket(closing), st, name, attrs);
            && MatchTagAt(t, 0, names, closing) == Some(|t|)
            && SkipMarker(t, |Bracket(closing)|) == Some(|Bracket(closing)| + |st.marker| + |st.gap|)
  {
    hide TOOL_CALL_TAGS, MatchName, SkipFirst, MARKERS, Tail, IsWhitespace, OccursAt, Tag, BarOrCapital, Attributes, Blank;
    var br := Bracket(closing);
    var t := Tag(br, st, name, attrs);
    TagMarkerAt(br, st, name, attrs);
    TagNameAt(br, st, name, attrs);
    var i := |br| + |st.marker| + |st.gap|;
    MarkerChosen(t, |br|, st.marker);
    TailChosen(t, i + |name|, attrs, closing);
    NameChosen(t, i, name, names, closing);
  }

  lemma LetterIsNotWhitespace(c: char)
    requires 'a' <= c <= 'z'
    ensures !IsWhitespace(c) && !BarOrCapital(c)
  {
  }

  /** After a marker comes whitespace or a lower-case letter, never a character that would lengthen the marker. */
  lemma AfterMarker(gap: string, name: string)
    requires Blank(gap) && TagName(name)
    ensures !BarOrCapital((gap + name)[0])
  {
    if gap != "" {
      assert gap[0] in gap;
    }
  }

  // ---------- A partial tag is the start of a tag ----------

  lemma WrapperIsDistinguished(name: string)
    requires name in TOOL_CALL_TAGS
    ensures Distinguished(name, TOOL_CALL_TAGS)
  {
  }

  lemma WrapperName(name: string)
    requires name in TOOL_CALL_TAGS
    ensures TagName(name)
  {
  }

  lemma WrapperIsBare(st: Style)
    requires Accepted(st)
    ensures var open := Tag("<", st, st.wrapper, ""); IsOuterTag(open) && IsBare(open, 0, |open|)
  {
    hide TOOL_CALL_TAGS, MARKERS, SkipMarker, Distinguished, OccursAt, IsWhitespace, MatchTagAt;
    WrapperIsDistinguished(st.wrapper);
    TagMatches(st, st.wrapper, "", TOOL_CALL_TAGS, false);
    WrapperName(st.wrapper);
    TagNameAt("<", st, st.wrapper, "");
  }

  lemma StartGrows(t: string, m: string, gap: string, name: string)
    requires m in MARKERS && Blank(gap) && name in TOOL_CALL_TAGS && t <= "<" + m + gap + name
    ensures GrowsIntoTag(t)
  {
    hide TOOL_CALL_TAGS, MARKERS, IsBare, IsOuterTag, IsWhitespace;
    var st := Style(m, gap, name, "", '"');
    WrapperIsBare(st);
    var u := Tag("<", st, name, "");
    assert u == "<" + m + gap + name + ">";
  }

  lemma EndIsSlice(t: string, i: nat, pat: string)
    requires EndIsPrefixOf(t, i, pat)
    ensures t[i..] <= pat && |t[i..]| <= |pat|
  {
  }

  lemma OccursIsSlice(t: string, i: nat, pat: string)
    requires OccursAt(t, pat, i)
    ensures i + |pat| <= |t| && t[i..i + |pat|] == pat
  {
  }

  lemma PartialNameGrows(t: string, m: string)
    requires t != "" && t[0] == '<' && m in MARKERS && PartialName(t, 1, m)
    ensures GrowsIntoTag(t)
  {
    hide TOOL_CALL_TAGS, MARKERS, EndIsPrefixOf, OccursAt, IsWhitespace, GrowsIntoTag;
    OccursIsSlice(t, 1, m);
    var after := SkipWs(t, 1 + |m|);
    var gap := t[1 + |m|..after];
    assert t[..after] == "<" + m + gap;
    if after == |t| {
      var name := AnOuterName();
      StartGrows(t, m, gap, name);
    } else {
      var name :| name in TOOL_CALL_TAGS && EndIsPrefixOf(t, after, name);
      EndIsSlice(t, after, name);
      assert t == t[..after] + t[after..];
      StartGrows(t, m, gap, name);
    }
  }

  lemma AnOuterName() returns (name: string)
    ensures name in TOOL_CALL_TAGS
  {
    name := TOOL_CALL_TAGS[0];
  }

  /** The source's test on a held text is exact: it accepts the proper prefixes of bare outer tags, and nothing else. */
  lemma PartialIffGrows(t: string)
    requires t != ""
    ensures CouldBeOpenTagPrefix(t, 0) <==> GrowsIntoTag(t)
  {
    hide TOOL_CALL_TAGS, MARKERS, IsBare, EndIsPrefixOf, PartialName, MatchTagAt;
    if CouldBeOpenTagPrefix(t, 0) {
      assert t[0 + 0] == "<"[0];
      if m :| m in MARKERS && EndIsPrefixOf(t, 1, m) {
        EndIsSlice(t, 1, m);
        var name := AnOuterName();
        assert t == "<" + t[1..];
        StartGrows(t, m, "", name);
      } else {
        var m :| m in MARKERS && PartialName(t, 1, m);
        PartialNameGrows(t, m);
      }
    }
    if GrowsIntoTag(t) {
      var u :| t < u && IsOuterTag(u) && IsBare(u, 0, |u|);
      PrefixOfBareIsPartial(t, u, 0, |u|);
    }
  }

  // ---------- Texts without closing tags ----------

  predicate NoClose(t: string, names: seq<string>) {
    FindTagFrom(t, 0, names, true).None?
  }

  lemma NoMatchAcross(a: string, b: string, p: nat, names: seq<string>)
    requires AllPlain(names) && NoClose(a, names) && p < |a|
    requires b == "" || b[0] == '<' || a[|a| - 1] == '>' || '<' !in a
    ensures MatchTagAt(a + b, p, names, true).None?
  {
    hide MatchTagAt;
    var t := a + b;
    assert a <= t;
    if MatchTagAt(t, p, names, true).Some? {
      MatchEndsAtGt(t, p, names, true);
      var e := MatchTagAt(t, p, names, true).value;
      assert t[p] == a[p] && (b != "" ==> t[|a|] == b[0]) && t[|a| - 1] == a[|a| - 1];
      assert a[p] in a;
      assert e <= |a|;
      assert a[e - 1] == t[e - 1];
      MatchInPrefix(a, t, p, names, true);
    }
  }

  /** No closing tag arises at a seam where the second text starts a tag or the first one ends one. */
  lemma NoCloseConcat(a: string, b: string, names: seq<string>)
    requires AllPlain(names) && NoClose(a, names) && NoClose(b, names)
    requires a == "" || b == "" || b[0] == '<' || a[|a| - 1] == '>' || '<' !in a
    ensures NoClose(a + b, names)
  {
    hide MatchTagAt;
    var t := a + b;
    var close := FindTagFrom(t, 0, names, true);
    if close.Some? {
      var p := close.value.0;
      if p < |a| {
        NoMatchAcross(a, b, p, names);
      } else {
        assert t[|a|..] == b;
        MatchShift(b, t, p - |a|, |a|, names, true);
      }
    }
  }

  /** The first closing tag after a text without one is the tag that follows it. */
  lemma {:induction false} CloseAfter(a: string, rest: string, names: seq<string>, e: nat)
    requires AllPlain(names) && NoClose(a, names) && rest != "" && MatchTagAt(rest, 0, names, true) == Some(e)
    ensures FindTagFrom(a + rest, 0, names, true) == Some((|a|, |a| + e))
  {
    hide MatchTagAt;
    var t := a + rest;
    forall k | 0 <= k < |a|
      ensures MatchTagAt(t, k, names, true).None?
    {
      NoMatchAcross(a, rest, k, names);
    }
    assert t[|a|..] == rest;
    MatchShift(rest, t, 0, |a|, names, true);
  }

  /** Before the '>' of a closing tag stands its name or whitespace, never a quote. */
  lemma {:induction false} CloseNameEnds(t: string, i: nat, names: seq<string>)
    requires AllPlain(names) && MatchName(t, i, names, true).Some?
    ensures var e := MatchName(t, i, names, true).value; e >= 2 && !IsQuote(t[e - 2])
    decreases |names|
  {
    hide OccursAt;
    var name := names[0];
    assert Plain(name);
    if OccursAt(t, name, i) && Tail(t, i + |name|, true).Some? {
      OccursCharIn(t, i, name, i + |name| - 1);
    } else {
      CloseNameEnds(t, i, names[1..]);
    }
  }

  lemma CloseEndsPlain(t: string, p: nat, names: seq<string>)
    requires AllPlain(names) && MatchTagAt(t, p, names, true).Some?
    ensures var e := MatchTagAt(t, p, names, true).value; e >= 2 && !IsQuote(t[e - 2])
  {
    hide SkipMarker, MatchName;
    CloseNameEnds(t, SkipMarker(t, p + 2).value, names);
  }

  /** A printed opening tag with attributes holds no closing tag, whatever the attribute values are. */
  lemma OpenHoldsNoClose(st: Style, name: string, attrs: string, own: seq<string>, names: seq<string>)
    requires Accepted(st) && Distinguished(name, own) && AllPlain(own) && AllPlain(names)
    requires Attributes(attrs, false) && attrs != "" && IsQuote(attrs[|attrs| - 1])
    ensures NoClose(Tag("<", st, name, attrs), names)
  {
    hide MatchTagAt, TOOL_CALL_TAGS, MARKERS, SkipMarker;
    var t := Tag("<", st, name, attrs);
    TagMatches(st, name, attrs, own, false);
    MatchEndsAtGt(t, 0, own, false);
    assert IsQuote(t[|t| - 2]);
    var close := FindTagFrom(t, 0, names, true);
    if close.Some? {
      MatchEndsAtGt(t, close.value.0, names, true);
      CloseEndsPlain(t, close.value.0, names);
    }
  }

  /** A printed closing tag of one kind is no closing tag of another kind. */
  lemma ForeignClose(st: Style, name: string, own: seq<string>, names: seq<string>)
    requires Accepted(st) && Distinguished(name, own) && AllPlain(own) && AllPlain(names)
    requires forall n :: n in names ==> n[0] != name[0]
    ensures NoClose(Tag("</", st, name, ""), names)
  {
    hide MatchTagAt, TOOL_CALL_TAGS, MARKERS, Tag, Accepted, Distinguished, SkipMarker, OccursAt;
    var t := Tag("</", st, name, "");
    TagMatches(st, name, "", own, true);
    MatchEndsAtGt(t, 0, own, true);
    KindAt(st, name, own);
    ForeignCloseAt(t, 2 + |st.marker| + |st.gap|, name, names);
    var close := FindTagFrom(t, 0, names, true);
  }

  lemma KindAt(st: Style, name: string, own: seq<string>)
    requires Accepted(st) && Distinguished(name, own)
    ensures name != "" && OccursAt(Tag("</", st, name, ""), name, 2 + |st.marker| + |st.gap|)
  {
    hide Tag, TOOL_CALL_TAGS, MARKERS, OccursAt, SkipWs;
    TagNameAt("</", st, name, "");
  }

  lemma ForeignCloseAt(t: string, i: nat, name: string, names: seq<string>)
    requires SkipMarker(t, 2) == Some(i) && name != "" && OccursAt(t, name, i)
    requires AllPlain(names) && forall n :: n in names ==> n[0] != name[0]
    ensures MatchTagAt(t, 0, names, true).None?
  {
    hide SkipMarker, MatchName;
    assert t[i + 0] == name[0];
    NoSuchName(t, i, names);
  }

  lemma {:induction false} NoSuchName(t: string, i: nat, names: seq<string>)
    requires AllPlain(names) && i < |t| && forall n :: n in names ==> n[0] != t[i]
    ensures MatchName(t, i, names, true).None?
    decreases |names|
  {
    hide OccursAt;
    if names != [] {
      assert Plain(names[0]) && names[0] in names;
      NoSuchName(t, i, names[1..]);
      if OccursAt(t, names[0], i) {
        OccursCharIn(t, i, names[0], i);
      }
    }
  }

  lemma BlankHoldsNoTag(t: string, names: seq<string>, closing: bool)
    requires '<' !in t
    ensures FindTagFrom(t, 0, names, closing).None?
  {
    hide MatchTagAt;
  }

  // ---------- Attributes ----------

  function Quoted(q: char, attr: string, v: string): string {
    attr + "=" + [q] + v + [q]
  }

  /** A key found first at the end of `front`. */
  lemma FoundFirst(t: string, front: string, key: string, rest: string)
    requires t == front + key + rest
    requires forall k :: 0 <= k < |front| ==> !OccursAt(t, key, k)
    ensures FindFrom(t, key, 0) == Some(|front|)
  {
    OccursMiddle(front, key, rest);
    hide OccursAt;
    var r := FindFrom(t, key, 0);
  }

  /** A quoted value standing at `q`. */
  predicate QuotedAt(t: string, q: nat, c: char, v: string) {
    && q + |v| + 1 < |t| && t[q] == c && t[q + 1..q + 1 + |v|] == v && t[q + 1 + |v|] == c
  }

  lemma QuotedInMiddle(a: string, c: char, v: string, rest: string)
    ensures QuotedAt(a + ([c] + v + [c] + rest), |a|, c, v)
  {
  }

  lemma QuoteEnds(t: string, q: nat, c: char, v: string)
    requires QuotedAt(t, q, c, v) && c !in v
    ensures IndexFrom(t, c, q + 1) == q + 1 + |v|
  {
    var w := t[q + 1..q + 1 + |v|];
    assert forall k :: q + 1 <= k < q + 1 + |v| ==> t[k] == w[k - q - 1] && w[k - q - 1] in w;
  }

  /** The quoted text after a key is the attribute's value. */
  lemma ValueAt(t: string, attr: string, key: string, pos: nat, c: char, v: string)
    requires key == attr + "=" && FindFrom(t, key, 0) == Some(pos)
    requires QuotedAt(t, pos + |key|, c, v) && c !in v && IsQuote(c)
    ensures ExtractAttr(t, attr) == Some(v)
  {
    hide OccursAt;
    QuoteEnds(t, pos + |key|, c, v);
  }

  /** The first `attr=` of a tag, found behind a front that holds none, yields its quoted value. */
  lemma AttrFound(t: string, front: string, attr: string, key: string, c: char, v: string, rest: string)
    requires key == attr + "=" && t == front + key + ([c] + v + [c] + rest) && c !in v && IsQuote(c)
    requires forall k :: 0 <= k < |front| ==> !OccursAt(t, key, k)
    ensures ExtractAttr(t, attr) == Some(v)
  {
    hide OccursAt, ExtractAttr;
    FoundFirst(t, front, key, [c] + v + [c] + rest);
    QuotedInMiddle(front + key, c, v, rest);
    ValueAt(t, attr, key, |front|, c, v);
  }

  /** A text without '=' in front of an attribute cannot hide an earlier occurrence of it. */
  lemma NoEarlierKey(t: string, front: string, attr: string, key: string, k: nat)
    requires key == attr + "=" && front + key <= t && '=' !in front && '=' !in attr && k < |front|
    ensures !OccursAt(t, key, k)
  {
    var n := |front| + |attr|;
    assert forall j :: 0 <= j < n ==> t[j] == (front + attr)[j] && (front + attr)[j] in front + attr;
    assert key[|attr|] == '=';
    assert t[k + |attr|] != '=';
  }

  /** Attributes of a tag: its name, and whatever follows. */
  function NameAttrs(q: char, name: string, more: string): string {
    " " + Quoted(q, "name", name) + more
  }

  function StringAttr(q: char, isString: bool): string {
    " " + Quoted(q, "string", if isString then "true" else "false")
  }

  function TagFront(st: Style, name: string): string {
    "<" + st.marker + st.gap + name + " "
  }

  lemma QuoteOf(st: Style)
    requires Accepted(st)
    ensures IsQuote(st.quote) && st.quote !in "true" && st.quote !in "false"
  {
  }

  lemma FrontHasNoEquals(st: Style, name: string)
    requires Accepted(st) && '=' !in name
    ensures '=' !in TagFront(st, name)
  {
    hide TOOL_CALL_TAGS, MARKERS;
    MarkerChars(st.marker);
    assert !IsWhitespace('=');
  }

  lemma TagWithName(st: Style, kind: string, name: string, more: string)
    ensures Tag("<", st, kind, NameAttrs(st.quote, name, more)) ==
            TagFront(st, kind) + "name=" + ([st.quote] + name + [st.quote] + (more + ">"))
    ensures |TagFront(st, kind)| > 0
  {
  }

  /** The name of an invocation or a parameter is read back. */
  lemma NameReadBack(st: Style, kind: string, name: string, more: string)
    requires Accepted(st) && st.quote !in name && '=' !in kind
    ensures ExtractAttr(Tag("<", st, kind, NameAttrs(st.quote, name, more)), "name") == Some(name)
  {
    hide Accepted, ExtractAttr, OccursAt, Tag, NameAttrs, TagFront;
    var t, front, key := Tag("<", st, kind, NameAttrs(st.quote, name, more)), TagFront(st, kind), "name=";
    QuoteOf(st);
    FrontHasNoEquals(st, kind);
    TagWithName(st, kind, name, more);
    assert key == "name" + "=";
    forall k | 0 <= k < |front|
      ensures !OccursAt(t, key, k)
    {
      NoEarlierKey(t, front, "name", key, k);
    }
    AttrFound(t, front, "name", key, st.quote, name, more + ">");
  }

  /** The text of a parameter tag up to and including its string key. */
  function UpToString(q: char, front: string, name: string): string {
    front + Quoted(q, "name", name) + " string="
  }

  /** An occurrence of the string key before its attribute can only lie inside the name. */
  lemma KeyInsideName(t: string, q: char, front: string, name: string, k: nat)
    requires IsQuote(q) && '=' !in front && UpToString(q, front, name) <= t && k < |UpToString(q, front, name)| - 7
    requires OccursAt(t, "string=", k)
    ensures var n := |front| + 6; n <= k && k + 7 <= n + |name|
    ensures OccursAt(name, "string=", k - (|front| + 6))
  {
    var u, n, key := UpToString(q, front, name), |front| + 6, "string=";
    var s := n + |name| + 2;
    assert forall j :: 0 <= j < |u| ==> t[j] == u[j];
    assert forall j :: 0 <= j < |front| ==> u[j] == front[j] && front[j] in front;
    assert u[|front|] == 'n' && u[|front| + 1] == 'a' && u[|front| + 2] == 'm' && u[|front| + 3] == 'e';
    assert u[|front| + 4] == '=' && u[|front| + 5] == q && u[n + |name|] == q && u[n + |name| + 1] == ' ';
    assert u[s] == 's' && u[s + 1] == 't' && u[s + 2] == 'r' && u[s + 3] == 'i' && u[s + 4] == 'n' && u[s + 5] == 'g';
    assert t[k + 6] == key[6] == '=' && t[k + 5] == key[5] == 'g';
    assert forall j :: k <= j < k + 7 ==> t[j] != q by {
      forall j | k <= j < k + 7
        ensures t[j] != q
      {
        assert t[k + (j - k)] == key[j - k];
      }
    }
    assert forall j :: n <= j < n + |name| ==> u[j] == name[j - n];
    assert n <= k && k + 7 <= n + |name|;
    forall j | 0 <= j < 7
      ensures name[k - n + j] == key[j]
    {
      assert t[k + j] == key[j] && u[k + j] == name[k + j - n];
    }
  }

  lemma TagWithString(st: Style, name: string, isString: bool)
    ensures var v := if isString then "true" else "false";
            var t := Tag("<", st, "parameter", NameAttrs(st.quote, name, StringAttr(st.quote, isString)));
            var before := TagFront(st, "parameter") + Quoted(st.quote, "name", name) + " ";
            && t == before + "string=" + ([st.quote] + v + [st.quote] + ">")
            && before + "string=" == UpToString(st.quote, TagFront(st, "parameter"), name)
            && UpToString(st.quote, TagFront(st, "parameter"), name) <= t
  {
    hide TagFront, Tag, NameAttrs;
    TagWithName(st, "parameter", name, StringAttr(st.quote, isString));
    var v := if isString then "true" else "false";
    var before := TagFront(st, "parameter") + Quoted(st.quote, "name", name) + " ";
    assert before + "string=" == UpToString(st.quote, TagFront(st, "parameter"), name);
    assert StringAttr(st.quote, isString) == " " + "string=" + ([st.quote] + v + [st.quote]);
  }

  lemma StringReadBack(st: Style, name: string, isString: bool)
    requires Accepted(st) && st.quote !in name && FindFrom(name, "string=", 0).None?
    ensures ExtractAttr(Tag("<", st, "parameter", NameAttrs(st.quote, name, StringAttr(st.quote, isString))), "string") ==
            Some(if isString then "true" else "false")
  {
    hide Accepted, ExtractAttr, OccursAt, Tag, NameAttrs, TagFront, UpToString, Quoted;
    var t, front := Tag("<", st, "parameter", NameAttrs(st.quote, name, StringAttr(st.quote, isString))), TagFront(st, "parameter");
    var v, key := if isString then "true" else "false", "string=";
    QuoteOf(st);
    FrontHasNoEquals(st, "parameter");
    TagWithString(st, name, isString);
    var before := front + Quoted(st.quote, "name", name) + " ";
    assert key == "string" + "=" && |before| + |key| == |UpToString(st.quote, front, name)|;
    forall k | 0 <= k < |before|
      ensures !OccursAt(t, key, k)
    {
      if OccursAt(t, key, k) {
        KeyInsideName(t, st.quote, front, name, k);
      }
    }
    AttrFound(t, before, "string", key, st.quote, v, ">");
  }

  /** In a tag that has a name only, the string key can only lie inside the name. */
  lemma KeyInName(t: string, q: char, front: string, name: string, k: nat)
    requires IsQuote(q) && '=' !in front && t == front + Quoted(q, "name", name) + ">"
    requires OccursAt(t, "string=", k)
    ensures var n := |front| + 6; n <= k && k + 7 <= n + |name|
    ensures OccursAt(name, "string=", k - (|front| + 6))
  {
    var u, n, key := front + Quoted(q, "name", name), |front| + 6, "string=";
    assert forall j :: 0 <= j < |u| ==> t[j] == u[j];
    assert t[|u|] == '>';
    assert forall j :: 0 <= j < |front| ==> u[j] == front[j] && front[j] in front;
    assert u[|front|] == 'n' && u[|front| + 1] == 'a' && u[|front| + 2] == 'm' && u[|front| + 3] == 'e';
    assert u[|front| + 4] == '=' && u[|front| + 5] == q && u[n + |name|] == q;
    assert t[k + 6] == key[6] == '=' && t[k + 5] == key[5] == 'g';
    assert forall j :: k <= j < k + 7 ==> t[j] != q by {
      forall j | k <= j < k + 7
        ensures t[j] != q
      {
        assert t[k + (j - k)] == key[j - k];
      }
    }
    assert forall j :: n <= j < n + |name| ==> u[j] == name[j - n];
    assert n <= k && k + 7 <= n + |name|;
    forall j | 0 <= j < 7
      ensures name[k - n + j] == key[j]
    {
      assert t[k + j] == key[j] && u[k + j] == name[k + j - n];
    }
  }

  /** A tag that has a name only has no string attribute. */
  lemma StringNotThere(st: Style, name: string)
    requires Accepted(st) && FindFrom(name, "string=", 0).None?
    ensures ExtractAttr(Tag("<", st, "parameter", NameAttrs(st.quote, name, "")), "string") == None
  {
    hide Accepted, OccursAt, Tag, NameAttrs, TagFront, Quoted;
    var t, front := Tag("<", st, "parameter", NameAttrs(st.quote, name, "")), TagFront(st, "parameter");
    QuoteOf(st);
    FrontHasNoEquals(st, "parameter");
    TagIsName(st, name);
    assert "string=" == "string" + "=";
    if FindFrom(t, "string=", 0).Some? {
      KeyInName(t, st.quote, front, name, FindFrom(t, "string=", 0).value);
    }
  }

  lemma TagIsName(st: Style, name: string)
    ensures Tag("<", st, "parameter", NameAttrs(st.quote, name, ""))
         == TagFront(st, "parameter") + Quoted(st.quote, "name", name) + ">"
  {
  }

  // ---------- Elements ----------

  /** An element: its opening tag, its content, its closing tag. */
  function Element(st: Style, kind: string, attrs: string, body: string): string {
    Tag("<", st, kind, attrs) + body + Tag("</", st, kind, "")
  }

  /** No tag starts in `pre` when `open` follows it. */
  predicate Leads(pre: string, open: string, kinds: seq<string>) {
    forall k :: 0 <= k < |pre| ==> MatchTagAt(pre + open, k, kinds, false).None?
  }

  lemma BlankLeads(pre: string, open: string, kinds: seq<string>)
    requires '<' !in pre
    ensures Leads(pre, open, kinds)
  {
    hide MatchTagAt;
    assert forall k :: 0 <= k < |pre| ==> (pre + open)[k] == pre[k] && pre[k] in pre;
  }

  /** The tag that `pre` leads to is the first one, whatever follows it. */
  lemma LeadsStays(pre: string, open: string, x: string, kinds: seq<string>)
    requires Leads(pre, open, kinds) && AllPlain(kinds) && open != "" && open[|open| - 1] == '>'
    ensures forall k :: 0 <= k < |pre| ==> MatchTagAt(pre + (open + x), k, kinds, false).None?
  {
    hide MatchTagAt, AllPlain;
    var t, u := pre + open, pre + (open + x);
    assert t[|t| - 1] == '>' && u == t + x;
    forall k | 0 <= k < |pre| ensures MatchTagAt(u, k, kinds, false).None? {
      MatchInPrefix(t, u, k, kinds, false);
    }
  }

  lemma SkipNoTags(t: string, to: nat, kinds: seq<string>)
    requires to <= |t| && forall k :: 0 <= k < to ==> MatchTagAt(t, k, kinds, false).None?
    ensures FindTagFrom(t, 0, kinds, false) == FindTagFrom(t, to, kinds, false)
  {
    hide MatchTagAt;
    var r, r' := FindTagFrom(t, 0, kinds, false), FindTagFrom(t, to, kinds, false);
    if r.Some? && r'.Some? {
      assert r.value.0 <= r'.value.0 && r'.value.0 <= r.value.0;
    }
  }

  lemma ElementOpens(st: Style, kind: string, attrs: string, kinds: seq<string>, pre: string, x: string)
    requires Accepted(st) && Distinguished(kind, kinds) && AllPlain(kinds) && Attributes(attrs, false)
    requires Leads(pre, Tag("<", st, kind, attrs), kinds)
    ensures var open := Tag("<", st, kind, attrs);
            FindOpen(pre + (open + x), 0, kinds) == Some((|pre|, |pre| + |open|))
  {
    hide MatchTagAt, TOOL_CALL_TAGS, MARKERS, Tag, Attributes, Accepted, Distinguished, AllPlain, SkipMarker, Leads;
    var open := Tag("<", st, kind, attrs);
    TagMatches(st, kind, attrs, kinds, false);
    MatchEndsAtGt(open, 0, kinds, false);
    var u := open + x;
    MatchInPrefix(open, u, 0, kinds, false);
    var t := pre + u;
    assert t[|pre|..] == u;
    LeadsStays(pre, open, x, kinds);
    SkipNoTags(t, |pre|, kinds);
    FindShift(u, t, 0, |pre|, kinds, false);
  }

  lemma ElementCloses(st: Style, kind: string, kinds: seq<string>, front: string, body: string, rest: string)
    requires Accepted(st) && Distinguished(kind, kinds) && AllPlain(kinds) && NoClose(body, kinds)
    ensures var close := Tag("</", st, kind, "");
            var q := |front|;
            FindClose(front + (body + (close + rest)), q, kinds) == Some((q + |body|, q + |body| + |close|))
  {
    hide MatchTagAt, TOOL_CALL_TAGS, MARKERS, Tag, Accepted, Distinguished, AllPlain, SkipMarker, NoClose;
    var close := Tag("</", st, kind, "");
    TagMatches(st, kind, "", kinds, true);
    MatchEndsAtGt(close, 0, kinds, true);
    MatchInPrefix(close, close + rest, 0, kinds, true);
    var w := body + (close + rest);
    CloseAfter(body, close + rest, kinds, |close|);
    var t := front + w;
    assert t[|front|..] == w;
    FindShift(w, t, 0, |front|, kinds, true);
  }

  /** Both tags of an element are found where they were printed, and the parts between them are cut out exactly. */
  lemma ElementFound(st: Style, kind: string, attrs: string, kinds: seq<string>, pre: string,
                     body: string, rest: string)
    requires Accepted(st) && Distinguished(kind, kinds) && AllPlain(kinds) && Attributes(attrs, false)
    requires Leads(pre, Tag("<", st, kind, attrs), kinds) && NoClose(body, kinds)
    ensures var t := pre + Element(st, kind, attrs, body) + rest;
            var open := Tag("<", st, kind, attrs);
            var p, q := |pre|, |pre| + |open|;
            var c := q + |body|;
            var e := c + |Tag("</", st, kind, "")|;
            && FindOpen(t, 0, kinds) == Some((p, q)) && q <= |t| && FindClose(t, q, kinds) == Some((c, e))
            && t[..p] == pre && t[p..q] == open && t[q..c] == body && t[e..] == rest && e <= |t|
  {
    hide FindOpen, FindClose, TOOL_CALL_TAGS, MARKERS, Tag, Accepted, Attributes, NoClose, Leads;
    var open, close := Tag("<", st, kind, attrs), Tag("</", st, kind, "");
    var t := pre + Element(st, kind, attrs, body) + rest;
    var x := body + (close + rest);
    ElementOpens(st, kind, attrs, kinds, pre, x);
    assert t == pre + (open + x);
    ElementCloses(st, kind, kinds, pre + open, body, rest);
    assert t == (pre + open) + x;
    ElementSlices(pre, open, body, close, rest);
    assert t == pre + open + body + close + rest;
  }

  lemma ElementSlices(pre: string, open: string, body: string, close: string, rest: string)
    ensures var t := pre + open + body + close + rest;
            var p, q := |pre|, |pre| + |open|;
            var c := q + |body|;
            var e := c + |close|;
            t[..p] == pre && t[p..q] == open && t[q..c] == body && t[e..] == rest
  {
  }

  /** An element of one kind brings no closing tag of another kind, if its body and what follows bring none. */
  lemma ElementNoClose(st: Style, kind: string, attrs: string, own: seq<string>, names: seq<string>,
                       pre: string, body: string, rest: string)
    requires Accepted(st) && Distinguished(kind, own) && AllPlain(own) && AllPlain(names)
    requires Attributes(attrs, false) && attrs != "" && IsQuote(attrs[|attrs| - 1])
    requires forall n :: n in names ==> n[0] != kind[0]
    requires '<' !in pre && NoClose(body, names) && NoClose(rest, names)
    ensures NoClose(pre + Element(st, kind, attrs, body) + rest, names)
  {
    hide TOOL_CALL_TAGS, MARKERS, NoClose, AllPlain, Distinguished, Attributes, Accepted;
    var open, close := Tag("<", st, kind, attrs), Tag("</", st, kind, "");
    assert open[0] == '<' && open[|open| - 1] == '>' && close[0] == '<' && close[|close| - 1] == '>';
    OpenHoldsNoClose(st, kind, attrs, own, names);
    ForeignClose(st, kind, own, names);
    NoTagInBlank(pre, names);
    hide Tag;
    NoCloseConcat(pre, open, names);
    assert (pre + open)[|pre + open| - 1] == '>';
    NoCloseConcat(pre + open, body, names);
    NoCloseConcat(pre + open + body, close, names);
    assert (pre + open + body + close)[|pre + open + body + close| - 1] == '>';
    NoCloseConcat(pre + open + body + close, rest, names);
    assert pre + Element(st, kind, attrs, body) + rest == pre + open + body + close + rest;
  }

  lemma NoTagInBlank(t: string, names: seq<string>)
    requires '<' !in t
    ensures NoClose(t, names)
  {
    hide FindTagFrom;
    BlankHoldsNoTag(t, names, true);
  }
}
