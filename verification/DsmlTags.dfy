/**
 * DSML tags: matchers for opening and closing tags, search for the first tag, and the test for a partial opening tag.
 *
 * The matchers follow the string operations of the source one by one. `MatchEndsAtGt` and `MatchLocal` show that a tag
 * always ends at the first '>' after its start and that nothing outside the tag decides whether it matches; every fact
 * about text arriving in pieces rests on these two.
 */
module DsmlTags {
  import opened Wrappers
  import opened Text

  const MARKERS: seq<string> := [
    "\U{FF5C}\U{FF5C}DSML\U{FF5C}\U{FF5C}",
    "\U{FF5C}\U{FF5C}DSML\U{FF5C}",
    "\U{FF5C}DSML\U{FF5C}\U{FF5C}",
    "\U{FF5C}DSML\U{FF5C}"
  ]
  const TOOL_CALL_TAGS: seq<string> := ["tool_calls", "calls", "function_calls"]
  const INVOKE_TAGS: seq<string> := ["invoke"]
  const PARAMETER_TAGS: seq<string> := ["parameter"]
  const MAX_TAG_LEN := 64

  /** Tag names and markers use none of the characters that delimit a tag. */
  predicate Plain(name: string) {
    name != [] && '<' !in name && '>' !in name && '/' !in name && '"' !in name && '\'' !in name
  }

  predicate AllPlain(names: seq<string>) {
    forall name :: name in names ==> Plain(name)
  }

  lemma MarkersArePlain()
    ensures AllPlain(MARKERS)
  {
    assert Plain(MARKERS[0]) && Plain(MARKERS[1]) && Plain(MARKERS[2]) && Plain(MARKERS[3]);
  }

  lemma OuterNamesArePlain()
    ensures AllPlain(TOOL_CALL_TAGS)
  {
    hide Plain;
    LongNameIsPlain();
    ShortNamesArePlain();
  }

  lemma LongNameIsPlain()
    ensures Plain("function_calls")
  {
  }

  lemma ShortNamesArePlain()
    ensures Plain("tool_calls") && Plain("calls")
  {
  }

  lemma InnerNamesArePlain()
    ensures AllPlain(INVOKE_TAGS) && AllPlain(PARAMETER_TAGS)
  {
    assert Plain("invoke");
    assert Plain("parameter");
  }

  // ---------- Matching at an index ----------

  /** Index just past the first of `forms` that occurs at `i`. */
  function SkipFirst(t: string, i: nat, forms: seq<string>): (r: Option<nat>)
    ensures r.Some? ==> i <= r.value <= |t|
    decreases |forms|
  {
    if forms == [] then None
    else if OccursAt(t, forms[0], i) then Some(i + |forms[0]|)
    else SkipFirst(t, i, forms[1..])
  }

  /** Index just past a DSML marker at `i` and the whitespace after it; longer markers are tried first. */
  function SkipMarker(t: string, i: nat): (r: Option<nat>)
    ensures r.Some? ==> i <= r.value <= |t|
  {
    var m := SkipFirst(t, i, MARKERS);
    if m.Some? then Some(SkipWs(t, m.value)) else None
  }

  /** After the name: optional whitespace and '>', or whitespace, attributes and '>'. Index just past the '>'. */
  function OpenTail(t: string, i: nat): (r: Option<nat>)
    requires i <= |t|
    ensures r.Some? ==> i < r.value <= |t|
  {
    var w := SkipWs(t, i);
    if w < |t| && t[w] == '>' then Some(w + 1)
    else if w > i && IndexFrom(t, '>', w) < |t| then Some(IndexFrom(t, '>', w) + 1)
    else None
  }

  /** After the name of a closing tag: optional whitespace and '>'. */
  function CloseTail(t: string, i: nat): (r: Option<nat>)
    requires i <= |t|
    ensures r.Some? ==> i < r.value <= |t|
  {
    var w := SkipWs(t, i);
    if w < |t| && t[w] == '>' then Some(w + 1) else None
  }

  function Tail(t: string, i: nat, closing: bool): (r: Option<nat>)
    requires i <= |t|
    ensures r.Some? ==> i < r.value <= |t|
  {
    if closing then CloseTail(t, i) else OpenTail(t, i)
  }

  /** The first name that occurs at `i` and is followed by a proper end of the tag. */
  function MatchName(t: string, i: nat, names: seq<string>, closing: bool): (r: Option<nat>)
    ensures r.Some? ==> i < r.value <= |t|
    decreases |names|
  {
    if names == [] then None
    else
      var tail := if OccursAt(t, names[0], i) then Tail(t, i + |names[0]|, closing) else None;
      if tail.Some? then tail else MatchName(t, i, names[1..], closing)
  }

  /** The bracket a tag starts with. */
  function Bracket(closing: bool): string {
    if closing then "</" else "<"
  }

  /** Index just past the tag that starts at `i`: `match_open_tag_at` and `match_close_tag_at`. */
  function MatchTagAt(t: string, i: nat, names: seq<string>, closing: bool): (r: Option<nat>)
    ensures r.Some? ==> i < r.value <= |t| && t[i] == '<'
  {
    if !OccursAt(t, Bracket(closing), i) then None
    else
      var bracket := Bracket(closing);
      assert t[i + 0] == bracket[0];
      var rest := SkipMarker(t, i + |bracket|);
      if rest.None? then None else MatchName(t, rest.value, names, closing)
  }

  // ---------- Where a match ends and what it depends on ----------

  lemma {:induction false} SkipFirstPlain(t: string, i: nat, forms: seq<string>)
    requires AllPlain(forms) && SkipFirst(t, i, forms).Some?
    ensures forall k :: i <= k < SkipFirst(t, i, forms).value ==> t[k] != '<' && t[k] != '>'
    decreases |forms|
  {
    var form := forms[0];
    if OccursAt(t, form, i) {
      assert Plain(form);
      forall k | i <= k < i + |form|
        ensures t[k] != '<' && t[k] != '>'
      {
        assert t[i + (k - i)] == form[k - i] && form[k - i] in form;
      }
    } else {
      SkipFirstPlain(t, i, forms[1..]);
    }
  }

  lemma {:induction false} SkipFirstLocal(t: string, u: string, i: nat, e: int, d: int, forms: seq<string>)
    requires Agree(t, u, i, e, d) && i < e && t[e - 1] == '>' && AllPlain(forms)
    ensures SkipFirst(u, i + d, forms).Some? == SkipFirst(t, i, forms).Some?
    ensures SkipFirst(t, i, forms).Some? ==>
              SkipFirst(u, i + d, forms).value == SkipFirst(t, i, forms).value + d && SkipFirst(t, i, forms).value < e
    decreases |forms|
  {
    if forms != [] {
      assert Plain(forms[0]);
      OccursLocal(t, u, forms[0], i, e, d, '>');
      if !OccursAt(t, forms[0], i) {
        SkipFirstLocal(t, u, i, e, d, forms[1..]);
      }
    }
  }

  lemma SkipMarkerLocal(t: string, u: string, i: nat, e: int, d: int)
    requires Agree(t, u, i, e, d) && i < e && t[e - 1] == '>'
    ensures SkipMarker(u, i + d).Some? == SkipMarker(t, i).Some?
    ensures SkipMarker(t, i).Some? ==>
              SkipMarker(u, i + d).value == SkipMarker(t, i).value + d && SkipMarker(t, i).value < e
  {
    MarkersArePlain();
    SkipFirstLocal(t, u, i, e, d, MARKERS);
    if SkipMarker(t, i).Some? {
      SkipWsLocal(t, u, SkipFirst(t, i, MARKERS).value, e, d);
    }
  }

  lemma TailLocal(t: string, u: string, i: nat, e: int, d: int, closing: bool)
    requires Agree(t, u, i, e, d) && i < e && t[e - 1] == '>'
    ensures Tail(u, i + d, closing).Some? == Tail(t, i, closing).Some?
    ensures Tail(t, i, closing).Some? ==>
              Tail(u, i + d, closing).value == Tail(t, i, closing).value + d && Tail(t, i, closing).value <= e
  {
    SkipWsLocal(t, u, i, e, d);
    var w := SkipWs(t, i);
    IndexFromLocal(t, u, '>', w, e, d);
  }

  lemma {:induction false} MatchNameLocal(t: string, u: string, i: nat, e: int, d: int, names: seq<string>, closing: bool)
    requires Agree(t, u, i, e, d) && i < e && t[e - 1] == '>' && AllPlain(names)
    ensures MatchName(u, i + d, names, closing).Some? == MatchName(t, i, names, closing).Some?
    ensures MatchName(t, i, names, closing).Some? ==>
              && MatchName(u, i + d, names, closing).value == MatchName(t, i, names, closing).value + d
              && MatchName(t, i, names, closing).value <= e
    decreases |names|
  {
    hide Tail, OccursAt;
    if names != [] {
      var name := names[0];
      assert Plain(name);
      OccursLocal(t, u, name, i, e, d, '>');
      if OccursAt(t, name, i) {
        TailLocal(t, u, i + |name|, e, d, closing);
      }
      MatchNameLocal(t, u, i, e, d, names[1..], closing);
    }
  }

  /** Two texts that agree from `i` up to a '>' match the same tags there. */
  lemma MatchLocal(t: string, u: string, i: nat, e: int, d: int, names: seq<string>, closing: bool)
    requires Agree(t, u, i, e, d) && i < e && t[e - 1] == '>' && AllPlain(names)
    ensures MatchTagAt(u, i + d, names, closing).Some? == MatchTagAt(t, i, names, closing).Some?
    ensures MatchTagAt(t, i, names, closing).Some? ==>
              && MatchTagAt(u, i + d, names, closing).value == MatchTagAt(t, i, names, closing).value + d
              && MatchTagAt(t, i, names, closing).value <= e
  {
    hide SkipMarker, OccursAt, MatchName;
    var bracket := Bracket(closing);
    OccursLocal(t, u, bracket, i, e, d, '>');
    if OccursAt(t, bracket, i) {
      SkipMarkerLocal(t, u, i + |bracket|, e, d);
      var rest := SkipMarker(t, i + |bracket|);
      if rest.Some? {
        MatchNameLocal(t, u, rest.value, e, d, names, closing);
      }
    }
  }

  lemma {:induction false} MatchNameEnds(t: string, i: nat, names: seq<string>, closing: bool)
    requires AllPlain(names) && MatchName(t, i, names, closing).Some?
    ensures var e := MatchName(t, i, names, closing).value;
            && t[e - 1] == '>'
            && (forall k :: i <= k < e - 1 ==> t[k] != '>')
            && (closing ==> forall k :: i <= k < e ==> t[k] != '<')
    decreases |names|
  {
    hide OccursAt;
    var name := names[0];
    assert Plain(name);
    if OccursAt(t, name, i) && Tail(t, i + |name|, closing).Some? {
      OccursPlain(t, name, i);
    } else {
      MatchNameEnds(t, i, names[1..], closing);
    }
  }

  lemma OccursPlain(t: string, form: string, i: nat)
    requires OccursAt(t, form, i) && '<' !in form && '>' !in form
    ensures i + |form| <= |t|
    ensures forall k :: i <= k < i + |form| ==> t[k] != '<' && t[k] != '>'
  {
    forall k | i <= k < i + |form|
      ensures t[k] != '<' && t[k] != '>'
    {
      assert t[i + (k - i)] == form[k - i] && form[k - i] in form;
    }
  }

  lemma OccursNoGt(t: string, bracket: string, i: nat)
    requires OccursAt(t, bracket, i) && (bracket == "<" || bracket == "</")
    ensures i + |bracket| <= |t|
    ensures forall k :: i <= k < i + |bracket| ==> t[k] != '>'
    ensures forall k :: i < k < i + |bracket| ==> t[k] != '<'
  {
    forall k | i <= k < i + |bracket|
      ensures t[k] == bracket[k - i]
    {
      assert t[i + (k - i)] == bracket[k - i];
    }
  }

  lemma SkipMarkerPlain(t: string, i: nat)
    requires SkipMarker(t, i).Some?
    ensures forall k :: i <= k < SkipMarker(t, i).value ==> t[k] != '<' && t[k] != '>'
  {
    MarkersArePlain();
    SkipFirstPlain(t, i, MARKERS);
  }

  /** A tag ends at the first '>' after its start; a closing tag holds no second '<'. */
  lemma MatchEndsAtGt(t: string, i: nat, names: seq<string>, closing: bool)
    requires AllPlain(names) && MatchTagAt(t, i, names, closing).Some?
    ensures var e := MatchTagAt(t, i, names, closing).value;
            && IndexFrom(t, '>', i) == e - 1
            && (closing ==> forall k :: i < k < e ==> t[k] != '<')
  {
    hide SkipMarker, MatchName;
    var bracket := Bracket(closing);
    OccursNoGt(t, bracket, i);
    var rest := SkipMarker(t, i + |bracket|).value;
    SkipMarkerPlain(t, i + |bracket|);
    MatchNameEnds(t, rest, names, closing);
  }

  /** Appending text after a '>' does not change what matches before it. */
  lemma {:induction false} MatchInPrefix(t: string, u: string, i: nat, names: seq<string>, closing: bool)
    requires t <= u && AllPlain(names) && i <= |t| && IndexFrom(t, '>', i) < |t|
    ensures MatchTagAt(u, i, names, closing) == MatchTagAt(t, i, names, closing)
  {
    hide MatchTagAt;
    MatchLocal(t, u, i, IndexFrom(t, '>', i) + 1, 0, names, closing);
  }

  /** A match depends only on the text from its start on. */
  lemma MatchShift(t: string, u: string, i: nat, d: nat, names: seq<string>, closing: bool)
    requires AllPlain(names) && d <= |u| && u[d..] == t && i <= |t|
    ensures MatchTagAt(u, i + d, names, closing).Some? == MatchTagAt(t, i, names, closing).Some?
    ensures MatchTagAt(t, i, names, closing).Some? ==>
              MatchTagAt(u, i + d, names, closing).value == MatchTagAt(t, i, names, closing).value + d
  {
    hide MatchTagAt;
    var g := IndexFrom(t, '>', i);
    assert forall k :: 0 <= k < |t| ==> t[k] == u[k + d];
    if g < |t| {
      MatchLocal(t, u, i, g + 1, d, names, closing);
    } else {
      assert forall k :: i + d <= k < |u| ==> u[k] == t[k - d];
      if MatchTagAt(t, i, names, closing).Some? {
        MatchEndsAtGt(t, i, names, closing);
      }
      if MatchTagAt(u, i + d, names, closing).Some? {
        MatchEndsAtGt(u, i + d, names, closing);
      }
    }
  }

  // ---------- Search for the first tag ----------

  /** Start and end of the first tag that starts at or after `from`. */
  function FindTagFrom(t: string, from: nat, names: seq<string>, closing: bool): (r: Option<(nat, nat)>)
    requires from <= |t|
    ensures r.Some? ==> from <= r.value.0 < r.value.1 <= |t|
    ensures r.Some? ==> MatchTagAt(t, r.value.0, names, closing) == Some(r.value.1)
    ensures forall k :: from <= k < (if r.Some? then r.value.0 else |t|) ==> MatchTagAt(t, k, names, closing).None?
    decreases |t| - from
  {
    hide MatchTagAt;
    if from == |t| then None
    else
      var e := MatchTagAt(t, from, names, closing);
      if e.Some? then Some((from, e.value)) else FindTagFrom(t, from + 1, names, closing)
  }

  /** The search loop of the source: jump from one '<' to the next and try to match there. */
  method FindTag(haystack: string, names: seq<string>, closing: bool) returns (r: Option<(nat, nat)>)
    ensures r == FindTagFrom(haystack, 0, names, closing)
  {
    hide MatchTagAt;
    var start := IndexFrom(haystack, '<', 0);
    FindTagSkip(haystack, 0, start, names, closing);
    while start < |haystack|
      invariant start <= |haystack|
      invariant FindTagFrom(haystack, 0, names, closing) == FindTagFrom(haystack, start, names, closing)
    {
      var matched := MatchTagAt(haystack, start, names, closing);
      if matched.Some? {
        return Some((start, matched.value));
      }
      var next := IndexFrom(haystack, '<', start + 1);
      FindTagSkip(haystack, start + 1, next, names, closing);
      start := next;
    }
    return None;
  }

  /** Positions without a '<' can be skipped. */
  lemma {:induction false} FindTagSkip(t: string, from: nat, to: nat, names: seq<string>, closing: bool)
    requires from <= to <= |t| && forall k :: from <= k < to ==> t[k] != '<'
    ensures FindTagFrom(t, from, names, closing) == FindTagFrom(t, to, names, closing)
    decreases |t| - from
  {
    hide MatchTagAt;
    if from < to {
      FindTagSkip(t, from + 1, to, names, closing);
    }
  }

  /** A tag found in a text is found in every extension of it. */
  lemma {:induction false} FindStable(t: string, u: string, from: nat, names: seq<string>, closing: bool)
    requires t <= u && AllPlain(names) && from <= |t| && FindTagFrom(t, from, names, closing).Some?
    ensures FindTagFrom(u, from, names, closing) == FindTagFrom(t, from, names, closing)
  {
    hide MatchTagAt;
    var (p, e) := FindTagFrom(t, from, names, closing).value;
    MatchEndsAtGt(t, p, names, closing);
    forall k | from <= k <= p
      ensures MatchTagAt(u, k, names, closing) == MatchTagAt(t, k, names, closing)
    {
      MatchInPrefix(t, u, k, names, closing);
    }
  }

  /** A tag found in a text is found in every prefix that still holds all of it. */
  lemma {:induction false} FindWithin(t: string, u: string, from: nat, names: seq<string>, closing: bool)
    requires t <= u && AllPlain(names) && from <= |t|
    requires FindTagFrom(u, from, names, closing).Some? && FindTagFrom(u, from, names, closing).value.1 <= |t|
    ensures FindTagFrom(t, from, names, closing) == FindTagFrom(u, from, names, closing)
  {
    hide MatchTagAt;
    var (p, e) := FindTagFrom(u, from, names, closing).value;
    MatchEndsAtGt(u, p, names, closing);
    assert t[e - 1] == '>';
    forall k | from <= k <= p
      ensures MatchTagAt(u, k, names, closing) == MatchTagAt(t, k, names, closing)
    {
      MatchInPrefix(t, u, k, names, closing);
    }
  }

  function Shift(r: Option<(nat, nat)>, d: nat): Option<(nat, nat)> {
    if r.Some? then Some((r.value.0 + d, r.value.1 + d)) else None
  }

  /** Searching a suffix of a text is searching the text from the start of that suffix. */
  lemma {:induction false} FindShift(t: string, u: string, from: nat, d: nat, names: seq<string>, closing: bool)
    requires AllPlain(names) && d <= |u| && u[d..] == t && from <= |t|
    ensures FindTagFrom(u, from + d, names, closing) == Shift(FindTagFrom(t, from, names, closing), d)
    decreases |t| - from
  {
    hide MatchTagAt;
    if from < |t| {
      MatchShift(t, u, from, d, names, closing);
      if MatchTagAt(t, from, names, closing).None? {
        FindShift(t, u, from + 1, d, names, closing);
      }
    }
  }
}
