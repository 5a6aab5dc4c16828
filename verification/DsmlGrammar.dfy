/**
 * The grammar of tags, and that the matchers accept exactly its words: a bracket, a marker, whitespace, a name, whitespace
 * or attributes, and a '>'.
 */
module DsmlGrammar {
  import opened Wrappers
  import opened Text
  import opened DsmlTags
  import opened DsmlPrint

  /** The words of the grammar. */
  ghost predicate IsTag(t: string, names: seq<string>, closing: bool) {
    exists marker, gap, name, attrs ::
      Spells(t, marker, gap, name, attrs, closing) && marker in MARKERS && Blank(gap) && name in names
      && Attributes(attrs, closing)
  }

  predicate Spells(t: string, marker: string, gap: string, name: string, attrs: string, closing: bool) {
    t == Bracket(closing) + marker + gap + name + attrs + ">"
  }

  /** The kinds of tags there are. */
  predicate IsKind(names: seq<string>) {
    names == TOOL_CALL_TAGS || names == INVOKE_TAGS || names == PARAMETER_TAGS
  }

  lemma KindIsDistinguished(names: seq<string>, name: string)
    requires IsKind(names) && name in names
    ensures Distinguished(name, names)
  {
    if names == TOOL_CALL_TAGS {
      WrapperIsDistinguished(name);
    }
  }

  lemma KindIsPlain(names: seq<string>)
    requires IsKind(names)
    ensures AllPlain(names)
  {
    hide AllPlain;
    OuterNamesArePlain();
    InnerNamesArePlain();
  }

  // ---------- Every word matches ----------

  lemma WordMatches(t: string, names: seq<string>, closing: bool)
    requires IsKind(names) && IsTag(t, names, closing)
    ensures MatchTagAt(t, 0, names, closing) == Some(|t|)
  {
    hide MARKERS, TOOL_CALL_TAGS, INVOKE_TAGS, PARAMETER_TAGS, MatchTagAt, Distinguished, Attributes, SkipMarker, Blank;
    var marker, gap, name, attrs :|
      Spells(t, marker, gap, name, attrs, closing) && marker in MARKERS && Blank(gap) && name in names
      && Attributes(attrs, closing);
    var wrapper := AnOuterName();
    var st := Style(marker, gap, wrapper, "", '"');
    NothingIsBlank();
    KindIsDistinguished(names, name);
    TagMatches(st, name, attrs, names, closing);
  }

  lemma NothingIsBlank()
    ensures Blank("")
  {
  }

  // ---------- Every match is a word ----------

  lemma {:induction false} MarkerSkipped(t: string, i: nat, forms: seq<string>) returns (marker: string)
    requires SkipFirst(t, i, forms).Some?
    ensures marker in forms && OccursAt(t, marker, i) && SkipFirst(t, i, forms) == Some(i + |marker|)
    decreases |forms|
  {
    hide OccursAt;
    if OccursAt(t, forms[0], i) {
      marker := forms[0];
    } else {
      marker := MarkerSkipped(t, i, forms[1..]);
    }
  }

  lemma {:induction false} NameMatched(t: string, i: nat, names: seq<string>, closing: bool) returns (name: string)
    requires MatchName(t, i, names, closing).Some?
    ensures name in names && OccursAt(t, name, i) && i + |name| <= |t|
    ensures Tail(t, i + |name|, closing) == MatchName(t, i, names, closing)
    decreases |names|
  {
    hide Tail;
    if OccursAt(t, names[0], i) && Tail(t, i + |names[0]|, closing).Some? {
      name := names[0];
    } else {
      name := NameMatched(t, i, names[1..], closing);
    }
  }

  /** Between the name and the end of a match stands what may stand there. */
  lemma TailIsAttributes(t: string, i: nat, closing: bool)
    requires i <= |t| && Tail(t, i, closing) == Some(|t|)
    requires forall k :: i <= k < |t| - 1 ==> t[k] != '>'
    ensures i < |t| && t[|t| - 1] == '>' && Attributes(t[i..|t| - 1], closing)
  {
    hide IsWhitespace;
    AngleIsNotBlank();
  }

  lemma SlicesSpell(t: string, marker: string, i: nat, j: nat, name: string, closing: bool)
    requires OccursAt(t, Bracket(closing), 0) && OccursAt(t, marker, |Bracket(closing)|)
    requires i == |Bracket(closing)| + |marker| <= j <= |t| && OccursAt(t, name, j) && j + |name| < |t|
    requires t[|t| - 1] == '>'
    ensures Spells(t, marker, t[i..j], name, t[j + |name|..|t| - 1], closing)
  {
    OccursIsSlice(t, 0, Bracket(closing));
    OccursIsSlice(t, |Bracket(closing)|, marker);
    OccursIsSlice(t, j, name);
  }

  lemma MatchIsWord(t: string, names: seq<string>, closing: bool)
    requires IsKind(names) && MatchTagAt(t, 0, names, closing) == Some(|t|)
    ensures IsTag(t, names, closing)
  {
    hide MARKERS, TOOL_CALL_TAGS, INVOKE_TAGS, PARAMETER_TAGS, OccursAt, Tail, IsWhitespace, Attributes, IsKind, MatchName,
      SkipFirst, Spells;
    KindIsPlain(names);
    MatchEndsAtGt(t, 0, names, closing);
    var br := Bracket(closing);
    var marker := MarkerSkipped(t, |br|, MARKERS);
    var i := |br| + |marker|;
    var j := SkipWs(t, i);
    var name := NameMatched(t, j, names, closing);
    TailIsAttributes(t, j + |name|, closing);
    SlicesSpell(t, marker, i, j, name, closing);
    assert Blank(t[i..j]);
  }

  /** For every text: the matchers accept exactly the words of the grammar, wherever they stand. */
  lemma MatchesAreWords(t: string, i: nat, e: nat, names: seq<string>, closing: bool)
    requires IsKind(names) && i < e <= |t|
    ensures MatchTagAt(t, i, names, closing) == Some(e) <==> IsTag(t[i..e], names, closing)
  {
    hide MatchTagAt, IsTag, IsKind, AllPlain;
    KindIsPlain(names);
    var u := t[i..e];
    if MatchTagAt(t, i, names, closing) == Some(e) {
      MatchEndsAtGt(t, i, names, closing);
      var back: int := 0 - i;
      MatchLocal(t, u, i, e, back, names, closing);
      MatchIsWord(u, names, closing);
    }
    if IsTag(u, names, closing) {
      WordMatches(u, names, closing);
      MatchEndsAtGt(u, 0, names, closing);
      MatchLocal(u, t, 0, |u|, i, names, closing);
    }
  }
}
