/**
 * The whole-text DSML parser. The functions define what the parser returns; the methods are the source's loops over
 * `remaining`, proved to compute exactly that.
 *
 * The identifier of a recovered call is a fresh random value and is not modelled. A value that is not marked as a
 * string is parsed as JSON with the text itself as fallback; that parse is a function of the text, kept symbolic.
 */
module DsmlParse {
  import opened Wrappers
  import opened Text
  import opened DsmlTags

  datatype ArgValue = StringValue(text: string) | JsonOrText(text: string)

  datatype Call = Call(name: string, arguments: map<string, ArgValue>)

  /** Cleaned content and recovered calls. */
  datatype Extracted = Extracted(text: string, calls: seq<Call>)

  /** `find_open_tag` / `find_close_tag` over the text from `from` on. */
  function FindOpen(t: string, from: nat, names: seq<string>): (r: Option<(nat, nat)>)
    requires from <= |t|
    ensures r.Some? ==> from <= r.value.0 < r.value.1 <= |t|
  {
    FindTagFrom(t, from, names, false)
  }

  function FindClose(t: string, from: nat, names: seq<string>): (r: Option<(nat, nat)>)
    requires from <= |t|
    ensures r.Some? ==> from <= r.value.0 < r.value.1 <= |t|
  {
    FindTagFrom(t, from, names, true)
  }

  /** The quoted value of the first `attr=` in a tag, in single or double quotes. */
  function ExtractAttr(tag: string, attr: string): Option<string> {
    var pos := FindFrom(tag, attr + "=", 0);
    if pos.None? then None
    else
      var quote := pos.value + |attr| + 1;
      if quote >= |tag| || (tag[quote] != '"' && tag[quote] != '\'') then None
      else
        var end := IndexFrom(tag, tag[quote], quote + 1);
        if end == |tag| then None else Some(tag[quote + 1..end])
  }

  function ParamValue(openTag: string, text: string): ArgValue {
    if ExtractAttr(openTag, "string") == Some("true") then StringValue(text) else JsonOrText(text)
  }

  /** Parameters found in `t`, added to `acc`; a later parameter of the same name replaces an earlier one. */
  function ParseParameters(t: string, acc: map<string, ArgValue>): map<string, ArgValue>
    decreases |t|
  {
    var open := FindOpen(t, 0, PARAMETER_TAGS);
    if open.None? then acc
    else
      var (p, q) := open.value;
      var name := ExtractAttr(t[p..q], "name");
      if name.None? then ParseParameters(t[p + 1..], acc)
      else
        var close := FindClose(t, q, PARAMETER_TAGS);
        if close.None? then acc
        else
          var (c, e) := close.value;
          ParseParameters(t[e..], acc[name.value := ParamValue(t[p..q], t[q..c])])
  }

  /** Invocations found in the body of a block. */
  function ParseInvokes(t: string): seq<Call>
    decreases |t|
  {
    var open := FindOpen(t, 0, INVOKE_TAGS);
    if open.None? then []
    else
      var (p, q) := open.value;
      var name := ExtractAttr(t[p..q], "name");
      if name.None? then ParseInvokes(t[p + 1..])
      else
        var close := FindClose(t, q, INVOKE_TAGS);
        if close.None? then []
        else
          var (c, e) := close.value;
          [Call(name.value, ParseParameters(t[q..c], map[]))] + ParseInvokes(t[e..])
  }

  /** A block without calls is left in the content. */
  function Untouched(parsed: seq<Call>, block: string): string {
    if parsed == [] then block else ""
  }

  /** Cleaned content and calls of a whole text. Incomplete blocks and blocks without calls stay in the content. */
  function Extract(t: string): Extracted
    decreases |t|
  {
    var open := FindOpen(t, 0, TOOL_CALL_TAGS);
    if open.None? then Extracted(t, [])
    else
      var (p, q) := open.value;
      var close := FindClose(t, q, TOOL_CALL_TAGS);
      if close.None? then Extracted(t, [])
      else
        var (c, e) := close.value;
        var parsed := ParseInvokes(t[q..c]);
        var rest := Extract(t[e..]);
        Extracted(t[..p] + Untouched(parsed, t[p..e]) + rest.text, parsed + rest.calls)
  }

  /** One finished block of the batch parser. */
  lemma ExtractBlock(t: string, p: nat, q: nat, c: nat, e: nat)
    requires FindOpen(t, 0, TOOL_CALL_TAGS) == Some((p, q))
    requires q <= |t| && FindClose(t, q, TOOL_CALL_TAGS) == Some((c, e))
    ensures p < q <= c < e <= |t|
    ensures var parsed := ParseInvokes(t[q..c]);
            && Extract(t).text == t[..p] + Untouched(parsed, t[p..e]) + Extract(t[e..]).text
            && Extract(t).calls == parsed + Extract(t[e..]).calls
  {
    hide FindOpen, FindClose, TOOL_CALL_TAGS, ParseInvokes;
  }

  /** A text without a finished block is returned as it is. */
  lemma ExtractUnfinished(t: string)
    requires var open := FindOpen(t, 0, TOOL_CALL_TAGS);
             open.None? || FindClose(t, open.value.1, TOOL_CALL_TAGS).None?
    ensures Extract(t) == Extracted(t, [])
  {
    hide FindOpen, FindClose, TOOL_CALL_TAGS, ParseInvokes;
  }

  // ---------- The loops ----------

  method ParseParametersLoop(body: string) returns (args: map<string, ArgValue>)
    ensures args == ParseParameters(body, map[])
  {
    hide FindTagFrom, ExtractAttr, ParamValue, AllPlain;
    InnerNamesArePlain();
    args := map[];
    var remaining := body;
    var open := FindTag(remaining, PARAMETER_TAGS, false);
    while open.Some?
      invariant open == FindOpen(remaining, 0, PARAMETER_TAGS)
      invariant ParseParameters(body, map[]) == ParseParameters(remaining, args)
      decreases |remaining|
    {
      var (paramStart, bodyStart) := open.value;
      var openTag := remaining[paramStart..bodyStart];
      var name := ExtractAttr(openTag, "name");
      if name.None? {
        remaining := remaining[paramStart + 1..];
      } else {
        var close := FindTagAfter(remaining, bodyStart, PARAMETER_TAGS);
        if close.None? {
          return;
        }
        var (closePos, closeEnd) := close.value;
        args := args[name.value := ParamValue(openTag, remaining[bodyStart..closePos])];
        remaining := remaining[closeEnd..];
      }
      open := FindTag(remaining, PARAMETER_TAGS, false);
    }
  }

  /** A closing tag searched in the rest of `t` from `from` on, as positions in `t`. */
  method FindTagAfter(t: string, from: nat, names: seq<string>) returns (r: Option<(nat, nat)>)
    requires from <= |t| && AllPlain(names)
    ensures r == FindClose(t, from, names)
  {
    var inRest := FindTag(t[from..], names, true);
    FindShift(t[from..], t, 0, from, names, true);
    r := Shift(inRest, from);
  }

  /** One complete invocation moves the loop's list on. */
  lemma {:induction false} InvokeAdvance(calls: seq<Call>, t: string, p: nat, q: nat, c: nat, e: nat, name: string)
    requires FindOpen(t, 0, INVOKE_TAGS) == Some((p, q)) && q <= |t| && ExtractAttr(t[p..q], "name") == Some(name)
    requires FindClose(t, q, INVOKE_TAGS) == Some((c, e))
    ensures p < q <= c < e <= |t|
    ensures calls + ParseInvokes(t) == calls + [Call(name, ParseParameters(t[q..c], map[]))] + ParseInvokes(t[e..])
  {
    hide FindOpen, FindClose, INVOKE_TAGS, ExtractAttr, ParseParameters;
  }

  method ParseInvokeBlocks(body: string) returns (calls: seq<Call>)
    ensures calls == ParseInvokes(body)
  {
    hide FindTagFrom, ExtractAttr, ParseParameters, AllPlain, INVOKE_TAGS, ParseInvokes;
    InnerNamesArePlain();
    calls := [];
    var remaining := body;
    var open := FindTag(remaining, INVOKE_TAGS, false);
    while open.Some?
      invariant open == FindOpen(remaining, 0, INVOKE_TAGS)
      invariant ParseInvokes(body) == calls + ParseInvokes(remaining)
      decreases |remaining|
    {
      InvokeSkip(remaining);
      var (invokeStart, bodyStart) := open.value;
      var name := ExtractAttr(remaining[invokeStart..bodyStart], "name");
      if name.None? {
        remaining := remaining[invokeStart + 1..];
      } else {
        var close := FindTagAfter(remaining, bodyStart, INVOKE_TAGS);
        if close.None? {
          return;
        }
        var (closePos, closeEnd) := close.value;
        InvokeAdvance(calls, remaining, invokeStart, bodyStart, closePos, closeEnd, name.value);
        var arguments := ParseParametersLoop(remaining[bodyStart..closePos]);
        calls := calls + [Call(name.value, arguments)];
        remaining := remaining[closeEnd..];
      }
      open := FindTag(remaining, INVOKE_TAGS, false);
    }
    InvokeSkip(remaining);
  }

  /** Rounds that add no invocation: none found, no name, or no end. */
  lemma InvokeSkip(t: string)
    ensures var open := FindOpen(t, 0, INVOKE_TAGS);
            if open.None? then ParseInvokes(t) == []
            else
              var (p, q) := open.value;
              if ExtractAttr(t[p..q], "name").None? then ParseInvokes(t) == ParseInvokes(t[p + 1..])
              else FindClose(t, q, INVOKE_TAGS).None? ==> ParseInvokes(t) == []
  {
    hide FindOpen, FindClose, INVOKE_TAGS, ExtractAttr, ParseParameters;
  }

  /** One round of the loop moves its variables on without changing what is still owed. */
  lemma {:induction false} ExtractAdvance(cleaned: string, calls: seq<Call>, t: string, p: nat, q: nat, c: nat, e: nat)
    requires FindOpen(t, 0, TOOL_CALL_TAGS) == Some((p, q)) && q <= |t|
    requires FindClose(t, q, TOOL_CALL_TAGS) == Some((c, e))
    ensures p < q <= c < e <= |t|
    ensures var parsed := ParseInvokes(t[q..c]);
            var emitted := cleaned + t[..p];
            && (parsed == [] ==> cleaned + Extract(t).text == emitted + t[p..e] + Extract(t[e..]).text)
            && (parsed != [] ==> cleaned + Extract(t).text == emitted + Extract(t[e..]).text)
            && calls + Extract(t).calls == calls + parsed + Extract(t[e..]).calls
  {
    hide FindOpen, FindClose, TOOL_CALL_TAGS, Extract, ParseInvokes;
    ExtractBlock(t, p, q, c, e);
  }

  lemma SplitAt(a: string, t: string, p: nat)
    requires p <= |t|
    ensures a + t[..p] + t[p..] == a + t
  {
    assert t == t[..p] + t[p..];
  }

  method ExtractToolCalls(content: string) returns (cleaned: string, calls: seq<Call>)
    ensures cleaned == Extract(content).text && calls == Extract(content).calls
  {
    hide FindTagFrom, ParseInvokes, AllPlain, TOOL_CALL_TAGS, Extract, ExtractAttr, ParseParameters;
    OuterNamesArePlain();
    cleaned, calls := "", [];
    var remaining := content;
    var open := FindTag(remaining, TOOL_CALL_TAGS, false);
    while open.Some?
      invariant open == FindOpen(remaining, 0, TOOL_CALL_TAGS)
      invariant Extract(content).text == cleaned + Extract(remaining).text
      invariant Extract(content).calls == calls + Extract(remaining).calls
      decreases |remaining|
    {
      var (openPos, blockStart) := open.value;
      var close := FindTagAfter(remaining, blockStart, TOOL_CALL_TAGS);
      if close.None? {
        ExtractUnfinished(remaining);
        SplitAt(cleaned, remaining, openPos);
        cleaned := cleaned + remaining[..openPos];
        cleaned := cleaned + remaining[openPos..];
        return;
      }
      var (closePos, blockEnd) := close.value;
      ExtractAdvance(cleaned, calls, remaining, openPos, blockStart, closePos, blockEnd);
      cleaned := cleaned + remaining[..openPos];
      var parsed := ParseInvokeBlocks(remaining[blockStart..closePos]);
      if parsed == [] {
        cleaned := cleaned + remaining[openPos..blockEnd];
      }
      calls := calls + parsed;
      remaining := remaining[blockEnd..];
      open := FindTag(remaining, TOOL_CALL_TAGS, false);
    }
    ExtractUnfinished(remaining);
    cleaned := cleaned + remaining;
  }
}
