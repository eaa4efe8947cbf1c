/**
 * The indexed-list reconstructors: ordered chat messages and tool calls
 * rebuilt from flat attribute keys of the form `<prefix>.<i>.<field>`, by
 * probing i = 0, 1, … and stopping at the first gap. Each loop is a method
 * proved against a specification: the position where the run of present
 * keys ends, and one element per position before it. The keys of a family
 * are pairwise distinct, so the finite attribute map bounds every run of
 * present keys, which is what makes both the loops and the run-end
 * functions terminate.
 */
module IndexedLists {
  import opened Wrappers
  import opened Json
  import opened Text
  import opened Domain
  import opened AttributeKeys
  import opened Collaborators
  import opened SpanAttributesFacade

  // ---------------------------------------------------------------------
  // Runs of present keys are bounded by the size of the map

  /** The keys f(0), …, f(n-1). */
  ghost function KeysBelow(f: nat -> string, n: nat): set<string>
  {
    if n == 0 then {} else KeysBelow(f, n - 1) + {f(n - 1)}
  }

  lemma {:induction false} KeysBelowSize(f: nat -> string, n: nat)
    requires Injective(f)
    ensures |KeysBelow(f, n)| == n
    ensures forall j :: 0 <= j < n ==> f(j) in KeysBelow(f, n)
    ensures forall k :: k in KeysBelow(f, n) ==> exists j :: 0 <= j < n && f(j) == k
  {
    if n > 0 {
      KeysBelowSize(f, n - 1);
      assert f(n - 1) !in KeysBelow(f, n - 1);
    }
  }

  /** The keys f(0), …, f(n-1) are all present in `a`. */
  ghost predicate PresentBelow(a: Attributes, f: nat -> string, n: nat)
  {
    forall j :: 0 <= j < n ==> f(j) in a
  }

  /** n distinct present keys need a map of at least n entries. */
  lemma PresentBelowBounded(a: Attributes, f: nat -> string, n: nat)
    requires Injective(f) && PresentBelow(a, f, n)
    ensures n <= |a|
  {
    KeysBelowSize(f, n);
    var present := KeysBelow(f, n);
    assert present <= a.Keys;
    assert |a.Keys| == |present| + |a.Keys - present|;
  }

  // ---------------------------------------------------------------------
  // Input chat messages: `input_chat_messages_from_prompt_content`

  /** Each content part resolved, in source order. */
  function ResolveAll(c: Codecs, parts: seq<Value>): (r: seq<ContentPart>)
  {
    seq(|parts|, k requires 0 <= k < |parts| => c.resolveContentPart(parts[k]))
  }

  /**
   * The message at position `i`: the content string (`""` when it is not a
   * string), the role (`"user"` when absent or not a string), and the
   * content either as resolved parts, when it parses as a part list, or as
   * plain text.
   */
  function PromptMessageAt(a: Attributes, c: Codecs, i: nat): (m: ChatMessage)
    ensures StringAttribute(a, PromptRoleKey(i)).Some? ==> m.role == StringAttribute(a, PromptRoleKey(i)).value
    ensures StringAttribute(a, PromptRoleKey(i)).None? ==> m.role == "user"
    ensures var content := StringAttribute(a, PromptContentKey(i)).GetOr("");
      && (m.content.Text? <==> c.parseContentParts(content).None?)
      && (m.content.Text? ==> m.content.text == content)
      && (m.content.ContentPartList? ==>
            |m.content.parts| == |c.parseContentParts(content).value|
            && forall k :: 0 <= k < |m.content.parts| ==>
                 m.content.parts[k] == c.resolveContentPart(c.parseContentParts(content).value[k]))
  {
    var content := StringAttribute(a, PromptContentKey(i)).GetOr("");
    var role := StringAttribute(a, PromptRoleKey(i)).GetOr("user");
    match c.parseContentParts(content)
    case Some(parts) => ChatMessage(role, ContentPartList(ResolveAll(c, parts)))
    case None => ChatMessage(role, Text(content))
  }

  /** Where the run of present content keys that starts at `i` ends: the first missing position. */
  function PromptRunEnd(a: Attributes, i: nat): (n: nat)
    requires PresentBelow(a, PromptContentKey, i)
    ensures i <= n
    ensures PresentBelow(a, PromptContentKey, n) && PromptContentKey(n) !in a
    decreases |a| - i
  {
    if PromptContentKey(i) in a then
      PromptContentKeyInjective();
      PresentBelowBounded(a, PromptContentKey, i + 1);
      PromptRunEnd(a, i + 1)
    else
      i
  }

  /** The messages up to the first missing content key, message j built from position j. */
  function PromptMessages(a: Attributes, c: Codecs): (r: seq<ChatMessage>)
    ensures forall j :: 0 <= j < |r| ==> PromptContentKey(j) in a && r[j] == PromptMessageAt(a, c, j)
    ensures PromptContentKey(|r|) !in a
  {
    var n := PromptRunEnd(a, 0);
    seq(n, j requires 0 <= j < n => PromptMessageAt(a, c, j))
  }

  /** The run end is the first missing position, whatever follows it. */
  lemma PromptRunEndIsFirstGap(a: Attributes, n: nat)
    requires PresentBelow(a, PromptContentKey, n) && PromptContentKey(n) !in a
    ensures PromptRunEnd(a, 0) == n
  {
    var m := PromptRunEnd(a, 0);
    assert PromptContentKey(m) !in a;
  }

  /**
   * There is one message per position before the first missing content
   * key, and message j is built from position j.
   */
  lemma PromptMessagesCount(a: Attributes, c: Codecs, n: nat)
    requires PresentBelow(a, PromptContentKey, n) && PromptContentKey(n) !in a
    ensures |PromptMessages(a, c)| == n
    ensures forall j :: 0 <= j < n ==> PromptMessages(a, c)[j] == PromptMessageAt(a, c, j)
  {
    PromptRunEndIsFirstGap(a, n);
  }

  /** Resolves `parts` one by one, keeping their order. */
  method ResolveParts(c: Codecs, parts: seq<Value>) returns (resolved: seq<ContentPart>)
    ensures |resolved| == |parts|
    ensures forall k :: 0 <= k < |parts| ==> resolved[k] == c.resolveContentPart(parts[k])
  {
    resolved := [];
    for k := 0 to |parts|
      invariant |resolved| == k
      invariant forall m :: 0 <= m < k ==> resolved[m] == c.resolveContentPart(parts[m])
    {
      resolved := resolved + [c.resolveContentPart(parts[k])];
    }
  }

  /** One step of the probe: a present content key stays within the map and does not end the run. */
  lemma PromptRunStep(a: Attributes, i: nat)
    requires PresentBelow(a, PromptContentKey, i) && PromptContentKey(i) in a
    ensures PresentBelow(a, PromptContentKey, i + 1) && i < |a|
    ensures PromptRunEnd(a, i) == PromptRunEnd(a, i + 1)
  {
    PromptContentKeyInjective();
    PresentBelowBounded(a, PromptContentKey, i + 1);
  }

  /** The body of the message loop: reads and builds message `i`. */
  method ReadPromptMessage(a: Attributes, c: Codecs, i: nat) returns (message: ChatMessage)
    requires PromptContentKey(i) in a
    ensures message == PromptMessageAt(a, c, i)
  {
    var content := if a[PromptContentKey(i)].Str? then a[PromptContentKey(i)].s else "";
    var role := if PromptRoleKey(i) in a && a[PromptRoleKey(i)].Str? then a[PromptRoleKey(i)].s else "user";
    match c.parseContentParts(content) {
      case Some(parts) =>
        var resolved := ResolveParts(c, parts);
        assert resolved == ResolveAll(c, parts);
        message := ChatMessage(role, ContentPartList(resolved));
      case None =>
        message := ChatMessage(role, Text(content));
    }
  }

  /** `input_chat_messages_from_prompt_content` */
  method InputChatMessages(a: Attributes, c: Codecs) returns (messages: seq<ChatMessage>)
    ensures messages == PromptMessages(a, c)
  {
    messages := [];
    var i: nat := 0;
    while PromptContentKey(i) in a
      invariant PresentBelow(a, PromptContentKey, i)
      invariant PromptRunEnd(a, i) == PromptRunEnd(a, 0)
      invariant |messages| == i
      invariant forall k :: 0 <= k < i ==> messages[k] == PromptMessageAt(a, c, k)
      decreases |a| - i
    {
      PromptRunStep(a, i);
      var message := ReadPromptMessage(a, c, i);
      messages := messages + [message];
      i := i + 1;
    }
  }

  // ---------------------------------------------------------------------
  // Completion output: `output_from_completion_content`

  /** There is a tool call at position `i`: its name is present and a string. */
  predicate HasToolCall(a: Attributes, i: nat)
  {
    ToolCallNameKey(i) in a && a[ToolCallNameKey(i)].Str?
  }

  /**
   * The arguments of tool call `i`: a string that parses as a JSON object
   * becomes that object, any other string stays a string, any other value
   * is kept as it is.
   */
  function ToolCallArguments(a: Attributes, c: Codecs, i: nat): (r: Option<Value>)
    ensures ToolCallArgumentsKey(i) !in a ==> r == None
    ensures ToolCallArgumentsKey(i) in a && !a[ToolCallArgumentsKey(i)].Str? ==> r == Some(a[ToolCallArgumentsKey(i)])
    ensures ToolCallArgumentsKey(i) in a && a[ToolCallArgumentsKey(i)].Str? ==>
      var s := a[ToolCallArgumentsKey(i)].s;
      r == if ParseObject(c, s).Some? then Some(Obj(ParseObject(c, s).value)) else Some(Str(s))
  {
    var key := ToolCallArgumentsKey(i);
    if key !in a then None
    else match a[key]
      case Str(s) => (match ParseObject(c, s)
                      case Some(m) => Some(Obj(m))
                      case None => Some(Str(s)))
      case v => Some(v)
  }

  /** `ToolCall`, the record a tool call is serialised from. */
  datatype ToolCall = ToolCall(name: string, id: Option<string>, arguments: Option<Value>, contentBlockType: string)

  /** `TextBlock`, the record the completion text is serialised from. */
  datatype TextBlock = TextBlock(content: string, contentBlockType: string)

  /** An optional value as JSON: `None` serialises as null. */
  function OrNull(v: Option<Value>): Value
  {
    v.GetOr(Null)
  }

  /** `serde_json::to_value` of a `ToolCall`; `content_block_type` is renamed `type`. */
  function ToolCallJson(t: ToolCall): (v: Value)
    ensures v.Obj? && v.fields.Keys == {"name", "id", "arguments", "type"}
    ensures v.fields["name"] == Str(t.name) && v.fields["type"] == Str(t.contentBlockType)
    ensures v.fields["id"] == Null <==> t.id.None?
    ensures t.id.Some? ==> v.fields["id"] == Str(t.id.value)
    ensures t.arguments.Some? ==> v.fields["arguments"] == t.arguments.value
    ensures v.fields["arguments"] == Null <==> t.arguments.None? || t.arguments.value == Null
  {
    Obj(map[
      "name" := Str(t.name),
      "id" := OrNull(if t.id.Some? then Some(Str(t.id.value)) else None),
      "arguments" := OrNull(t.arguments),
      "type" := Str(t.contentBlockType)])
  }

  /** `serde_json::to_value` of a `TextBlock`. */
  function TextBlockJson(b: TextBlock): (v: Value)
    ensures v.Obj? && v.fields.Keys == {"content", "type"}
    ensures v.fields["content"] == Str(b.content) && v.fields["type"] == Str(b.contentBlockType)
  {
    Obj(map["content" := Str(b.content), "type" := Str(b.contentBlockType)])
  }

  /** Each tool call serialised, in order. */
  function ToolCallsJson(calls: seq<ToolCall>): (r: seq<Value>)
    ensures |r| == |calls|
    ensures forall k :: 0 <= k < |calls| ==> r[k] == ToolCallJson(calls[k])
  {
    seq(|calls|, k requires 0 <= k < |calls| => ToolCallJson(calls[k]))
  }

  /** The discriminant field of a serialised content block. */
  function BlockType(block: Value): Option<string>
  {
    if block.Obj? && "type" in block.fields && block.fields["type"].Str? then Some(block.fields["type"].s)
    else None
  }

  /** A serialised block carries its block type under `type`. */
  lemma BlockTypes(t: ToolCall, b: TextBlock)
    ensures BlockType(ToolCallJson(t)) == Some(t.contentBlockType)
    ensures BlockType(TextBlockJson(b)) == Some(b.contentBlockType)
  {
  }

  /** The tool call at position `i`. */
  function ToolCallAt(a: Attributes, c: Codecs, i: nat): (t: ToolCall)
    requires HasToolCall(a, i)
    ensures Str(t.name) == a[ToolCallNameKey(i)]
    ensures t.id == StringAttribute(a, ToolCallIdKey(i))
    ensures t.arguments == ToolCallArguments(a, c, i)
    ensures t.contentBlockType == "tool_call"
  {
    ToolCall(a[ToolCallNameKey(i)].s, StringAttribute(a, ToolCallIdKey(i)), ToolCallArguments(a, c, i), "tool_call")
  }

  /** There is a tool call at every position below `n`. */
  ghost predicate ToolCallsBelow(a: Attributes, n: nat)
  {
    forall j :: 0 <= j < n ==> HasToolCall(a, j)
  }

  lemma ToolCallsBelowPresent(a: Attributes, n: nat)
    requires ToolCallsBelow(a, n)
    ensures PresentBelow(a, ToolCallNameKey, n)
  {
    forall j | 0 <= j < n
      ensures ToolCallNameKey(j) in a
    {
      assert HasToolCall(a, j);
    }
  }

  /** Where the run of tool calls that starts at `i` ends: the first position without one. */
  function ToolRunEnd(a: Attributes, i: nat): (n: nat)
    requires ToolCallsBelow(a, i)
    ensures i <= n
    ensures ToolCallsBelow(a, n) && !HasToolCall(a, n)
    decreases |a| - i
  {
    if HasToolCall(a, i) then
      ToolCallNameKeyInjective();
      ToolCallsBelowPresent(a, i + 1);
      PresentBelowBounded(a, ToolCallNameKey, i + 1);
      ToolRunEnd(a, i + 1)
    else
      i
  }

  /** The tool calls up to the first position without one, call j read from position j. */
  function ToolCalls(a: Attributes, c: Codecs): (r: seq<ToolCall>)
    ensures |r| == ToolRunEnd(a, 0)
    ensures forall j :: 0 <= j < |r| ==> r[j] == ToolCallAt(a, c, j)
  {
    var n := ToolRunEnd(a, 0);
    seq(n, j requires 0 <= j < n => ToolCallAt(a, c, j))
  }

  /** The run end is the first position without a tool call, whatever follows it. */
  lemma ToolRunEndIsFirstGap(a: Attributes, n: nat)
    requires ToolCallsBelow(a, n) && !HasToolCall(a, n)
    ensures ToolRunEnd(a, 0) == n
  {
    var m := ToolRunEnd(a, 0);
    assert !HasToolCall(a, m);
  }

  /** The completion output assembled from the text and the serialised tool calls. */
  function CompletionOutput(a: Attributes, c: Codecs): (r: Option<Value>)
    ensures r.None? <==> !HasToolCall(a, 0) && StringAttribute(a, COMPLETION_TEXT).None?
    ensures HasToolCall(a, 0) ==> r.Some? && r.value.Arr?
    ensures !HasToolCall(a, 0) && r.Some? ==> r.value == Str(StringAttribute(a, COMPLETION_TEXT).value)
  {
    var text := StringAttribute(a, COMPLETION_TEXT);
    var calls := ToolCallsJson(ToolCalls(a, c));
    if calls == [] then
      if text.Some? then Some(Str(text.value)) else None
    else
      Some(Arr((if text.Some? then [TextBlockJson(TextBlock(text.value, "text"))] else []) + calls))
  }

  /** One step of the probe: a tool call at `i` stays within the map and does not end the run. */
  lemma ToolRunStep(a: Attributes, i: nat)
    requires ToolCallsBelow(a, i) && HasToolCall(a, i)
    ensures ToolCallsBelow(a, i + 1) && i < |a|
    ensures ToolRunEnd(a, i) == ToolRunEnd(a, i + 1)
  {
    ToolCallNameKeyInjective();
    ToolCallsBelowPresent(a, i + 1);
    PresentBelowBounded(a, ToolCallNameKey, i + 1);
  }

  /**
   * Tool calls are collected for every position before the first one whose
   * name is missing or not a string, in position order. Without tool calls
   * the output is the completion text (or nothing); with them it is a list
   * of an optional text block followed by the tool-call blocks.
   */
  lemma CompletionOutputShape(a: Attributes, c: Codecs, n: nat)
    requires forall j :: 0 <= j < n ==> HasToolCall(a, j)
    requires !HasToolCall(a, n)
    ensures var text := StringAttribute(a, COMPLETION_TEXT);
      && (n == 0 ==> CompletionOutput(a, c) == (if text.Some? then Some(Str(text.value)) else None))
      && (n > 0 ==>
            var off := if text.Some? then 1 else 0;
            && CompletionOutput(a, c).Some?
            && CompletionOutput(a, c).value.Arr?
            && |CompletionOutput(a, c).value.items| == off + n
            && (text.Some? ==> CompletionOutput(a, c).value.items[0] == TextBlockJson(TextBlock(text.value, "text")))
            && (forall j :: 0 <= j < n ==> CompletionOutput(a, c).value.items[off + j] == ToolCallJson(ToolCallAt(a, c, j))))
  {
    ToolRunEndIsFirstGap(a, n);
    var text := StringAttribute(a, COMPLETION_TEXT);
    if n > 0 {
      var off := if text.Some? then 1 else 0;
      var calls := ToolCalls(a, c);
      var items := CompletionOutput(a, c).value.items;
      assert items == (if text.Some? then [TextBlockJson(TextBlock(text.value, "text"))] else []) + ToolCallsJson(calls);
      forall j | 0 <= j < n
        ensures items[off + j] == ToolCallJson(ToolCallAt(a, c, j))
      {
        assert items[off + j] == ToolCallsJson(calls)[j];
      }
    }
  }

  /** Every block of a list output is tagged: the text block `text`, the tool calls `tool_call`. */
  lemma CompletionOutputBlockTypes(a: Attributes, c: Codecs, n: nat)
    requires forall j :: 0 <= j < n ==> HasToolCall(a, j)
    requires !HasToolCall(a, n)
    requires n > 0
    ensures var off := if StringAttribute(a, COMPLETION_TEXT).Some? then 1 else 0;
      && CompletionOutput(a, c).Some? && CompletionOutput(a, c).value.Arr?
      && |CompletionOutput(a, c).value.items| == off + n
      && forall k :: 0 <= k < off + n ==>
           BlockType(CompletionOutput(a, c).value.items[k]) == Some(if k < off then "text" else "tool_call")
  {
    ToolRunEndIsFirstGap(a, n);
    var text := StringAttribute(a, COMPLETION_TEXT);
    var pre := if text.Some? then [TextBlockJson(TextBlock(text.value, "text"))] else [];
    var calls := ToolCalls(a, c);
    assert CompletionOutput(a, c) == Some(Arr(pre + ToolCallsJson(calls)));
    ListBlockTypes(pre, calls);
  }

  /** A text block, if any, followed by serialised tool calls: each block carries its own tag. */
  lemma ListBlockTypes(pre: seq<Value>, calls: seq<ToolCall>)
    requires forall k :: 0 <= k < |pre| ==> BlockType(pre[k]) == Some("text")
    requires forall j :: 0 <= j < |calls| ==> calls[j].contentBlockType == "tool_call"
    ensures forall k :: 0 <= k < |pre| + |calls| ==>
      BlockType((pre + ToolCallsJson(calls))[k]) == Some(if k < |pre| then "text" else "tool_call")
  {
    var items := pre + ToolCallsJson(calls);
    forall k | 0 <= k < |pre| + |calls|
      ensures BlockType(items[k]) == Some(if k < |pre| then "text" else "tool_call")
    {
      if k >= |pre| {
        assert items[k] == ToolCallJson(calls[k - |pre|]);
      }
    }
  }

  /** The body of the tool-call loop: reads tool call `i`. */
  method ReadToolCall(a: Attributes, c: Codecs, i: nat) returns (toolCall: ToolCall)
    requires HasToolCall(a, i)
    ensures toolCall == ToolCallAt(a, c, i)
  {
    var id := if ToolCallIdKey(i) in a && a[ToolCallIdKey(i)].Str? then Some(a[ToolCallIdKey(i)].s) else None;
    var argumentsRaw := if ToolCallArgumentsKey(i) in a then Some(a[ToolCallArgumentsKey(i)]) else None;
    var arguments := argumentsRaw;
    if argumentsRaw.Some? && argumentsRaw.value.Str? {
      var s := argumentsRaw.value.s;
      var parsed := ParseObject(c, s);
      arguments := if parsed.Some? then Some(Obj(parsed.value)) else Some(Str(s));
    }
    toolCall := ToolCall(a[ToolCallNameKey(i)].s, id, arguments, "tool_call");
  }

  /** The tool-call loop of `output_from_completion_content`. */
  method CollectToolCalls(a: Attributes, c: Codecs) returns (toolCalls: seq<ToolCall>)
    ensures toolCalls == ToolCalls(a, c)
  {
    toolCalls := [];
    var i: nat := 0;
    while ToolCallNameKey(i) in a && a[ToolCallNameKey(i)].Str?
      invariant ToolCallsBelow(a, i)
      invariant ToolRunEnd(a, i) == ToolRunEnd(a, 0)
      invariant |toolCalls| == i
      invariant forall k :: 0 <= k < i ==> toolCalls[k] == ToolCallAt(a, c, k)
      decreases |a| - i
    {
      ToolRunStep(a, i);
      var toolCall := ReadToolCall(a, c, i);
      toolCalls := toolCalls + [toolCall];
      i := i + 1;
    }
  }

  /**
   * `output_from_completion_content`. The source serialises each tool call
   * as it reads it; here the records are collected first and serialised
   * together, which yields the same list.
   */
  method OutputFromCompletionContent(a: Attributes, c: Codecs) returns (output: Option<Value>)
    ensures output == CompletionOutput(a, c)
  {
    var textMsg := StringAttribute(a, COMPLETION_TEXT);
    var records := CollectToolCalls(a, c);
    var toolCalls := ToolCallsJson(records);
    if toolCalls == [] {
      output := if textMsg.Some? then Some(Str(textMsg.value)) else None;
    } else {
      var outVec := if textMsg.Some? then [TextBlockJson(TextBlock(textMsg.value, "text"))] else [];
      output := Some(Arr(outVec + toolCalls));
    }
  }
}
