/**
 * The wire-span normaliser (`Span::from_otel_span`): turns a decoded wire
 * span into the canonical span. It stores the filtered attributes, derives
 * the span type through the facade, and then picks one of three producer
 * conventions, in a fixed priority order, to fill the input and output.
 */
module OtelNormalizer {
  import opened Wrappers
  import opened Json
  import opened Domain
  import opened AttributeKeys
  import opened AttributeFilter
  import opened Collaborators
  import opened Collect
  import opened SpanAttributesFacade
  import opened IndexedLists

  /** Each wire attribute as a key and its value converted to JSON, in wire order. */
  function WirePairs(otel: OtelSpan, c: Codecs): (pairs: seq<(string, Value)>)
    ensures |pairs| == |otel.attributes|
  {
    seq(|otel.attributes|, i requires 0 <= i < |otel.attributes| =>
      (otel.attributes[i].key, c.anyValueToJson(otel.attributes[i].value)))
  }

  /**
   * The wire attributes converted to JSON, collected into a map: every
   * wire key, each holding the converted value of its last occurrence.
   */
  function WireAttributes(otel: OtelSpan, c: Codecs): (a: Attributes)
    ensures forall k :: k in a <==> exists i :: 0 <= i < |otel.attributes| && otel.attributes[i].key == k
    ensures forall k :: k in a ==>
      exists i :: 0 <= i < |otel.attributes| && otel.attributes[i].key == k &&
        a[k] == c.anyValueToJson(otel.attributes[i].value) &&
        forall j :: i < j < |otel.attributes| ==> otel.attributes[j].key != k
  {
    var a := CollectLastWins(WirePairs(otel, c));
    WireLastWins(otel, c, a);
    a
  }

  /** The pairs collected into a map keep the wire keys, the last occurrence of each winning. */
  lemma WireLastWins(otel: OtelSpan, c: Codecs, a: Attributes)
    requires LastWins(WirePairs(otel, c), a)
    ensures forall k :: k in a <==> exists i :: 0 <= i < |otel.attributes| && otel.attributes[i].key == k
    ensures forall k :: k in a ==>
      exists i :: 0 <= i < |otel.attributes| && otel.attributes[i].key == k &&
        a[k] == c.anyValueToJson(otel.attributes[i].value) &&
        forall j :: i < j < |otel.attributes| ==> otel.attributes[j].key != k
  {
    var pairs := WirePairs(otel, c);
    forall k | k in a
      ensures exists i :: 0 <= i < |otel.attributes| && otel.attributes[i].key == k &&
                a[k] == c.anyValueToJson(otel.attributes[i].value) &&
                forall j :: i < j < |otel.attributes| ==> otel.attributes[j].key != k
    {
      var i :| 0 <= i < |pairs| && pairs[i] == (k, a[k]) && forall j :: i < j < |pairs| ==> pairs[j].0 != k;
      forall j | i < j < |otel.attributes| ensures otel.attributes[j].key != k {
        assert pairs[j].0 == otel.attributes[j].key;
      }
    }
    forall k | (exists i :: 0 <= i < |otel.attributes| && otel.attributes[i].key == k)
      ensures k in a
    {
      var i :| 0 <= i < |otel.attributes| && otel.attributes[i].key == k;
      assert pairs[i].0 == k;
    }
  }

  /** The attributes that are stored on the span. */
  function KeptAttributes(a: Attributes): (r: Attributes)
    ensures forall k :: k in r <==> k in a && ShouldKeepAttribute(k)
    ensures forall k :: k in r ==> r[k] == a[k]
  {
    map k | k in a && ShouldKeepAttribute(k) :: a[k]
  }

  /** The producer conventions, in priority order. */
  datatype Convention = IndexedGenAi | SerializedMessages | GenericIo

  /**
   * The convention of a span: the indexed GenAI convention for an LLM span
   * with a first indexed prompt, else the serialised-messages convention
   * for an LLM span with a prompt-messages attribute, else the generic one.
   */
  function DetectConvention(a: Attributes, t: SpanType): (conv: Convention)
    ensures conv == IndexedGenAi <==> t == LLM && PromptContentKey(0) in a
    ensures conv == SerializedMessages <==> t == LLM && PromptContentKey(0) !in a && AI_PROMPT_MESSAGES in a
  {
    if t == LLM && PromptContentKey(0) in a then IndexedGenAi
    else if t == LLM && AI_PROMPT_MESSAGES in a then SerializedMessages
    else GenericIo
  }

  /**
   * The source unwraps the prompt-messages attribute as a string: a span
   * of the serialised-messages convention must carry a string there.
   */
  predicate ConventionWellFormed(a: Attributes, t: SpanType)
  {
    DetectConvention(a, t) == SerializedMessages ==> a[AI_PROMPT_MESSAGES].Str?
  }

  /**
   * A generic input or output payload: a string attribute parsed as JSON,
   * or kept as the string when it does not parse; nothing otherwise.
   */
  function GenericPayload(a: Attributes, key: string, c: Codecs): (r: Option<Value>)
    ensures StringAttribute(a, key) == None ==> r == None
    ensures StringAttribute(a, key).Some? ==>
      var s := StringAttribute(a, key).value;
      r == Some(if c.parseJson(s).Some? then c.parseJson(s).value else Str(s))
  {
    match StringAttribute(a, key)
    case None => None
    case Some(s) => Some(c.parseJson(s).GetOr(Str(s)))
  }

  /** The input and output the chosen convention extracts. */
  function ConventionIo(a: Attributes, t: SpanType, c: Codecs): (io: (Option<Value>, Option<Value>))
    requires ConventionWellFormed(a, t)
    ensures DetectConvention(a, t) == IndexedGenAi ==>
      io.0.Some? && (io.1.None? <==> !HasToolCall(a, 0) && StringAttribute(a, COMPLETION_TEXT).None?)
    ensures DetectConvention(a, t) == SerializedMessages ==>
      && (io.0.Some? <==> c.parseChatMessages(a[AI_PROMPT_MESSAGES].s).Some?)
      && (io.1.Some? <==> StringAttribute(a, AI_RESPONSE_TEXT).Some?)
    ensures DetectConvention(a, t) == GenericIo ==>
      && (io.0.Some? <==> StringAttribute(a, INPUT_ATTRIBUTE_NAME).Some?)
      && (io.1.Some? <==> StringAttribute(a, OUTPUT_ATTRIBUTE_NAME).Some?)
  {
    match DetectConvention(a, t)
    case IndexedGenAi =>
      (Some(c.chatMessagesToJson(PromptMessages(a, c))), CompletionOutput(a, c))
    case SerializedMessages =>
      var parsed := c.parseChatMessages(a[AI_PROMPT_MESSAGES].s);
      var text := StringAttribute(a, AI_RESPONSE_TEXT);
      (if parsed.Some? then Some(c.chatMessagesToJson(parsed.value)) else None,
       if text.Some? then Some(Str(text.value)) else None)
    case GenericIo =>
      (GenericPayload(a, INPUT_ATTRIBUTE_NAME, c), GenericPayload(a, OUTPUT_ATTRIBUTE_NAME, c))
  }

  /** What `from_otel_span` demands of its input: a 16-byte trace id and a well-formed convention. */
  predicate Normalizable(otel: OtelSpan, c: Codecs)
  {
    var a := WireAttributes(otel, c);
    |otel.traceId| == 16 && ConventionWellFormed(a, SpanTypeOf(KeptAttributes(a), c.decodeSpanType))
  }

  /** The canonical span of a wire span. */
  function NormalizedSpan(otel: OtelSpan, c: Codecs): (span: Span)
    requires Normalizable(otel, c)
    ensures span.spanType == SpanTypeOf(WireAttributes(otel, c), c.decodeSpanType)
    ensures span.attributes.Keys <= WireAttributes(otel, c).Keys
  {
    SpanTypeKeysKept();
    var a := WireAttributes(otel, c);
    var kept := KeptAttributes(a);
    var t := SpanTypeOf(kept, c.decodeSpanType);
    var io := ConventionIo(a, t, c);
    Span(
      version := DEFAULT_VERSION,
      spanId := c.spanIdToUuid(otel.spanId),
      traceId := otel.traceId,
      parentSpanId := if otel.parentSpanId == [] then None else Some(c.spanIdToUuid(otel.parentSpanId)),
      name := otel.name,
      attributes := kept,
      startTime := U64AsI64(otel.startTimeUnixNano),
      endTime := U64AsI64(otel.endTimeUnixNano),
      input := io.0,
      output := io.1,
      spanType := t)
  }

  /** `Span::from_otel_span` */
  method FromOtelSpan(otel: OtelSpan, c: Codecs) returns (span: Span)
    requires Normalizable(otel, c)
    ensures span == NormalizedSpan(otel, c)
  {
    var attributes := WireAttributes(otel, c);
    var parentSpanId := if otel.parentSpanId == [] then None else Some(c.spanIdToUuid(otel.parentSpanId));
    var kept := KeptAttributes(attributes);
    var spanType := SpanTypeOf(kept, c.decodeSpanType);

    var input: Option<Value> := None;
    var output: Option<Value> := None;
    if spanType == LLM && PromptContentKey(0) in attributes {
      var inputMessages := InputChatMessages(attributes, c);
      input := Some(c.chatMessagesToJson(inputMessages));
      output := OutputFromCompletionContent(attributes, c);
    } else if spanType == LLM && AI_PROMPT_MESSAGES in attributes {
      var parsed := c.parseChatMessages(attributes[AI_PROMPT_MESSAGES].s);
      if parsed.Some? {
        input := Some(c.chatMessagesToJson(parsed.value));
      }
      if AI_RESPONSE_TEXT in attributes && attributes[AI_RESPONSE_TEXT].Str? {
        output := Some(Str(attributes[AI_RESPONSE_TEXT].s));
      }
    } else {
      input, output := ReadGenericIo(attributes, c);
    }
    assert (input, output) == ConventionIo(attributes, spanType, c);

    span := Span(
      version := DEFAULT_VERSION,
      spanId := c.spanIdToUuid(otel.spanId),
      traceId := otel.traceId,
      parentSpanId := parentSpanId,
      name := otel.name,
      attributes := kept,
      startTime := U64AsI64(otel.startTimeUnixNano),
      endTime := U64AsI64(otel.endTimeUnixNano),
      input := input,
      output := output,
      spanType := spanType);
  }

  /** The generic convention's branch of `from_otel_span`. */
  method ReadGenericIo(a: Attributes, c: Codecs) returns (input: Option<Value>, output: Option<Value>)
    ensures input == GenericPayload(a, INPUT_ATTRIBUTE_NAME, c)
    ensures output == GenericPayload(a, OUTPUT_ATTRIBUTE_NAME, c)
  {
    input, output := None, None;
    if INPUT_ATTRIBUTE_NAME in a && a[INPUT_ATTRIBUTE_NAME].Str? {
      var s := a[INPUT_ATTRIBUTE_NAME].s;
      input := Some(c.parseJson(s).GetOr(Str(s)));
    }
    if OUTPUT_ATTRIBUTE_NAME in a && a[OUTPUT_ATTRIBUTE_NAME].Str? {
      var s := a[OUTPUT_ATTRIBUTE_NAME].s;
      output := Some(c.parseJson(s).GetOr(Str(s)));
    }
  }

  // ---------------------------------------------------------------------
  // Properties of the normalised span

  /**
   * The stored attributes are the wire attributes minus the dropped ones,
   * with their wire values: the generic input/output keys and every indexed prompt content and
   * role key are never stored, tool-call keys always are.
   */
  lemma NormalizedAttributes(otel: OtelSpan, c: Codecs, i: nat)
    requires Normalizable(otel, c)
    ensures var a := WireAttributes(otel, c); var s := NormalizedSpan(otel, c);
      && s.attributes == KeptAttributes(a)
      && (forall k :: k in s.attributes <==> k in a && ShouldKeepAttribute(k))
      && (forall k :: k in s.attributes ==> s.attributes[k] == a[k])
      && INPUT_ATTRIBUTE_NAME !in s.attributes && OUTPUT_ATTRIBUTE_NAME !in s.attributes
      && PromptContentKey(i) !in s.attributes && PromptRoleKey(i) !in s.attributes
      && (ToolCallNameKey(i) in a ==> ToolCallNameKey(i) in s.attributes)
      && (ToolCallArgumentsKey(i) in a ==> ToolCallArgumentsKey(i) in s.attributes)
  {
    PromptKeysDropped(i);
    ToolCallKeysKept(i);
  }

  /**
   * A span that is not an LLM span always takes its input and output from
   * the two generic attributes, whatever GenAI keys it carries.
   */
  lemma NonLlmSpansAreGeneric(otel: OtelSpan, c: Codecs)
    requires Normalizable(otel, c)
    requires NormalizedSpan(otel, c).spanType != LLM
    ensures var a := WireAttributes(otel, c);
      && NormalizedSpan(otel, c).input == GenericPayload(a, INPUT_ATTRIBUTE_NAME, c)
      && NormalizedSpan(otel, c).output == GenericPayload(a, OUTPUT_ATTRIBUTE_NAME, c)
  {
  }

  /**
   * An LLM span with a first indexed prompt takes the indexed convention
   * even when it also carries serialised messages: its input is the
   * reconstructed message list and its output the completion output.
   */
  lemma IndexedConventionFirst(otel: OtelSpan, c: Codecs)
    requires Normalizable(otel, c)
    requires NormalizedSpan(otel, c).spanType == LLM
    requires PromptContentKey(0) in WireAttributes(otel, c)
    ensures var a := WireAttributes(otel, c);
      && NormalizedSpan(otel, c).input == Some(c.chatMessagesToJson(PromptMessages(a, c)))
      && NormalizedSpan(otel, c).output == CompletionOutput(a, c)
  {
  }

  /**
   * An LLM span without a first indexed prompt but with serialised
   * messages takes its input from those messages, when they parse, and its
   * output from the response text, when it is a string.
   */
  lemma SerializedConventionIo(otel: OtelSpan, c: Codecs)
    requires Normalizable(otel, c)
    requires NormalizedSpan(otel, c).spanType == LLM
    requires PromptContentKey(0) !in WireAttributes(otel, c) && AI_PROMPT_MESSAGES in WireAttributes(otel, c)
    ensures var a := WireAttributes(otel, c); var parsed := c.parseChatMessages(a[AI_PROMPT_MESSAGES].s);
      && NormalizedSpan(otel, c).input == (if parsed.Some? then Some(c.chatMessagesToJson(parsed.value)) else None)
      && NormalizedSpan(otel, c).output ==
           (if StringAttribute(a, AI_RESPONSE_TEXT).Some? then Some(Str(StringAttribute(a, AI_RESPONSE_TEXT).value)) else None)
  {
  }

  /**
   * Every span of the generic convention, LLM or not, takes its input and
   * output from the two generic attributes.
   */
  lemma GenericConventionIo(otel: OtelSpan, c: Codecs)
    requires Normalizable(otel, c)
    requires DetectConvention(WireAttributes(otel, c), NormalizedSpan(otel, c).spanType) == GenericIo
    ensures var a := WireAttributes(otel, c);
      && NormalizedSpan(otel, c).input == GenericPayload(a, INPUT_ATTRIBUTE_NAME, c)
      && NormalizedSpan(otel, c).output == GenericPayload(a, OUTPUT_ATTRIBUTE_NAME, c)
  {
  }

  /**
   * Identity is derived from the wire bytes alone: the trace id is the 16
   * wire bytes, the span id their expansion, and the parent is absent
   * exactly when its bytes are empty.
   */
  lemma NormalizedIdentity(otel: OtelSpan, c: Codecs)
    requires Normalizable(otel, c)
    ensures var s := NormalizedSpan(otel, c);
      && s.traceId == otel.traceId
      && s.spanId == c.spanIdToUuid(otel.spanId)
      && (s.parentSpanId == None <==> otel.parentSpanId == [])
      && (s.parentSpanId.Some? ==> s.parentSpanId.value == c.spanIdToUuid(otel.parentSpanId))
      && s.version == DEFAULT_VERSION && s.name == otel.name
  {
  }

  /**
   * Start and end times are the wire nanosecond counts cast to `i64`, whose
   * wrap-around `U64AsI64` states.
   */
  lemma NormalizedTimes(otel: OtelSpan, c: Codecs)
    requires Normalizable(otel, c)
    ensures NormalizedSpan(otel, c).startTime == U64AsI64(otel.startTimeUnixNano)
    ensures NormalizedSpan(otel, c).endTime == U64AsI64(otel.endTimeUnixNano)
  {
  }
}
