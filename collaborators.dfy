/**
 * Code this core calls but that is not part of this model: JSON parsing
 * and serde's enum and struct (de)serialisation, the wire-value converter,
 * the span-id expansion and the content-part resolver (which may fetch
 * stored bytes). Each is an uninterpreted function; the model assumes
 * nothing about it beyond its type, except that `ParseObject` takes
 * parsing into a string-keyed map to agree with `parseJson` on objects.
 */
module Collaborators {
  import opened Wrappers
  import opened Json
  import opened Domain

  datatype Codecs = Codecs(
    /** `serde_json::from_str::<Value>` */
    parseJson: string -> Option<Value>,
    /** `serde_json::from_str::<Vec<ChatMessage>>` */
    parseChatMessages: string -> Option<seq<ChatMessage>>,
    /** `json!(messages)` for a `Vec<ChatMessage>` */
    chatMessagesToJson: seq<ChatMessage> -> Value,
    /** `serde_json::from_str::<Vec<InstrumentationChatMessageContentPart>>`, parts kept as JSON */
    parseContentParts: string -> Option<seq<Value>>,
    /** `ChatMessageContentPart::from_instrumentation_content_part`, with its project and storage */
    resolveContentPart: Value -> ContentPart,
    /** `serde_json::from_value::<SpanType>` */
    decodeSpanType: Value -> Option<SpanType>,
    /** `json!(trace_type)` */
    encodeTraceType: TraceType -> Value,
    /** `convert_any_value_to_json_value` */
    anyValueToJson: AnyValue -> Value,
    /** `span_id_to_uuid` */
    spanIdToUuid: seq<byte> -> Uuid)

  /**
   * `serde_json::from_str::<HashMap<String, Value>>(s)` followed by
   * `to_value`: succeeds exactly when `s` parses as a JSON object.
   */
  function ParseObject(c: Codecs, s: string): (r: Option<map<string, Value>>)
    ensures r.Some? <==> c.parseJson(s).Some? && c.parseJson(s).value.Obj?
    ensures r.Some? ==> c.parseJson(s) == Some(Obj(r.value))
  {
    match c.parseJson(s)
    case Some(Obj(m)) => Some(m)
    case _ => None
  }
}
