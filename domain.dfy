/**
 * The canonical span entity and the value types it is built from. The Rust
 * definitions live in the database and language-model layers of the
 * repository; only the fields this core reads or writes are modelled.
 */
module Domain {
  import opened Wrappers
  import Json

  newtype byte = x: int | 0 <= x < 256

  /** A 128-bit identifier, as its 16 bytes. */
  type Uuid = s: seq<byte> | |s| == 16 witness seq(16, _ => 0)

  /**
   * How downstream layers interpret a span. The core produces DEFAULT, LLM
   * and PIPELINE itself; the enumeration's other variants only arrive by
   * decoding the span-type attribute and are kept by name.
   */
  datatype SpanType = DEFAULT | LLM | PIPELINE | Other(variant: string)

  /** `SpanType::default()` */
  const DEFAULT_SPAN_TYPE: SpanType := DEFAULT

  /** The trace-type enumeration; its variants are not part of this model. */
  datatype TraceType = TraceType(variant: string)

  /** The schema-version tag written on every span (`DEFAULT_VERSION`). */
  const DEFAULT_VERSION: string := "<DEFAULT_VERSION>"

  /** A resolved content part of a multimodal message, kept opaque. */
  type ContentPart = Json.Value

  datatype ChatMessageContent = Text(text: string) | ContentPartList(parts: seq<ContentPart>)

  datatype ChatMessage = ChatMessage(role: string, content: ChatMessageContent)

  /** Timestamps, as signed nanoseconds since the Unix epoch. */
  type Timestamp = Json.i64

  /**
   * The canonical span. `attributes` is always a JSON object in the source
   * and is a map here; `events` and `labels` are never set by this core.
   */
  datatype Span = Span(
    version: string,
    spanId: Uuid,
    traceId: Uuid,
    parentSpanId: Option<Uuid>,
    name: string,
    attributes: map<string, Json.Value>,
    startTime: Timestamp,
    endTime: Timestamp,
    input: Option<Json.Value>,
    output: Option<Json.Value>,
    spanType: SpanType)

  /**
   * A wire attribute value (OpenTelemetry `AnyValue`); floating-point
   * payloads are kept opaque.
   */
  datatype AnyValue =
    | StringValue(s: string)
    | BoolValue(b: bool)
    | IntValue(i: Json.i64)
    | DoubleValue(payload: nat)
    | ArrayValue(values: seq<AnyValue>)
    | KvlistValue(entries: seq<KeyValue>)
    | BytesValue(bytes: seq<byte>)
    | NoValue

  datatype KeyValue = KeyValue(key: string, value: AnyValue)

  /** A decoded wire span, as the transport hands it over. */
  datatype OtelSpan = OtelSpan(
    traceId: seq<byte>,
    spanId: seq<byte>,
    parentSpanId: seq<byte>,
    name: string,
    attributes: seq<KeyValue>,
    startTimeUnixNano: Json.u64,
    endTimeUnixNano: Json.u64)
}
