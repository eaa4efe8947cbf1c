# Span normalisation and hierarchy (lmnr `traces/spans.rs`) in Dafny

This project models the part of the lmnr application server that turns
telemetry into canonical spans. The canonical `Span` record holds:

- identity: span id, trace id and optional parent id;
- a name, a version tag and start and end times;
- an open attribute map;
- an optional input and output payload;
- a span type (DEFAULT, LLM, PIPELINE, …).

The model has four parts, following the source:

- **Attribute facade** (`SpanAttributesFacade`). Typed reads of the attribute
  map: session id, user id, trace type, request and response model, span
  path, provider name and span type. Also the operations that update the map
  in place: the token-count reads that migrate the legacy key, `set_usage`
  and `extend_span_path`. The reads are functions of the map. The updates are
  methods of the class `SpanAttributes`, each specified by a function of the
  old map.
- **Attribute filter** (`AttributeFilter`). `should_keep_attribute` drops the
  generic input and output keys and every key that contains a match of
  `gen_ai\.(prompt|completion)\.\d+\.(content|role)`. The regular expression is
  written out as a scan. The scan is proved equal to an independent
  definition: some substring of the key is a word of the pattern's language.
- **Wire-span normaliser** (`OtelNormalizer`, `IndexedLists`).
  `Span::from_otel_span` stores the filtered attributes and derives the span
  type from them. It then fills input and output by one of three producer
  conventions, checked in this order:
  1. indexed GenAI keys;
  2. serialised messages;
  3. the generic input and output keys.

  The two indexed-list reconstructors (chat messages and tool calls) are
  loops. Each probes `<prefix>.<i>.<field>` for i = 0, 1, … up to the first
  gap. They are proved against a run-end specification. Their termination
  follows from the index keys being pairwise distinct and the map being
  finite.
- **Hierarchy builder** (`Hierarchy`). `create_parent_span_in_run_trace`
  builds the root PIPELINE span of a pipeline run. Its named inputs and
  outputs are collected over the node map in an unspecified order.
  `from_messages` builds one child span per LLM or SemanticSearch node, and
  `span_attributes_from_meta_log` builds the child's attributes.

Some code lies outside `spans.rs` and is not part of this model: JSON
parsing, serde's enum decoding, the wire-value converter, the span-id
expansion and the content-part resolver. The model receives each as a
function-typed field of `Collaborators.Codecs`. The model assumes nothing
about these functions beyond their types, with two exceptions:

- `Collaborators.ParseObject` assumes that `serde_json::from_str` into a
  string-keyed map agrees with the general JSON parser restricted to
  objects.
- `SpanAttributesFacade.DecodeOptionalString` writes out serde's decoding of
  `Option<String>` instead of taking it as a parameter: null is `None`, a
  string is that string, and anything else fails.

`Uuid::new_v4` becomes an extra "fresh id" parameter.

The token-count reads (`input_tokens`, `completion_tokens`) copy the legacy
count to the canonical key. They do not move it: the legacy key stays. So
both forms can be present at once, and they can disagree: when the canonical
key already holds a number, the legacy one is never looked at
(`ReadTokensFormsMayDisagree`). After a migration from an `i64` integer the
two agree (`ReadTokensMigratedAgree`). Every legacy float, whatever its
value, migrates as 0, because `as_i64` gives nothing for floats, and the
float stays beside it.

The source panics in four places. Three become preconditions: the trace id
must be 16 bytes, a serialised-messages attribute must be a string, and every
input id of a span node must be in the node map. The fourth is the
`get_attributes` unwrap, which cannot fail here because attributes are a map.

## Model

| member | source | states |
|---|---|---|
| Json.AsI64 | app-server/src/traces/spans.rs:70-71 | `as_i64` succeeds exactly for JSON integers within the signed 64-bit range, and then returns that integer; floats never convert |
| Json.FromI64 | app-server/src/traces/spans.rs:76 | a count written with `json!` reads back as the same `i64` |
| Json.U64AsI64 | app-server/src/traces/spans.rs:252-253 | the nanosecond cast keeps the value below 2^63, turns larger values negative, and is always congruent to the input modulo 2^64 |
| Text.UntilFirstDot | app-server/src/traces/spans.rs:127 | the first piece of `split('.')` is a dot-free prefix that stops right before the first `.`, and it is the whole string exactly when there is no `.` |
| Text.CutCompound | app-server/src/traces/spans.rs:127 | for a dot-free head, `head.tail` is cut to `head` |
| Text.NatToString | app-server/src/traces/spans.rs:484 | an index is printed as a non-empty string of decimal digits, a single digit exactly below 10 |
| Text.NatToStringInjective | app-server/src/traces/spans.rs:484 | distinct indices print differently |
| AttributeKeys.PromptContentKeyInjective | app-server/src/traces/spans.rs:483-485 | distinct indices give distinct `gen_ai.prompt.{i}.content` keys |
| AttributeKeys.ToolCallNameKeyInjective | app-server/src/traces/spans.rs:554-556 | distinct indices give distinct `gen_ai.completion.0.tool_calls.{i}.name` keys |
| AttributeKeys.FirstPromptContentKey | app-server/src/traces/spans.rs:260 | the literal key the dispatch probes is the index-0 prompt content key that the message loop reads first |
| AttributeFilter.DigitRun | app-server/src/traces/spans.rs:459 | the length of the leading run of digits: all digits, and followed by a non-digit or the end |
| AttributeFilter.ContainsIndexedContentExactly | app-server/src/traces/spans.rs:459-460 | the hand-written scan holds exactly when some substring of the key is a word made of `gen_ai.prompt.` or `gen_ai.completion.`, one or more digits, and `.content` or `.role`, so the match is unanchored |
| AttributeFilter.ShouldKeepAttribute | app-server/src/traces/spans.rs:452-461 | an attribute is dropped if and only if it is `lmnr.span.input`, `lmnr.span.output`, or contains a word of the pattern |
| AttributeFilter.PromptKeysDropped | app-server/src/traces/spans.rs:458-460 | every `gen_ai.prompt.{i}.content` and `gen_ai.prompt.{i}.role` key is dropped |
| AttributeFilter.ToolCallKeysKept | app-server/src/traces/spans.rs:459-460 | the tool-call name, id and arguments keys are kept for every index |
| AttributeFilter.NoMatchWithoutStem | app-server/src/traces/spans.rs:459-460 | a key in which neither `gen_ai.prompt.` nor `gen_ai.completion.` starts anywhere has no match |
| AttributeFilter.KeptWithoutStem | app-server/src/traces/spans.rs:452-461 | any key other than the two generic ones that contains neither `gen_ai.prompt.` nor `gen_ai.completion.` is kept |
| AttributeFilter.SpanTypeKeysKept | app-server/src/traces/spans.rs:134-145 | the span-type key and the provider key, which decide the span type, contain neither stem and so survive the filter |
| SpanAttributesFacade.StringAttribute | app-server/src/traces/spans.rs:98-101 | a string read: `Some(s)` exactly when the key holds the string `s`, `None` when it is absent or not a string |
| SpanAttributesFacade.SessionId | app-server/src/traces/spans.rs:43-51 | the session id is the string under the session key, `None` when absent or not a string |
| SpanAttributesFacade.UserId | app-server/src/traces/spans.rs:53-61 | the user id is the string under the user key, `None` when absent or not a string |
| SpanAttributesFacade.TraceTypeOf | app-server/src/traces/spans.rs:63-67 | the trace type is the decoded trace-type attribute, and `None` when it is absent |
| SpanAttributesFacade.RequestModel | app-server/src/traces/spans.rs:97-102 | the request model is the string under its key, `None` otherwise |
| SpanAttributesFacade.ResponseModel | app-server/src/traces/spans.rs:104-109 | the response model is the string under its key, `None` otherwise |
| SpanAttributesFacade.PathOf | app-server/src/traces/spans.rs:147-151 | the path is the string under the path key, `None` when it is absent or not a string |
| SpanAttributesFacade.DecodeOptionalString | app-server/src/traces/spans.rs:119 | decoding `Option<String>`: null gives `Some(None)`, a string gives that string, anything else fails |
| SpanAttributesFacade.ProviderName | app-server/src/traces/spans.rs:111-132 | no provider string gives `None`; `Langchain` gives the decoded `ls_provider` when it decodes (a null gives `None`) and `Langchain` otherwise |
| SpanAttributesFacade.ProviderNameCut | app-server/src/traces/spans.rs:125-128 | any other provider gives a dot-free prefix of the raw name, ending just before its first `.`, and the whole name exactly when it has no `.` |
| SpanAttributesFacade.ProviderNameCompound | app-server/src/traces/spans.rs:126-127 | `head.tail` (e.g. `anthropic.messages`) is reported as `head` |
| SpanAttributesFacade.ProviderNameLangchainExamples | app-server/src/traces/spans.rs:113-124 | `Langchain` with `ls_provider` `openai` gives `openai`; with null gives `None`; without it gives `Langchain` |
| SpanAttributesFacade.ProviderNamePlainExample | app-server/src/traces/spans.rs:127 | `openai` is kept as `openai` |
| SpanAttributesFacade.SpanTypeOf | app-server/src/traces/spans.rs:134-145 | a span-type attribute decides the type (the default when it does not decode); without it, the type is LLM if and only if the provider key is present, and DEFAULT otherwise |
| SpanAttributesFacade.ReadTokens | app-server/src/traces/spans.rs:69-95 | a number under the canonical key is returned and nothing changes; else a number under the legacy key is returned and copied to the canonical key; else 0 and nothing changes; only the canonical key can change |
| SpanAttributesFacade.ReadTokensIdempotent | app-server/src/traces/spans.rs:69-95 | a second token read returns the same count and leaves the same map |
| SpanAttributesFacade.ReadTokensKeepsLegacy | app-server/src/traces/spans.rs:69-95 | a token read never removes or changes the legacy key |
| SpanAttributesFacade.ReadTokensMigratedAgree | app-server/src/traces/spans.rs:72-77 | when the canonical key holds no number and the legacy one an `i64` integer, the read leaves both keys equal |
| SpanAttributesFacade.ReadTokensFormsMayDisagree | app-server/src/traces/spans.rs:69-95 | both forms can coexist and disagree: canonical 5 and legacy 7 read 5 and both stay; every legacy float, whatever its value, reads 0, writes canonical 0, and the float stays |
| SpanAttributesFacade.ReadTokensLeavesCanonical | app-server/src/traces/spans.rs:72-77 | after one read from either key, the canonical key holds a number whose `i64` reading is the returned count |
| SpanAttributesFacade.UsageKeysWritten | app-server/src/traces/spans.rs:153-177 | `set_usage` always writes the two token counts and three costs, writes the request model, response model and provider exactly when present, and never writes the total token count |
| SpanAttributesFacade.WithUsage | app-server/src/traces/spans.rs:153-177 | every key outside the written keys keeps its presence and its value, whatever its type |
| SpanAttributesFacade.SetUsageEffect | app-server/src/traces/spans.rs:153-177 | `set_usage` changes only the keys it writes; the two counts are stored as the integers and read back through the facade, the costs are stored as given, and present models and provider are stored as strings |
| SpanAttributesFacade.SetUsageTokens | app-server/src/traces/spans.rs:154-157 | the two token counts are stored as the integers given, and read back as given without further migration |
| SpanAttributesFacade.SetUsageCosts | app-server/src/traces/spans.rs:158-163 | the three costs are stored as given |
| SpanAttributesFacade.SetUsageModels | app-server/src/traces/spans.rs:165-176 | request model, response model and provider are overwritten when present; an absent one leaves its key exactly as it was, present or not, string or not |
| SpanAttributesFacade.ExtendedPath | app-server/src/traces/spans.rs:186-197 | extending the path changes no key but the path, and always leaves a string path |
| SpanAttributesFacade.ExtendedPathEffect | app-server/src/traces/spans.rs:186-197 | no string path: the path becomes the name; a path equal to the name or ending in `.name`: the map is unchanged; otherwise `.name` is appended |
| SpanAttributesFacade.ExtendedPathEndsWithName | app-server/src/traces/spans.rs:186-197 | after extension the path is the name itself or ends in `.name` |
| SpanAttributesFacade.ExtendedPathIdempotent | app-server/src/traces/spans.rs:186-197 | extending twice by the same name equals extending once |
| SpanAttributesFacade.SpanAttributes.constructor | app-server/src/traces/spans.rs:39-41 | the facade wraps the given map |
| SpanAttributesFacade.SpanAttributes.InputTokens | app-server/src/traces/spans.rs:69-81 | returns and leaves behind what `ReadTokens` gives for the input-token and prompt-token keys |
| SpanAttributesFacade.SpanAttributes.CompletionTokens | app-server/src/traces/spans.rs:83-95 | returns and leaves behind what `ReadTokens` gives for the output-token and completion-token keys |
| SpanAttributesFacade.SpanAttributes.SetUsage | app-server/src/traces/spans.rs:153-177 | the new map is `WithUsage` of the old one, whose effect `SetUsageEffect` states |
| SpanAttributesFacade.SpanAttributes.ExtendSpanPath | app-server/src/traces/spans.rs:186-197 | the new map is `ExtendedPath` of the old one, whose effect and idempotence are stated above |
| Collaborators.ParseObject | app-server/src/traces/spans.rs:565-567 | parsing to a string-keyed map succeeds exactly when the text parses as a JSON object, and gives its fields |
| Collect.CollectLastWins | app-server/src/traces/spans.rs:227-231 | collecting pairs into a map keeps exactly their keys, each with the value of the last pair with that key |
| IndexedLists.PresentBelowBounded | app-server/src/traces/spans.rs:483-486 | n distinct present index keys need at least n map entries, which bounds every probe |
| IndexedLists.PromptRunEnd | app-server/src/traces/spans.rs:483-486 | the probe from i stops at a position n ≥ i whose content key is missing, with every content key below n present |
| IndexedLists.PromptRunEndIsFirstGap | app-server/src/traces/spans.rs:483-486 | the probe from 0 stops at the first missing content key, whatever keys follow it |
| IndexedLists.PromptMessageAt | app-server/src/traces/spans.rs:487-524 | message i's role is the role string or `"user"`; its content is plain text (the content string, `""` when not a string) exactly when that string does not parse as a part list, and otherwise the parts resolved one each, in order |
| IndexedLists.PromptMessages | app-server/src/traces/spans.rs:480-528 | every message sits at a position whose content key is present, message j built from position j, and the content key right after the last message is missing |
| IndexedLists.PromptMessagesCount | app-server/src/traces/spans.rs:480-528 | there is one message per position below the first missing content key (a gap at 1 gives one message even when 2 exists), message j built from position j |
| IndexedLists.PromptRunStep | app-server/src/traces/spans.rs:483-486 | a present content key keeps the probe within the map and does not move the end of the run |
| IndexedLists.ResolveParts | app-server/src/traces/spans.rs:509-519 | content parts are resolved one each, in source order |
| IndexedLists.ReadPromptMessage | app-server/src/traces/spans.rs:487-524 | message i has the content string (`""` when not a string), the role (`"user"` when absent or not a string), and resolved parts when the content parses as a part list, plain text otherwise |
| IndexedLists.InputChatMessages | app-server/src/traces/spans.rs:475-529 | the loop returns exactly the specified message list: one message per position before the first gap, in order |
| IndexedLists.ToolCallArguments | app-server/src/traces/spans.rs:561-573 | absent arguments give `None`; a string that parses as a JSON object gives that object, any other string stays a string; any other value is kept |
| IndexedLists.ToolCallJson | app-server/src/traces/spans.rs:531-539 | a serialised tool call has exactly the fields `name`, `id`, `arguments` and `type`; `id` is the id string when present and null when absent, `arguments` is the arguments value when present and null when absent, `type` the block type |
| IndexedLists.TextBlockJson | app-server/src/traces/spans.rs:541-546 | a serialised text block has exactly the fields `content` and `type`, holding the text and the block type |
| IndexedLists.ToolCallsJson | app-server/src/traces/spans.rs:580 | one serialised block per tool call, block k serialising call k |
| IndexedLists.BlockTypes | app-server/src/traces/spans.rs:531-545 | a serialised tool call or text block carries its block type under `type` |
| IndexedLists.ToolCallAt | app-server/src/traces/spans.rs:557-579 | tool call i has the name string, the id when it is a string, the arguments as above, and block type `tool_call` |
| IndexedLists.ToolRunEnd | app-server/src/traces/spans.rs:553-556 | the probe from i stops at a position n ≥ i whose name is missing or not a string, with a tool call at every position below n |
| IndexedLists.ToolCalls | app-server/src/traces/spans.rs:552-582 | one tool call per position below the end of the run, call j read from position j |
| IndexedLists.ToolRunEndIsFirstGap | app-server/src/traces/spans.rs:554-556 | the probe from 0 stops at the first position without a tool call |
| IndexedLists.ToolRunStep | app-server/src/traces/spans.rs:553-582 | a tool call at i keeps the probe within the map and does not move the end of the run |
| IndexedLists.CompletionOutput | app-server/src/traces/spans.rs:584-602 | there is no output exactly when there is neither a tool call at 0 nor a completion text; with a tool call it is a list, without one it is the text |
| IndexedLists.CompletionOutputShape | app-server/src/traces/spans.rs:584-602 | without tool calls the output is the completion text or `None`; with n tool calls it is a list of the optional text block followed by the n tool-call blocks in index order |
| IndexedLists.CompletionOutputBlockTypes | app-server/src/traces/spans.rs:591-601 | every block of a list output is tagged: the leading text block `text`, all others `tool_call` |
| IndexedLists.ReadToolCall | app-server/src/traces/spans.rs:557-579 | the loop body reads exactly tool call i |
| IndexedLists.CollectToolCalls | app-server/src/traces/spans.rs:552-582 | the loop returns one tool call per position before the first without a name string, in order |
| IndexedLists.OutputFromCompletionContent | app-server/src/traces/spans.rs:547-603 | the output equals the specified completion output, whose shape `CompletionOutputShape` states |
| OtelNormalizer.WireAttributes | app-server/src/traces/spans.rs:227-231 | the collected attributes hold exactly the wire keys, each with the converted value of its last occurrence |
| OtelNormalizer.WireLastWins | app-server/src/traces/spans.rs:227-231 | collecting the converted wire pairs keeps every wire key and the last value for it |
| OtelNormalizer.KeptAttributes | app-server/src/traces/spans.rs:239-251 | the stored attributes are exactly the wire attributes the filter keeps, with their values |
| OtelNormalizer.DetectConvention | app-server/src/traces/spans.rs:260-282 | the indexed convention is chosen if and only if the span is LLM and has `gen_ai.prompt.0.content`; the serialised-messages convention if and only if it is LLM, lacks that key and has `ai.prompt.messages` |
| OtelNormalizer.GenericPayload | app-server/src/traces/spans.rs:283-295 | a generic payload string is parsed as JSON, or kept as the string when it does not parse; no string, no payload |
| OtelNormalizer.ConventionIo | app-server/src/traces/spans.rs:260-296 | indexed: an input always, no output exactly without tool call and completion text; serialised: an input exactly when the messages parse, an output exactly when the response text is a string; generic: each exactly when its generic key holds a string |
| OtelNormalizer.ReadGenericIo | app-server/src/traces/spans.rs:282-296 | the generic branch reads input and output as generic payloads of `lmnr.span.input` and `lmnr.span.output` |
| OtelNormalizer.FromOtelSpan | app-server/src/traces/spans.rs:212-299 | the normaliser builds exactly the specified canonical span |
| OtelNormalizer.NormalizedSpan | app-server/src/traces/spans.rs:212-299 | the span type read from the filtered map equals the one read from the unfiltered wire map, and the stored keys are wire keys |
| OtelNormalizer.NormalizedAttributes | app-server/src/traces/spans.rs:239-251 | the stored attributes are the kept wire attributes with their wire values: never the generic input/output keys or any prompt content or role key, always the tool-call name and arguments keys |
| OtelNormalizer.NonLlmSpansAreGeneric | app-server/src/traces/spans.rs:282-296 | a span that is not LLM takes input and output from the generic keys, whatever GenAI keys it carries |
| OtelNormalizer.IndexedConventionFirst | app-server/src/traces/spans.rs:260-265 | an LLM span with a first indexed prompt takes the reconstructed messages and completion output, even if it also has serialised messages |
| OtelNormalizer.SerializedConventionIo | app-server/src/traces/spans.rs:266-281 | an LLM span without a first indexed prompt but with serialised messages takes the parsed messages as input (none when they do not parse) and the response text as output |
| OtelNormalizer.GenericConventionIo | app-server/src/traces/spans.rs:282-296 | every span of the generic convention takes input and output from the two generic attributes |
| OtelNormalizer.NormalizedIdentity | app-server/src/traces/spans.rs:217-253 | the trace id is the wire bytes, the span id their expansion, and the parent is absent exactly when its bytes are empty; the version is the default and the name the wire name |
| OtelNormalizer.NormalizedTimes | app-server/src/traces/spans.rs:252-253 | start and end times are the wire nanosecond counts cast to `i64` (`U64AsI64`: equal below 2^63, negative above, congruent modulo 2^64) |
| Hierarchy.RootPath | app-server/src/traces/spans.rs:331-335 | the root path is the name alone without a parent path, and otherwise the parent path, a `.`, and the name |
| Hierarchy.CollectsNamedStep | app-server/src/traces/spans.rs:321-329 | visiting one more node keeps the name-to-value collection of Input or Output nodes correct |
| Hierarchy.CollectNamedIo | app-server/src/traces/spans.rs:317-329 | the named inputs hold exactly the names of the Input nodes, each with the value of one of them, and likewise for Output nodes |
| Hierarchy.CreateParentSpanInRunTrace | app-server/src/traces/spans.rs:301-358 | the root span is PIPELINE with a fresh span id, the context's trace id (a fresh one without context), the context's parent, the run's times, path `parent.name` or `name`, exactly the trace-type and path attributes, and the named inputs and outputs |
| Hierarchy.CollectsNamedSingle | app-server/src/traces/spans.rs:319-329 | with exactly one node of a kind, the collected map holds just its name and value |
| Hierarchy.RootInputsExample | app-server/src/traces/spans.rs:319-329 | nodes Input "a" = 1, Output "b" = 2 and LLM "c" give input {"a": 1} and output {"b": 2} |
| Hierarchy.AttributesFromMetaLog | app-server/src/traces/spans.rs:423-450 | the path is always stored; without an LLM log it is the only key; with one, exactly the token counts, response model, provider, total cost and rendered prompt are added; the three counts are stored as the integers, and everything reads back as given |
| Hierarchy.ChildPath | app-server/src/traces/spans.rs:377-386 | an LLM child keeps the parent path; any other child's path is the parent path, a `.`, and the node name |
| Hierarchy.InputValues | app-server/src/traces/spans.rs:388-398 | a child's input holds exactly the names of its input nodes; on a repeated name the last input in edge order wins |
| Hierarchy.ChildSpan | app-server/src/traces/spans.rs:372-418 | the child has the node id as span id, the given trace and parent, the node's name, value, start and end times, the default version, the meta-log attributes at the child path, LLM type exactly for LLM nodes (DEFAULT otherwise), the child path, and an input object keyed by its input nodes' names |
| Hierarchy.FromMessages | app-server/src/traces/spans.rs:364-420 | one child span exactly per LLM or SemanticSearch node, each the `ChildSpan` of its node, with the node id as span id, the given trace and parent, the node's name and value; LLM children are LLM-typed with the parent path, others DEFAULT with `parent.node_name` |
| Hierarchy.InputValuesLastWins | app-server/src/traces/spans.rs:388-398 | collecting the input pairs keeps every input name and the value of its last input in edge order |
| Hierarchy.ChildInputs | app-server/src/traces/spans.rs:408 | each child span's input is the object of its named input values |
| Hierarchy.LlmChildPathExtension | app-server/src/traces/spans.rs:377-386 | extending an LLM child's path by its name later adds exactly one segment (none if already trailing), and re-extending changes nothing |

## Left out

- `get_attributes` / `set_attributes` (spans.rs:201-210): attributes are a map in the model, so the conversions to and from a JSON object are the identity, and their unwraps cannot fail.
- The regular expression's `\d` is Unicode-aware in Rust's regex crate. It is modelled as the ASCII digits `0`–`9`, so keys that use other Unicode decimal digits are not modelled.
- The reserved attribute keys come from `span_attributes.rs`, which is not part of this model. Their literal values are unknown, so they carry stand-in values. These keep only what the model relies on: they are pairwise distinct and they differ from the literal keys of `spans.rs`. `SpanTypeKeysKept` holds for any real spellings that contain neither `gen_ai.prompt.` nor `gen_ai.completion.` (`KeptWithoutStem`).
- JSON parsing, serde enum decoding and serialisation of chat messages and trace types, `convert_any_value_to_json_value`, `span_id_to_uuid` and the content-part resolver are function parameters with no assumed behaviour. The resolver's access to project and storage is not modelled.
- Asynchrony: the resolver is awaited one part at a time in the source. The model resolves the parts in the same order, synchronously.
- `Uuid::new_v4` becomes the `freshSpanId` and `freshTraceId` parameters.
- chrono: `Utc.timestamp_nanos` is the identity on `i64` nanoseconds, and timestamps are those nanoseconds.
- Costs (`f64`) are opaque JSON values. No arithmetic is done on them.
- Node values are kept as JSON; the `.into()` conversion of node values (spans.rs:395, 409) is not modelled.
- The root span's `serde_json::to_value(inputs).ok()` and `serde_json::to_value(outputs).ok()` (spans.rs:352-353) are taken to always succeed and to give a JSON object whose fields are the node values, the same JSON that `.into()` gives the child spans.
- `SpanType::default()` is defined outside this model; `Domain.DEFAULT_SPAN_TYPE` takes it to be `DEFAULT`.
- The spans' `events` and `labels` fields are never set by this code and are not modelled.
- `from_messages` returns a vector in hash-map order; the model returns a map keyed by span id. The node ids are distinct, so no span is lost.
- Hierarchy.CreateParentSpanInRunTrace: when several Input (or Output) nodes share a name, the source keeps the value of whichever comes last in hash-map order. HashMap iteration order is unspecified, so the contract says only that the value belongs to one of the nodes with that name.
- Content-part resolution: `from_instrumentation_content_part` cannot fail, so there is no per-part fallback. Only a content string that does not parse as a part list becomes plain text.
- IndexedLists.OutputFromCompletionContent: the source serialises each tool call as it reads it. The model collects the records first and serialises them together, which yields the same list.
- Serde's rendering of `Uuid`, span types and timestamps when a span is stored is not part of this model.
