/**
 * The execution-graph hierarchy builder: the root PIPELINE span of a
 * pipeline run (`create_parent_span_in_run_trace`) and one child span per
 * LLM or SemanticSearch node (`from_messages`, with
 * `span_attributes_from_meta_log`). Node maps are hash maps in the source,
 * visited in no specified order, so the root's named inputs and outputs are
 * collected by a loop that picks the next node arbitrarily, and the child
 * spans come out as a map keyed by span id.
 */
module Hierarchy {
  import opened Wrappers
  import opened Json
  import opened Domain
  import opened AttributeKeys
  import opened Collaborators
  import opened Collect
  import opened SpanAttributesFacade

  /** The usage record an LLM node leaves (`MetaLog::LLM`). */
  datatype LlmLog = LlmLog(
    inputTokenCount: i64,
    outputTokenCount: i64,
    totalTokenCount: i64,
    model: string,
    provider: string,
    approximateCost: Value,
    prompt: string)

  datatype MetaLog = LlmMetaLog(log: LlmLog) | OtherMetaLog

  /** An execution node of the workflow engine (`Message`); its value is kept as JSON. */
  datatype Message = Message(
    nodeType: string,
    nodeName: string,
    value: Value,
    startTime: Timestamp,
    endTime: Timestamp,
    metaLog: Option<MetaLog>,
    inputMessageIds: seq<Uuid>)

  /** The ambient trace context (`CurrentTraceAndSpan`). */
  datatype CurrentTraceAndSpan = CurrentTraceAndSpan(traceId: Uuid, parentSpanId: Uuid, parentSpanPath: Option<string>)

  /** The timing of a pipeline run (`RunTraceStats`). */
  datatype RunTraceStats = RunTraceStats(startTime: Timestamp, endTime: Timestamp)

  // ---------------------------------------------------------------------
  // Root span: `create_parent_span_in_run_trace`

  /** The root span's path: the context's parent path extended by `name`, or `name` alone. */
  function RootPath(context: Option<CurrentTraceAndSpan>, name: string): (path: string)
    ensures context.None? || context.value.parentSpanPath.None? ==> path == name
    ensures context.Some? && context.value.parentSpanPath.Some? ==>
      var parent := context.value.parentSpanPath.value;
      |path| == |parent| + 1 + |name| && path[..|parent|] == parent && path[|parent|] == '.' && path[|parent| + 1..] == name
  {
    if context.Some? && context.value.parentSpanPath.Some? then context.value.parentSpanPath.value + "." + name
    else name
  }

  /**
   * `acc` maps exactly the names of the `tag` nodes among `visited`, each to
   * the value of some `tag` node of that name (which one depends on the
   * unspecified visiting order when several share a name).
   */
  ghost predicate CollectsNamed(acc: map<string, Value>, messages: map<Uuid, Message>, visited: set<Uuid>, tag: string)
  {
    && (forall name :: name in acc <==>
          exists id :: id in visited && id in messages && messages[id].nodeType == tag && messages[id].nodeName == name)
    && (forall name :: name in acc ==>
          exists id :: id in visited && id in messages && messages[id].nodeType == tag &&
            messages[id].nodeName == name && messages[id].value == acc[name])
  }

  /** Visiting one more node keeps `CollectsNamed`. */
  lemma CollectsNamedStep(acc: map<string, Value>, messages: map<Uuid, Message>, visited: set<Uuid>, tag: string, id: Uuid)
    requires CollectsNamed(acc, messages, visited, tag)
    requires id in messages
    ensures var m := messages[id];
      CollectsNamed(if m.nodeType == tag then acc[m.nodeName := m.value] else acc, messages, visited + {id}, tag)
  {
    var m := messages[id];
    var acc' := if m.nodeType == tag then acc[m.nodeName := m.value] else acc;
    forall name | name in acc'
      ensures exists id' :: id' in visited + {id} && id' in messages && messages[id'].nodeType == tag &&
                messages[id'].nodeName == name && messages[id'].value == acc'[name]
    {
      if m.nodeType == tag && name == m.nodeName {
        assert messages[id].value == acc'[name];
      } else {
        var id' :| id' in visited && id' in messages && messages[id'].nodeType == tag &&
                   messages[id'].nodeName == name && messages[id'].value == acc[name];
      }
    }
  }

  /**
   * The node loop of `create_parent_span_in_run_trace`: the values of the
   * Input nodes and of the Output nodes, each keyed by node name.
   */
  method CollectNamedIo(messages: map<Uuid, Message>) returns (inputs: map<string, Value>, outputs: map<string, Value>)
    ensures CollectsNamed(inputs, messages, messages.Keys, "Input")
    ensures CollectsNamed(outputs, messages, messages.Keys, "Output")
  {
    inputs := map[];
    outputs := map[];
    var remaining := messages.Keys;
    while remaining != {}
      invariant remaining <= messages.Keys
      invariant CollectsNamed(inputs, messages, messages.Keys - remaining, "Input")
      invariant CollectsNamed(outputs, messages, messages.Keys - remaining, "Output")
      decreases remaining
    {
      var id :| id in remaining;
      var msg := messages[id];
      CollectsNamedStep(inputs, messages, messages.Keys - remaining, "Input", id);
      CollectsNamedStep(outputs, messages, messages.Keys - remaining, "Output", id);
      if msg.nodeType == "Input" {
        inputs := inputs[msg.nodeName := msg.value];
      } else if msg.nodeType == "Output" {
        outputs := outputs[msg.nodeName := msg.value];
      }
      assert messages.Keys - (remaining - {id}) == (messages.Keys - remaining) + {id};
      remaining := remaining - {id};
    }
  }

  /** `create_parent_span_in_run_trace`; `freshSpanId` and `freshTraceId` stand for `Uuid::new_v4`. */
  method CreateParentSpanInRunTrace(
    context: Option<CurrentTraceAndSpan>, stats: RunTraceStats, name: string,
    messages: map<Uuid, Message>, traceType: TraceType, c: Codecs,
    freshSpanId: Uuid, freshTraceId: Uuid)
    returns (span: Span)
    ensures span.spanType == PIPELINE
    ensures span.spanId == freshSpanId
    ensures span.traceId == (if context.Some? then context.value.traceId else freshTraceId)
    ensures span.parentSpanId == (if context.Some? then Some(context.value.parentSpanId) else None)
    ensures span.name == name && span.version == DEFAULT_VERSION
    ensures span.startTime == stats.startTime && span.endTime == stats.endTime
    ensures PathOf(span.attributes) == Some(RootPath(context, name))
    ensures span.attributes.Keys == {TRACE_TYPE, SPAN_PATH}
    ensures span.attributes[TRACE_TYPE] == c.encodeTraceType(traceType)
    ensures span.input.Some? && span.input.value.Obj?
    ensures CollectsNamed(span.input.value.fields, messages, messages.Keys, "Input")
    ensures span.output.Some? && span.output.value.Obj?
    ensures CollectsNamed(span.output.value.fields, messages, messages.Keys, "Output")
  {
    var traceId := if context.Some? then context.value.traceId else freshTraceId;
    var parentSpanId := if context.Some? then Some(context.value.parentSpanId) else None;
    var parentSpanPath := if context.Some? then context.value.parentSpanPath else None;

    var inputs, outputs := CollectNamedIo(messages);

    var path := if parentSpanPath.Some? then parentSpanPath.value + "." + name else name;
    var attributes := map[TRACE_TYPE := c.encodeTraceType(traceType), SPAN_PATH := Str(path)];
    span := Span(
      version := DEFAULT_VERSION,
      spanId := freshSpanId,
      traceId := traceId,
      parentSpanId := parentSpanId,
      name := name,
      attributes := attributes,
      startTime := stats.startTime,
      endTime := stats.endTime,
      input := Some(Obj(inputs)),
      output := Some(Obj(outputs)),
      spanType := PIPELINE);
  }

  /** When exactly one node carries `tag`, the collected map holds just its name and value. */
  lemma CollectsNamedSingle(acc: map<string, Value>, messages: map<Uuid, Message>, tag: string, id: Uuid)
    requires CollectsNamed(acc, messages, messages.Keys, tag)
    requires id in messages && messages[id].nodeType == tag
    requires forall id' :: id' in messages && messages[id'].nodeType == tag ==> id' == id
    ensures acc == map[messages[id].nodeName := messages[id].value]
  {
    var name := messages[id].nodeName;
    assert name in acc;
    forall other | other in acc
      ensures other == name
    {
      var w :| w in messages.Keys && w in messages && messages[w].nodeType == tag && messages[w].nodeName == other;
    }
    var w :| w in messages.Keys && w in messages && messages[w].nodeType == tag &&
             messages[w].nodeName == name && messages[w].value == acc[name];
    assert acc.Keys == {name};
  }

  /**
   * The worked example: of the nodes Input "a" = 1, Output "b" = 2 and
   * LLM "c", only "a" is a named input and only "b" a named output.
   */
  lemma RootInputsExample(ins: map<string, Value>, outs: map<string, Value>,
                          ida: Uuid, idb: Uuid, idc: Uuid, m: Message)
    requires ida != idb && idb != idc && ida != idc
    requires m.nodeType == "LLM" && m.nodeName == "c"
    requires var messages := map[ida := Message("Input", "a", Int(1), 0, 0, None, []),
                                 idb := Message("Output", "b", Int(2), 0, 0, None, []),
                                 idc := m];
      CollectsNamed(ins, messages, messages.Keys, "Input") && CollectsNamed(outs, messages, messages.Keys, "Output")
    ensures ins == map["a" := Int(1)]
    ensures outs == map["b" := Int(2)]
  {
    var messages := map[ida := Message("Input", "a", Int(1), 0, 0, None, []),
                        idb := Message("Output", "b", Int(2), 0, 0, None, []),
                        idc := m];
    CollectsNamedSingle(ins, messages, "Input", ida);
    CollectsNamedSingle(outs, messages, "Output", idb);
  }

  // ---------------------------------------------------------------------
  // Child spans: `from_messages`

  /** The node types that become spans. */
  predicate IsSpanNode(nodeType: string)
  {
    nodeType == "LLM" || nodeType == "SemanticSearch"
  }

  /** The source looks up every input of a span node; each must be in the map. */
  predicate InputsKnown(messages: map<Uuid, Message>)
  {
    forall id, k :: id in messages && IsSpanNode(messages[id].nodeType) && 0 <= k < |messages[id].inputMessageIds| ==>
      messages[id].inputMessageIds[k] in messages
  }

  /** `span_attributes_from_meta_log` */
  function AttributesFromMetaLog(metaLog: Option<MetaLog>, spanPath: string): (r: Attributes)
    ensures PathOf(r) == Some(spanPath)
    ensures !(metaLog.Some? && metaLog.value.LlmMetaLog?) ==> r == map[SPAN_PATH := Str(spanPath)]
    ensures metaLog.Some? && metaLog.value.LlmMetaLog? ==>
      var log := metaLog.value.log;
      && r.Keys == {GEN_AI_INPUT_TOKENS, GEN_AI_OUTPUT_TOKENS, GEN_AI_TOTAL_TOKENS, GEN_AI_RESPONSE_MODEL,
                    GEN_AI_SYSTEM, GEN_AI_TOTAL_COST, LLM_NODE_RENDERED_PROMPT, SPAN_PATH}
      && ReadTokens(r, GEN_AI_INPUT_TOKENS, GEN_AI_PROMPT_TOKENS) == (log.inputTokenCount, r)
      && ReadTokens(r, GEN_AI_OUTPUT_TOKENS, GEN_AI_COMPLETION_TOKENS) == (log.outputTokenCount, r)
      && r[GEN_AI_INPUT_TOKENS] == FromI64(log.inputTokenCount) && r[GEN_AI_OUTPUT_TOKENS] == FromI64(log.outputTokenCount)
      && r[GEN_AI_TOTAL_TOKENS] == FromI64(log.totalTokenCount)
      && AsI64(r[GEN_AI_TOTAL_TOKENS]) == Some(log.totalTokenCount)
      && ResponseModel(r) == Some(log.model)
      && StringAttribute(r, GEN_AI_SYSTEM) == Some(log.provider)
      && r[GEN_AI_TOTAL_COST] == log.approximateCost
      && StringAttribute(r, LLM_NODE_RENDERED_PROMPT) == Some(log.prompt)
  {
    var base: Attributes :=
      match metaLog
      case Some(LlmMetaLog(log)) =>
        map[GEN_AI_INPUT_TOKENS := FromI64(log.inputTokenCount),
            GEN_AI_OUTPUT_TOKENS := FromI64(log.outputTokenCount),
            GEN_AI_TOTAL_TOKENS := FromI64(log.totalTokenCount),
            GEN_AI_RESPONSE_MODEL := Str(log.model),
            GEN_AI_SYSTEM := Str(log.provider),
            GEN_AI_TOTAL_COST := log.approximateCost,
            LLM_NODE_RENDERED_PROMPT := Str(log.prompt)]
      case _ => map[];
    base[SPAN_PATH := Str(spanPath)]
  }

  /** A child's path: the parent path for LLM nodes, the parent path extended by the node name otherwise. */
  function ChildPath(message: Message, parentSpanPath: string): (path: string)
    ensures message.nodeType == "LLM" ==> path == parentSpanPath
    ensures message.nodeType != "LLM" ==>
      && |path| == |parentSpanPath| + 1 + |message.nodeName|
      && path[..|parentSpanPath|] == parentSpanPath
      && path[|parentSpanPath|] == '.'
      && path[|parentSpanPath| + 1..] == message.nodeName
  {
    if message.nodeType == "LLM" then parentSpanPath else parentSpanPath + "." + message.nodeName
  }

  /** The (name, value) pairs of a node's inputs, in input order. */
  function NamedPairs(ids: seq<Uuid>, messages: map<Uuid, Message>): (pairs: seq<(string, Value)>)
    requires forall k :: 0 <= k < |ids| ==> ids[k] in messages
    ensures |pairs| == |ids|
  {
    seq(|ids|, k requires 0 <= k < |ids| => (messages[ids[k]].nodeName, messages[ids[k]].value))
  }

  /**
   * The named values of a node's inputs hold exactly the names of those
   * inputs; when several share a name, the last one in input order wins.
   */
  function InputValues(ids: seq<Uuid>, messages: map<Uuid, Message>): (fields: map<string, Value>)
    requires forall k :: 0 <= k < |ids| ==> ids[k] in messages
    ensures forall name :: name in fields <==> exists k :: 0 <= k < |ids| && messages[ids[k]].nodeName == name
    ensures forall name :: name in fields ==>
      exists k :: 0 <= k < |ids| && messages[ids[k]].nodeName == name &&
        messages[ids[k]].value == fields[name] &&
        forall k' :: k < k' < |ids| ==> messages[ids[k']].nodeName != name
  {
    var pairs := NamedPairs(ids, messages);
    var fields := CollectLastWins(pairs);
    InputValuesLastWins(ids, messages, fields);
    fields
  }

  /** The child span of node `id`. */
  function ChildSpan(id: Uuid, messages: map<Uuid, Message>, traceId: Uuid, parentSpanId: Uuid, parentSpanPath: string)
    : (span: Span)
    requires id in messages && IsSpanNode(messages[id].nodeType) && InputsKnown(messages)
    ensures span.spanId == id && span.traceId == traceId && span.parentSpanId == Some(parentSpanId)
    ensures span.name == messages[id].nodeName && span.output == Some(messages[id].value)
    ensures span.version == DEFAULT_VERSION
    ensures span.startTime == messages[id].startTime && span.endTime == messages[id].endTime
    ensures span.attributes == AttributesFromMetaLog(messages[id].metaLog, ChildPath(messages[id], parentSpanPath))
    ensures span.spanType == LLM <==> messages[id].nodeType == "LLM"
    ensures span.spanType != LLM ==> span.spanType == DEFAULT
    ensures PathOf(span.attributes) == Some(ChildPath(messages[id], parentSpanPath))
    ensures span.input.Some? && span.input.value.Obj?
    ensures forall name :: name in span.input.value.fields <==>
      exists k :: 0 <= k < |messages[id].inputMessageIds| && messages[messages[id].inputMessageIds[k]].nodeName == name
  {
    var message := messages[id];
    Span(
      version := DEFAULT_VERSION,
      spanId := id,
      traceId := traceId,
      parentSpanId := Some(parentSpanId),
      name := message.nodeName,
      attributes := AttributesFromMetaLog(message.metaLog, ChildPath(message, parentSpanPath)),
      startTime := message.startTime,
      endTime := message.endTime,
      input := Some(Obj(InputValues(message.inputMessageIds, messages))),
      output := Some(message.value),
      spanType := if message.nodeType == "LLM" then LLM else DEFAULT)
  }

  /**
   * `from_messages`: one span per LLM or SemanticSearch node and none for
   * any other node, keyed by its span id, which is the node id. Each is a
   * child of the given parent in the given trace; an LLM child keeps the
   * parent path (its name is appended later, by whoever extends the path of
   * the LLM span), any other child appends its node name.
   */
  function FromMessages(messages: map<Uuid, Message>, traceId: Uuid, parentSpanId: Uuid, parentSpanPath: string)
    : (spans: map<Uuid, Span>)
    requires InputsKnown(messages)
    ensures spans.Keys == set id | id in messages && IsSpanNode(messages[id].nodeType)
    ensures forall id :: id in spans ==> spans[id] == ChildSpan(id, messages, traceId, parentSpanId, parentSpanPath)
    ensures forall id :: id in spans ==>
      && spans[id].spanId == id
      && spans[id].traceId == traceId
      && spans[id].parentSpanId == Some(parentSpanId)
      && spans[id].name == messages[id].nodeName
      && spans[id].output == Some(messages[id].value)
      && (messages[id].nodeType == "LLM" ==> spans[id].spanType == LLM && PathOf(spans[id].attributes) == Some(parentSpanPath))
      && (messages[id].nodeType != "LLM" ==>
            spans[id].spanType == DEFAULT && PathOf(spans[id].attributes) == Some(parentSpanPath + "." + messages[id].nodeName))
  {
    map id | id in messages && IsSpanNode(messages[id].nodeType) :: ChildSpan(id, messages, traceId, parentSpanId, parentSpanPath)
  }

  /** The pairs collected into a map keep the input names, the last of each name winning. */
  lemma InputValuesLastWins(ids: seq<Uuid>, messages: map<Uuid, Message>, fields: map<string, Value>)
    requires forall k :: 0 <= k < |ids| ==> ids[k] in messages
    requires LastWins(NamedPairs(ids, messages), fields)
    ensures forall name :: name in fields <==> exists k :: 0 <= k < |ids| && messages[ids[k]].nodeName == name
    ensures forall name :: name in fields ==>
      exists k :: 0 <= k < |ids| && messages[ids[k]].nodeName == name &&
        messages[ids[k]].value == fields[name] &&
        forall k' :: k < k' < |ids| ==> messages[ids[k']].nodeName != name
  {
    var pairs := NamedPairs(ids, messages);
    forall name | name in fields
      ensures exists k :: 0 <= k < |ids| && messages[ids[k]].nodeName == name &&
                messages[ids[k]].value == fields[name] &&
                forall k' :: k < k' < |ids| ==> messages[ids[k']].nodeName != name
    {
      var k :| 0 <= k < |pairs| && pairs[k] == (name, fields[name]) &&
               forall j :: k < j < |pairs| ==> pairs[j].0 != name;
      forall k' | k < k' < |ids| ensures messages[ids[k']].nodeName != name {
        assert pairs[k'].0 == messages[ids[k']].nodeName;
      }
    }
    forall name | (exists k :: 0 <= k < |ids| && messages[ids[k]].nodeName == name)
      ensures name in fields
    {
      var k :| 0 <= k < |ids| && messages[ids[k]].nodeName == name;
      assert pairs[k].0 == name;
    }
  }

  /** A child span's input is the named values of its node's inputs. */
  lemma ChildInputs(messages: map<Uuid, Message>, traceId: Uuid, parentSpanId: Uuid, parentSpanPath: string, id: Uuid)
    requires InputsKnown(messages)
    requires id in messages && IsSpanNode(messages[id].nodeType)
    ensures id in FromMessages(messages, traceId, parentSpanId, parentSpanPath)
    ensures FromMessages(messages, traceId, parentSpanId, parentSpanPath)[id].input ==
      Some(Obj(InputValues(messages[id].inputMessageIds, messages)))
  {
  }

  /**
   * When a consumer later extends an LLM child's path by the span name, the
   * path gains that one segment, unless the parent path already ends with
   * it; extending again changes nothing.
   */
  lemma LlmChildPathExtension(messages: map<Uuid, Message>, traceId: Uuid, parentSpanId: Uuid, parentSpanPath: string,
                              id: Uuid, spanName: string)
    requires InputsKnown(messages)
    requires id in FromMessages(messages, traceId, parentSpanId, parentSpanPath)
    requires messages[id].nodeType == "LLM"
    ensures var a := FromMessages(messages, traceId, parentSpanId, parentSpanPath)[id].attributes;
      && PathOf(ExtendedPath(a, spanName)) ==
           Some(if parentSpanPath == spanName || Text.EndsWith(parentSpanPath, "." + spanName) then parentSpanPath
                else parentSpanPath + "." + spanName)
      && ExtendedPath(ExtendedPath(a, spanName), spanName) == ExtendedPath(a, spanName)
  {
    var a := FromMessages(messages, traceId, parentSpanId, parentSpanPath)[id].attributes;
    ExtendedPathEffect(a, spanName);
    ExtendedPathIdempotent(a, spanName);
  }
}
