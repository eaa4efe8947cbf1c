/**
 * The attribute facade (`SpanAttributes`): typed, convention-aware reads of
 * a span's open attribute map, and the operations that update that map in
 * place. The reads are pure functions of the map; the updates are methods
 * of the class `SpanAttributes`, each specified by a function of the old
 * map, and the lemmas below state what those functions guarantee.
 */
module SpanAttributesFacade {
  import opened Wrappers
  import opened Json
  import opened Text
  import opened Domain
  import opened AttributeKeys

  type Attributes = map<string, Value>

  /** `b` agrees with `a` on every key except `changed`. */
  ghost predicate SameExcept(a: Attributes, b: Attributes, changed: set<string>)
  {
    && (forall k :: k !in changed ==> (k in a <==> k in b))
    && (forall k :: k !in changed && k in a ==> k in b && a[k] == b[k])
  }

  // ---------------------------------------------------------------------
  // Reads

  /** A string attribute: `None` when the key is absent or holds no string. */
  function StringAttribute(a: Attributes, key: string): (r: Option<string>)
    ensures r.Some? <==> key in a && a[key].Str?
    ensures r.Some? ==> a[key] == Str(r.value)
  {
    if key in a && a[key].Str? then Some(a[key].s) else None
  }

  /** `session_id` */
  function SessionId(a: Attributes): (r: Option<string>)
    ensures r.Some? <==> SESSION_ID in a && a[SESSION_ID].Str?
    ensures r.Some? ==> a[SESSION_ID] == Str(r.value)
  {
    StringAttribute(a, SESSION_ID)
  }

  /** `user_id` */
  function UserId(a: Attributes): (r: Option<string>)
    ensures r.Some? <==> USER_ID in a && a[USER_ID].Str?
    ensures r.Some? ==> a[USER_ID] == Str(r.value)
  {
    StringAttribute(a, USER_ID)
  }

  /** `request_model` */
  function RequestModel(a: Attributes): (r: Option<string>)
    ensures r.Some? <==> GEN_AI_REQUEST_MODEL in a && a[GEN_AI_REQUEST_MODEL].Str?
    ensures r.Some? ==> a[GEN_AI_REQUEST_MODEL] == Str(r.value)
  {
    StringAttribute(a, GEN_AI_REQUEST_MODEL)
  }

  /** `response_model` */
  function ResponseModel(a: Attributes): (r: Option<string>)
    ensures r.Some? <==> GEN_AI_RESPONSE_MODEL in a && a[GEN_AI_RESPONSE_MODEL].Str?
    ensures r.Some? ==> a[GEN_AI_RESPONSE_MODEL] == Str(r.value)
  {
    StringAttribute(a, GEN_AI_RESPONSE_MODEL)
  }

  /** `path`: the span path, when it is stored as a string. */
  function PathOf(a: Attributes): (r: Option<string>)
    ensures r.Some? <==> SPAN_PATH in a && a[SPAN_PATH].Str?
    ensures r.Some? ==> a[SPAN_PATH] == Str(r.value)
  {
    StringAttribute(a, SPAN_PATH)
  }

  /**
   * `trace_type`: the trace-type attribute decoded by `decode` (the enum
   * decoding of serde, not part of this model); `None` when absent or when
   * decoding fails.
   */
  function TraceTypeOf(a: Attributes, decode: Value -> Option<TraceType>): (r: Option<TraceType>)
    ensures TRACE_TYPE !in a ==> r == None
    ensures TRACE_TYPE in a ==> r == decode(a[TRACE_TYPE])
  {
    if TRACE_TYPE in a then decode(a[TRACE_TYPE]) else None
  }

  /**
   * `serde_json::from_value::<Option<String>>`: JSON null decodes to `None`,
   * a string to that string, anything else fails.
   */
  function DecodeOptionalString(v: Value): (r: Option<Option<string>>)
    ensures r == Some(None) <==> v == Null
    ensures (r.Some? && r.value.Some?) <==> v.Str?
    ensures v.Str? ==> r == Some(Some(v.s))
  {
    match v
    case Null => Some(None)
    case Str(s) => Some(Some(s))
    case _ => None
  }

  /** The provider name Langchain's auto-instrumentation reports in place of the real one. */
  const LANGCHAIN: string := "Langchain"

  /**
   * `provider_name`: the model provider. A Langchain-wrapped provider is
   * replaced by the underlying provider property when that decodes (a JSON
   * null there yields `None`); any other provider is cut at its first `.`.
   */
  function ProviderName(a: Attributes): (r: Option<string>)
    ensures StringAttribute(a, GEN_AI_SYSTEM) == None ==> r == None
    ensures StringAttribute(a, GEN_AI_SYSTEM) == Some(LANGCHAIN) ==>
      r == (if LS_PROVIDER in a && DecodeOptionalString(a[LS_PROVIDER]).Some?
            then DecodeOptionalString(a[LS_PROVIDER]).value else Some(LANGCHAIN))
  {
    match StringAttribute(a, GEN_AI_SYSTEM)
    case None => None
    case Some(provider) =>
      if provider == LANGCHAIN then
        var lsProvider := if LS_PROVIDER in a then DecodeOptionalString(a[LS_PROVIDER]) else None;
        if lsProvider.Some? then lsProvider.value else Some(provider)
      else
        Some(UntilFirstDot(provider))
  }

  /**
   * Any provider other than the Langchain wrapper comes out as the part of
   * the raw name before its first `.`: a dot-free prefix of the raw name that
   * is the whole name exactly when the raw name has no `.`.
   */
  lemma ProviderNameCut(a: Attributes, raw: string)
    requires StringAttribute(a, GEN_AI_SYSTEM) == Some(raw) && raw != LANGCHAIN
    ensures ProviderName(a).Some?
    ensures ProviderName(a).value <= raw && '.' !in ProviderName(a).value
    ensures ProviderName(a).value == raw <==> '.' !in raw
    ensures |ProviderName(a).value| < |raw| ==> raw[|ProviderName(a).value|] == '.'
  {
  }

  /** Worked examples: a Langchain-wrapped provider. */
  lemma ProviderNameLangchainExamples()
    ensures ProviderName(map[GEN_AI_SYSTEM := Str("Langchain"), LS_PROVIDER := Str("openai")]) == Some("openai")
    ensures ProviderName(map[GEN_AI_SYSTEM := Str("Langchain"), LS_PROVIDER := Null]) == None
    ensures ProviderName(map[GEN_AI_SYSTEM := Str("Langchain")]) == Some("Langchain")
  {
  }

  /**
   * A compound provider name `head.tail` (other than the Langchain
   * wrapper) is reported as `head`, e.g. `anthropic.messages` as `anthropic`.
   */
  lemma ProviderNameCompound(a: Attributes, head: string, tail: string)
    requires StringAttribute(a, GEN_AI_SYSTEM) == Some(head + "." + tail)
    requires '.' !in head
    ensures ProviderName(a) == Some(head)
  {
    var raw := head + "." + tail;
    assert raw[|head|] == '.';
    assert '.' in raw && '.' !in LANGCHAIN;
    CutCompound(head, tail);
  }

  /** Worked example: a plain provider name is kept. */
  lemma ProviderNamePlainExample()
    ensures ProviderName(map[GEN_AI_SYSTEM := Str("openai")]) == Some("openai")
  {
  }

  /**
   * `span_type`: the decoded span-type attribute (the type's default when
   * it does not decode); without that attribute, LLM exactly when a
   * provider attribute is present, DEFAULT otherwise.
   */
  function SpanTypeOf(a: Attributes, decode: Value -> Option<SpanType>): (r: SpanType)
    ensures SPAN_TYPE in a ==> r == decode(a[SPAN_TYPE]).GetOr(DEFAULT_SPAN_TYPE)
    ensures SPAN_TYPE !in a ==> (r == LLM <==> GEN_AI_SYSTEM in a)
    ensures SPAN_TYPE !in a ==> r in {LLM, DEFAULT}
  {
    if SPAN_TYPE in a then decode(a[SPAN_TYPE]).GetOr(DEFAULT_SPAN_TYPE)
    else if GEN_AI_SYSTEM in a then LLM
    else DEFAULT
  }

  // ---------------------------------------------------------------------
  // Token counts: a read that migrates the legacy key

  /**
   * The value of `input_tokens` / `completion_tokens` and the map they
   * leave behind: the canonical key wins when it holds a number; otherwise
   * a number under the legacy key is returned and copied to the canonical
   * key; otherwise 0. A number that is not an `i64` reads as 0.
   */
  function ReadTokens(a: Attributes, canonical: string, legacy: string): (r: (i64, Attributes))
    ensures SameExcept(a, r.1, {canonical})
    ensures canonical in a && a[canonical].IsNumber() ==> r == (I64OrZero(a[canonical]), a)
    ensures !(canonical in a && a[canonical].IsNumber()) && legacy in a && a[legacy].IsNumber() ==>
      r.0 == I64OrZero(a[legacy]) && canonical in r.1 && r.1[canonical] == FromI64(r.0)
    ensures !(canonical in a && a[canonical].IsNumber()) && !(legacy in a && a[legacy].IsNumber()) ==>
      r == (0, a)
  {
    if canonical in a && a[canonical].IsNumber() then
      (I64OrZero(a[canonical]), a)
    else if legacy in a && a[legacy].IsNumber() then
      var n := I64OrZero(a[legacy]);
      (n, a[canonical := FromI64(n)])
    else
      (0, a)
  }

  /** A second read returns the same count and changes nothing more. */
  lemma ReadTokensIdempotent(a: Attributes, canonical: string, legacy: string)
    ensures var r := ReadTokens(a, canonical, legacy); ReadTokens(r.1, canonical, legacy) == r
  {
  }

  /**
   * After one read, the canonical key holds a number whenever either key
   * held one, and reading it as an `i64` gives the returned count.
   */
  lemma ReadTokensLeavesCanonical(a: Attributes, canonical: string, legacy: string)
    requires (canonical in a && a[canonical].IsNumber()) || (legacy in a && a[legacy].IsNumber())
    ensures var r := ReadTokens(a, canonical, legacy);
      canonical in r.1 && r.1[canonical].IsNumber() && I64OrZero(r.1[canonical]) == r.0
  {
  }

  /**
   * A read never removes the legacy key: whatever it held stays, so the map
   * may hold both forms after a read.
   */
  lemma ReadTokensKeepsLegacy(a: Attributes, canonical: string, legacy: string)
    requires canonical != legacy && legacy in a
    ensures var r := ReadTokens(a, canonical, legacy).1;
      legacy in r && r[legacy] == a[legacy]
  {
  }

  /**
   * After a read that migrated an `i64` integer from the legacy key, the
   * two keys hold the same value.
   */
  lemma ReadTokensMigratedAgree(a: Attributes, canonical: string, legacy: string)
    requires !(canonical in a && a[canonical].IsNumber())
    requires legacy in a && AsI64(a[legacy]).Some?
    ensures var r := ReadTokens(a, canonical, legacy).1;
      canonical in r && legacy in r && r[canonical] == r[legacy]
  {
  }

  /**
   * The two forms need not agree after a read: different counts under both
   * keys both stay (the canonical one is returned), and a legacy count that
   * is a float is migrated as 0 beside the float, which stays.
   */
  lemma ReadTokensFormsMayDisagree(payload: nat)
    ensures var a := map[GEN_AI_INPUT_TOKENS := Int(5), GEN_AI_PROMPT_TOKENS := Int(7)];
      var r := ReadTokens(a, GEN_AI_INPUT_TOKENS, GEN_AI_PROMPT_TOKENS);
      r.0 == 5 && r.1[GEN_AI_INPUT_TOKENS] != r.1[GEN_AI_PROMPT_TOKENS]
    ensures var a := map[GEN_AI_PROMPT_TOKENS := Float(payload)];
      var r := ReadTokens(a, GEN_AI_INPUT_TOKENS, GEN_AI_PROMPT_TOKENS);
      r.0 == 0 && r.1[GEN_AI_INPUT_TOKENS] == Int(0) && r.1[GEN_AI_PROMPT_TOKENS] == Float(payload)
  {
  }

  // ---------------------------------------------------------------------
  // Usage

  /**
   * `SpanUsage`. Costs are `f64` in the source; here they are the JSON
   * values `json!` makes of them, kept opaque.
   */
  datatype SpanUsage = SpanUsage(
    inputTokens: i64,
    outputTokens: i64,
    totalTokens: i64,
    inputCost: Value,
    outputCost: Value,
    totalCost: Value,
    requestModel: Option<string>,
    responseModel: Option<string>,
    providerName: Option<string>)

  /** `attrs[key] := Str(s)` when `s` is present; unchanged otherwise. */
  function PutIfSome(a: Attributes, key: string, s: Option<string>): Attributes
  {
    if s.Some? then a[key := Str(s.value)] else a
  }

  /**
   * The keys `set_usage` writes: the two token counts and the three costs
   * always, each model and the provider only when present, and never the
   * total token count.
   */
  function UsageKeysWritten(u: SpanUsage): (keys: set<string>)
    ensures {GEN_AI_INPUT_TOKENS, GEN_AI_OUTPUT_TOKENS, GEN_AI_TOTAL_COST, GEN_AI_INPUT_COST, GEN_AI_OUTPUT_COST} <= keys
    ensures GEN_AI_REQUEST_MODEL in keys <==> u.requestModel.Some?
    ensures GEN_AI_RESPONSE_MODEL in keys <==> u.responseModel.Some?
    ensures GEN_AI_SYSTEM in keys <==> u.providerName.Some?
    ensures GEN_AI_TOTAL_TOKENS !in keys
  {
    {GEN_AI_INPUT_TOKENS, GEN_AI_OUTPUT_TOKENS, GEN_AI_TOTAL_COST, GEN_AI_INPUT_COST, GEN_AI_OUTPUT_COST}
    + (if u.requestModel.Some? then {GEN_AI_REQUEST_MODEL} else {})
    + (if u.responseModel.Some? then {GEN_AI_RESPONSE_MODEL} else {})
    + (if u.providerName.Some? then {GEN_AI_SYSTEM} else {})
  }

  /** The map `set_usage` leaves behind; every key it does not write keeps its value. */
  function WithUsage(a: Attributes, u: SpanUsage): (r: Attributes)
    ensures SameExcept(a, r, UsageKeysWritten(u))
  {
    var b := a[GEN_AI_INPUT_TOKENS := FromI64(u.inputTokens)]
              [GEN_AI_OUTPUT_TOKENS := FromI64(u.outputTokens)]
              [GEN_AI_TOTAL_COST := u.totalCost]
              [GEN_AI_INPUT_COST := u.inputCost]
              [GEN_AI_OUTPUT_COST := u.outputCost];
    PutIfSome(PutIfSome(PutIfSome(b, GEN_AI_REQUEST_MODEL, u.requestModel),
                        GEN_AI_RESPONSE_MODEL, u.responseModel),
              GEN_AI_SYSTEM, u.providerName)
  }

  /**
   * `set_usage` always writes the two token counts and the three costs,
   * writes the two models and the provider only when present (an absent
   * one keeps whatever value the key held, string or not), never writes the
   * total token count, and leaves every other key alone. The counts it
   * writes read back through the facade.
   */
  lemma SetUsageEffect(a: Attributes, u: SpanUsage)
    ensures var r := WithUsage(a, u);
      && SameExcept(a, r, UsageKeysWritten(u))
      && GEN_AI_TOTAL_TOKENS !in UsageKeysWritten(u)
      && ReadTokens(r, GEN_AI_INPUT_TOKENS, GEN_AI_PROMPT_TOKENS) == (u.inputTokens, r)
      && ReadTokens(r, GEN_AI_OUTPUT_TOKENS, GEN_AI_COMPLETION_TOKENS) == (u.outputTokens, r)
      && r[GEN_AI_INPUT_TOKENS] == FromI64(u.inputTokens) && r[GEN_AI_OUTPUT_TOKENS] == FromI64(u.outputTokens)
      && r[GEN_AI_TOTAL_COST] == u.totalCost
      && r[GEN_AI_INPUT_COST] == u.inputCost
      && r[GEN_AI_OUTPUT_COST] == u.outputCost
      && (u.requestModel.Some? ==> r[GEN_AI_REQUEST_MODEL] == Str(u.requestModel.value))
      && (u.responseModel.Some? ==> r[GEN_AI_RESPONSE_MODEL] == Str(u.responseModel.value))
      && (u.providerName.Some? ==> r[GEN_AI_SYSTEM] == Str(u.providerName.value))
  {
    SetUsageTokens(a, u);
    SetUsageCosts(a, u);
    SetUsageModels(a, u);
  }

  /** The token counts `set_usage` writes are stored as integers and read back through the facade. */
  lemma SetUsageTokens(a: Attributes, u: SpanUsage)
    ensures var r := WithUsage(a, u);
      && r[GEN_AI_INPUT_TOKENS] == FromI64(u.inputTokens) && r[GEN_AI_OUTPUT_TOKENS] == FromI64(u.outputTokens)
      && ReadTokens(r, GEN_AI_INPUT_TOKENS, GEN_AI_PROMPT_TOKENS) == (u.inputTokens, r)
      && ReadTokens(r, GEN_AI_OUTPUT_TOKENS, GEN_AI_COMPLETION_TOKENS) == (u.outputTokens, r)
  {
    var r := WithUsage(a, u);
    assert r[GEN_AI_INPUT_TOKENS] == FromI64(u.inputTokens);
    assert r[GEN_AI_OUTPUT_TOKENS] == FromI64(u.outputTokens);
  }

  /** The costs `set_usage` writes are stored as given. */
  lemma SetUsageCosts(a: Attributes, u: SpanUsage)
    ensures var r := WithUsage(a, u);
      && r[GEN_AI_TOTAL_COST] == u.totalCost
      && r[GEN_AI_INPUT_COST] == u.inputCost
      && r[GEN_AI_OUTPUT_COST] == u.outputCost
  {
  }

  /**
   * A present model or provider is stored as its string; an absent one
   * leaves the key exactly as it was, present or not, string or not.
   */
  lemma SetUsageModels(a: Attributes, u: SpanUsage)
    ensures var r := WithUsage(a, u);
      && (u.requestModel.Some? ==> r[GEN_AI_REQUEST_MODEL] == Str(u.requestModel.value))
      && (u.responseModel.Some? ==> r[GEN_AI_RESPONSE_MODEL] == Str(u.responseModel.value))
      && (u.providerName.Some? ==> r[GEN_AI_SYSTEM] == Str(u.providerName.value))
      && (u.requestModel.None? ==> (GEN_AI_REQUEST_MODEL in r <==> GEN_AI_REQUEST_MODEL in a))
      && (u.requestModel.None? && GEN_AI_REQUEST_MODEL in a ==> r[GEN_AI_REQUEST_MODEL] == a[GEN_AI_REQUEST_MODEL])
      && (u.responseModel.None? ==> (GEN_AI_RESPONSE_MODEL in r <==> GEN_AI_RESPONSE_MODEL in a))
      && (u.responseModel.None? && GEN_AI_RESPONSE_MODEL in a ==> r[GEN_AI_RESPONSE_MODEL] == a[GEN_AI_RESPONSE_MODEL])
      && (u.providerName.None? ==> (GEN_AI_SYSTEM in r <==> GEN_AI_SYSTEM in a))
      && (u.providerName.None? && GEN_AI_SYSTEM in a ==> r[GEN_AI_SYSTEM] == a[GEN_AI_SYSTEM])
  {
  }

  // ---------------------------------------------------------------------
  // Span path

  /** The map `extend_span_path(name)` leaves behind. */
  function ExtendedPath(a: Attributes, name: string): (r: Attributes)
    ensures SameExcept(a, r, {SPAN_PATH})
    ensures PathOf(r).Some?
  {
    match PathOf(a)
    case None => a[SPAN_PATH := Str(name)]
    case Some(path) =>
      if EndsWith(path, "." + name) || path == name then a
      else a[SPAN_PATH := Str(path + "." + name)]
  }

  /**
   * `extend_span_path` sets the path to `name` when there is no string
   * path, keeps a path that already is `name` or ends in `.name`, and
   * otherwise appends `.name`; no other key changes.
   */
  lemma ExtendedPathEffect(a: Attributes, name: string)
    ensures var r := ExtendedPath(a, name);
      && (PathOf(a) == None ==> PathOf(r) == Some(name))
      && (PathOf(a).Some? && (PathOf(a).value == name || EndsWith(PathOf(a).value, "." + name)) ==> r == a)
      && (PathOf(a).Some? && PathOf(a).value != name && !EndsWith(PathOf(a).value, "." + name) ==>
            PathOf(r) == Some(PathOf(a).value + "." + name))
  {
  }

  /** A path extended by `name` is `name` itself or ends in `.name`. */
  lemma ExtendedPathEndsWithName(a: Attributes, name: string)
    ensures var p := PathOf(ExtendedPath(a, name));
      p.Some? && (p.value == name || EndsWith(p.value, "." + name))
  {
    match PathOf(a)
    case None =>
    case Some(path) =>
      if !(EndsWith(path, "." + name) || path == name) {
        var q := path + "." + name;
        assert q[|q| - |"." + name|..] == "." + name;
      }
  }

  /** Extending the path twice by the same name is extending it once. */
  lemma ExtendedPathIdempotent(a: Attributes, name: string)
    ensures ExtendedPath(ExtendedPath(a, name), name) == ExtendedPath(a, name)
  {
    ExtendedPathEndsWithName(a, name);
  }

  // ---------------------------------------------------------------------
  // The facade object

  /** A span's attribute map, updated in place by the facade's operations. */
  class SpanAttributes {
    var attributes: Attributes

    constructor (attributes: Attributes)
      ensures this.attributes == attributes
    {
      this.attributes := attributes;
    }

    /** `input_tokens` */
    method InputTokens() returns (n: i64)
      modifies this
      ensures (n, attributes) == ReadTokens(old(attributes), GEN_AI_INPUT_TOKENS, GEN_AI_PROMPT_TOKENS)
    {
      if GEN_AI_INPUT_TOKENS in attributes && attributes[GEN_AI_INPUT_TOKENS].IsNumber() {
        n := I64OrZero(attributes[GEN_AI_INPUT_TOKENS]);
      } else if GEN_AI_PROMPT_TOKENS in attributes && attributes[GEN_AI_PROMPT_TOKENS].IsNumber() {
        n := I64OrZero(attributes[GEN_AI_PROMPT_TOKENS]);
        attributes := attributes[GEN_AI_INPUT_TOKENS := FromI64(n)];
      } else {
        n := 0;
      }
    }

    /** `completion_tokens` */
    method CompletionTokens() returns (n: i64)
      modifies this
      ensures (n, attributes) == ReadTokens(old(attributes), GEN_AI_OUTPUT_TOKENS, GEN_AI_COMPLETION_TOKENS)
    {
      if GEN_AI_OUTPUT_TOKENS in attributes && attributes[GEN_AI_OUTPUT_TOKENS].IsNumber() {
        n := I64OrZero(attributes[GEN_AI_OUTPUT_TOKENS]);
      } else if GEN_AI_COMPLETION_TOKENS in attributes && attributes[GEN_AI_COMPLETION_TOKENS].IsNumber() {
        n := I64OrZero(attributes[GEN_AI_COMPLETION_TOKENS]);
        attributes := attributes[GEN_AI_OUTPUT_TOKENS := FromI64(n)];
      } else {
        n := 0;
      }
    }

    /** `set_usage` */
    method SetUsage(usage: SpanUsage)
      modifies this
      ensures attributes == WithUsage(old(attributes), usage)
    {
      attributes := attributes[GEN_AI_INPUT_TOKENS := FromI64(usage.inputTokens)];
      attributes := attributes[GEN_AI_OUTPUT_TOKENS := FromI64(usage.outputTokens)];
      attributes := attributes[GEN_AI_TOTAL_COST := usage.totalCost];
      attributes := attributes[GEN_AI_INPUT_COST := usage.inputCost];
      attributes := attributes[GEN_AI_OUTPUT_COST := usage.outputCost];
      if usage.requestModel.Some? {
        attributes := attributes[GEN_AI_REQUEST_MODEL := Str(usage.requestModel.value)];
      }
      if usage.responseModel.Some? {
        attributes := attributes[GEN_AI_RESPONSE_MODEL := Str(usage.responseModel.value)];
      }
      if usage.providerName.Some? {
        attributes := attributes[GEN_AI_SYSTEM := Str(usage.providerName.value)];
      }
    }

    /** `extend_span_path` */
    method ExtendSpanPath(spanName: string)
      modifies this
      ensures attributes == ExtendedPath(old(attributes), spanName)
    {
      if SPAN_PATH in attributes && attributes[SPAN_PATH].Str? {
        var path := attributes[SPAN_PATH].s;
        if !(EndsWith(path, "." + spanName) || path == spanName) {
          attributes := attributes[SPAN_PATH := Str(path + "." + spanName)];
        }
      } else {
        attributes := attributes[SPAN_PATH := Str(spanName)];
      }
    }
  }
}
