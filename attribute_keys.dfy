/**
 * Attribute keys. The reserved keys are constants of the attribute layer
 * (`span_attributes.rs`, which is not part of this model); their literal
 * values are not modelled, so they carry stand-in values that keep exactly
 * what the model relies on: they are pairwise distinct, none of them is one
 * of the literal keys spelled out in spans.rs, and none of them contains
 * `gen_ai.prompt.` or `gen_ai.completion.`, so the attribute filter keeps
 * them.
 */
module AttributeKeys {
  import opened Text

  const ASSOCIATION_PROPERTIES_PREFIX: string := "<ASSOCIATION_PROPERTIES>."
  const GEN_AI_SYSTEM: string := "<GEN_AI_SYSTEM>"
  const GEN_AI_REQUEST_MODEL: string := "<GEN_AI_REQUEST_MODEL>"
  const GEN_AI_RESPONSE_MODEL: string := "<GEN_AI_RESPONSE_MODEL>"
  const GEN_AI_INPUT_TOKENS: string := "<GEN_AI_INPUT_TOKENS>"
  const GEN_AI_OUTPUT_TOKENS: string := "<GEN_AI_OUTPUT_TOKENS>"
  const GEN_AI_PROMPT_TOKENS: string := "<GEN_AI_PROMPT_TOKENS>"
  const GEN_AI_COMPLETION_TOKENS: string := "<GEN_AI_COMPLETION_TOKENS>"
  const GEN_AI_TOTAL_TOKENS: string := "<GEN_AI_TOTAL_TOKENS>"
  const GEN_AI_INPUT_COST: string := "<GEN_AI_INPUT_COST>"
  const GEN_AI_OUTPUT_COST: string := "<GEN_AI_OUTPUT_COST>"
  const GEN_AI_TOTAL_COST: string := "<GEN_AI_TOTAL_COST>"
  const LLM_NODE_RENDERED_PROMPT: string := "<LLM_NODE_RENDERED_PROMPT>"
  const SPAN_PATH: string := "<SPAN_PATH>"
  const SPAN_TYPE: string := "<SPAN_TYPE>"

  const SESSION_ID: string := ASSOCIATION_PROPERTIES_PREFIX + "session_id"
  const USER_ID: string := ASSOCIATION_PROPERTIES_PREFIX + "user_id"
  const TRACE_TYPE: string := ASSOCIATION_PROPERTIES_PREFIX + "trace_type"
  const LS_PROVIDER: string := ASSOCIATION_PROPERTIES_PREFIX + "ls_provider"

  /** Literal keys of spans.rs. */
  const INPUT_ATTRIBUTE_NAME: string := "lmnr.span.input"
  const OUTPUT_ATTRIBUTE_NAME: string := "lmnr.span.output"
  const AI_PROMPT_MESSAGES: string := "ai.prompt.messages"
  const AI_RESPONSE_TEXT: string := "ai.response.text"
  const COMPLETION_TEXT: string := "gen_ai.completion.0.content"

  /** The shared stems of the indexed GenAI keys. */
  const GEN_AI_DOT: string := "gen_ai."
  const PROMPT_STEM: string := GEN_AI_DOT + "prompt."
  const COMPLETION_STEM: string := GEN_AI_DOT + "completion."

  /** `format!("gen_ai.prompt.{}.content", i)` */
  function PromptContentKey(i: nat): string
  {
    PROMPT_STEM + NatToString(i) + ".content"
  }

  /** `format!("gen_ai.prompt.{i}.role")` */
  function PromptRoleKey(i: nat): string
  {
    PROMPT_STEM + NatToString(i) + ".role"
  }

  const TOOL_CALLS_PREFIX: string := COMPLETION_STEM + "0.tool_calls."

  /** `format!("gen_ai.completion.0.tool_calls.{i}.name")` */
  function ToolCallNameKey(i: nat): string
  {
    TOOL_CALLS_PREFIX + NatToString(i) + ".name"
  }

  /** `format!("gen_ai.completion.0.tool_calls.{i}.id")` */
  function ToolCallIdKey(i: nat): string
  {
    TOOL_CALLS_PREFIX + NatToString(i) + ".id"
  }

  /** `format!("gen_ai.completion.0.tool_calls.{i}.arguments")` */
  function ToolCallArgumentsKey(i: nat): string
  {
    TOOL_CALLS_PREFIX + NatToString(i) + ".arguments"
  }

  ghost predicate Injective(f: nat -> string)
  {
    forall a: nat, b: nat :: f(a) == f(b) ==> a == b
  }

  /** Removing a common prefix and suffix leaves equal middles. */
  lemma CancelAffixes(p: string, x: string, y: string, q: string)
    requires p + x + q == p + y + q
    ensures x == y
  {
    var s := p + x + q;
    assert |x| == |y|;
    assert x == s[|p|..|p| + |x|];
    assert y == s[|p|..|p| + |y|];
  }

  lemma PromptContentKeyInjective()
    ensures Injective(PromptContentKey)
  {
    forall a: nat, b: nat | PromptContentKey(a) == PromptContentKey(b)
      ensures a == b
    {
      CancelAffixes(PROMPT_STEM, NatToString(a), NatToString(b), ".content");
      NatToStringInjective(a, b);
    }
  }

  lemma ToolCallNameKeyInjective()
    ensures Injective(ToolCallNameKey)
  {
    forall a: nat, b: nat | ToolCallNameKey(a) == ToolCallNameKey(b)
      ensures a == b
    {
      CancelAffixes(TOOL_CALLS_PREFIX, NatToString(a), NatToString(b), ".name");
      NatToStringInjective(a, b);
    }
  }

  /** The literal key probed by the dispatch is the first indexed prompt key. */
  lemma FirstPromptContentKey()
    ensures PromptContentKey(0) == "gen_ai.prompt.0.content"
  {
  }
}
