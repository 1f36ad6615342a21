/**
 * `PromptTransform`: how much of the model's context window is left for chat history, and
 * how that history is appended to the prompt. The token counter and the conversation memory
 * are supplied from outside.
 */
module PromptTransform {
  import opened Common

  datatype PromptMessage = PromptMessage(role: string, content: string)

  /** One entry of the model schema's `parameter_rules`. */
  datatype ParameterRule = ParameterRule(name: string, useTemplate: Option<string>)

  /**
   * What `_calculate_rest_token` reads of the model config: the schema's context size (absent
   * when the model properties have none), its parameter rules, and the user's parameters.
   */
  datatype ModelConfig = ModelConfig(
    contextSize: Option<int>,
    parameterRules: seq<ParameterRule>,
    parameters: map<string, int>)

  /**
   * The conversation memory: the history messages it returns for a token limit, and the
   * history text it returns for a set of keyword arguments.
   */
  datatype Memory = Memory(
    historyMessages: int -> seq<PromptMessage>,
    historyText: map<string, KwArg> -> string)

  datatype KwArg = IntArg(n: int) | StrArg(s: string)

  const DefaultRestTokens := 2000

  /** `if model_context_tokens:` — present and non-zero. */
  predicate HasContextSize(cfg: ModelConfig) {
    cfg.contextSize.Some? && cfg.contextSize.value != 0
  }

  /** A rule that sets the completion budget: named, or templated on, `max_tokens`. */
  predicate IsMaxTokensRule(rule: ParameterRule) {
    rule.name == "max_tokens" || rule.useTemplate == Some("max_tokens")
  }

  /** `parameters.get(k)` under `or`: a missing key and a zero value both fall through. */
  function Param(parameters: map<string, int>, k: string): int {
    if k in parameters then parameters[k] else 0
  }

  /**
   * The budget a matching rule sets: the parameter under the rule's name, else the one under
   * its template, else 0.
   */
  function RuleValue(parameters: map<string, int>, rule: ParameterRule): (r: int)
    ensures r != 0 ==> r == Param(parameters, rule.name) ||
                       (rule.useTemplate.Some? && r == Param(parameters, rule.useTemplate.value))
    ensures Param(parameters, rule.name) != 0 ==> r == Param(parameters, rule.name)
    ensures Param(parameters, rule.name) == 0 ==>
      r == (if rule.useTemplate.Some? then Param(parameters, rule.useTemplate.value) else 0)
  {
    if Param(parameters, rule.name) != 0 then Param(parameters, rule.name)
    else if rule.useTemplate.Some? then Param(parameters, rule.useTemplate.value)
    else 0
  }

  /** The budget the rules set: the value of the last matching rule, or 0 when none matches. */
  function MaxTokens(rules: seq<ParameterRule>, parameters: map<string, int>): int {
    if |rules| == 0 then 0
    else if IsMaxTokensRule(rules[|rules| - 1]) then RuleValue(parameters, rules[|rules| - 1])
    else MaxTokens(rules[..|rules| - 1], parameters)
  }

  /** The last matching rule decides, whatever the earlier ones say. */
  lemma {:induction false} LastMatchingRuleWins(rules: seq<ParameterRule>, parameters: map<string, int>, j: nat)
    requires j < |rules| && IsMaxTokensRule(rules[j])
    requires forall k :: j < k < |rules| ==> !IsMaxTokensRule(rules[k])
    ensures MaxTokens(rules, parameters) == RuleValue(parameters, rules[j])
  {
    if j < |rules| - 1 {
      var front := rules[..|rules| - 1];
      assert front[j] == rules[j];
      assert forall k :: j < k < |front| ==> front[k] == rules[k];
      LastMatchingRuleWins(front, parameters, j);
    }
  }

  /** With no matching rule the budget is 0. */
  lemma {:induction false} NoMatchingRule(rules: seq<ParameterRule>, parameters: map<string, int>)
    requires forall j :: 0 <= j < |rules| ==> !IsMaxTokensRule(rules[j])
    ensures MaxTokens(rules, parameters) == 0
  {
    if |rules| > 0 {
      var front := rules[..|rules| - 1];
      assert forall j :: 0 <= j < |front| ==> front[j] == rules[j];
      NoMatchingRule(front, parameters);
    }
  }

  /** The budget `_calculate_rest_token` computes, given the prompt's token count. */
  function RestTokens(cfg: ModelConfig, promptTokens: int): (r: int)
    ensures r >= 0
    ensures !HasContextSize(cfg) ==> r == DefaultRestTokens
    ensures HasContextSize(cfg) ==>
      (r == 0 <==> cfg.contextSize.value <= MaxTokens(cfg.parameterRules, cfg.parameters) + promptTokens)
    ensures HasContextSize(cfg) && r > 0 ==>
      r + MaxTokens(cfg.parameterRules, cfg.parameters) + promptTokens == cfg.contextSize.value
  {
    if !HasContextSize(cfg) then DefaultRestTokens
    else ClampAtZero(cfg.contextSize.value - MaxTokens(cfg.parameterRules, cfg.parameters) - promptTokens)
  }

  /** `_calculate_rest_token`; `numTokens` is the model's `get_num_tokens` for the prompt. */
  method CalculateRestToken(promptMessages: seq<PromptMessage>, cfg: ModelConfig,
                            numTokens: seq<PromptMessage> -> int) returns (restTokens: int)
    ensures restTokens == RestTokens(cfg, numTokens(promptMessages))
  {
    restTokens := DefaultRestTokens;
    if HasContextSize(cfg) {
      var modelContextTokens := cfg.contextSize.value;
      var currMessageTokens := numTokens(promptMessages);
      var maxTokens := 0;
      var rules := cfg.parameterRules;
      for i := 0 to |rules|
        invariant maxTokens == MaxTokens(rules[..i], cfg.parameters)
      {
        assert rules[..i + 1][..i] == rules[..i];
        if IsMaxTokensRule(rules[i]) {
          maxTokens := RuleValue(cfg.parameters, rules[i]);
        }
      }
      assert rules[..|rules|] == rules;
      restTokens := modelContextTokens - maxTokens - currMessageTokens;
      restTokens := ClampAtZero(restTokens);
    }
  }

  /** The caller's `prompt_messages` list. */
  class PromptMessageList {
    var items: seq<PromptMessage>

    constructor (items: seq<PromptMessage>)
      ensures this.items == items
    {
      this.items := items;
    }

    /** `list.extend` */
    method Extend(more: seq<PromptMessage>)
      modifies this
      ensures items == old(items) + more
    {
      items := items + more;
    }
  }

  /**
   * `_append_chat_histories`: with a memory, the history that fits the rest of the budget is
   * appended to the same list, which is returned; without one the list is left as it is.
   */
  method AppendChatHistories(memory: Option<Memory>, promptMessages: PromptMessageList,
                             cfg: ModelConfig, numTokens: seq<PromptMessage> -> int)
    returns (r: PromptMessageList)
    modifies promptMessages
    ensures r == promptMessages
    ensures memory.None? ==> r.items == old(promptMessages.items)
    ensures memory.Some? ==>
      r.items == old(promptMessages.items) +
                 memory.value.historyMessages(RestTokens(cfg, numTokens(old(promptMessages.items))))
  {
    if memory.Some? {
      var restTokens := CalculateRestToken(promptMessages.items, cfg, numTokens);
      var histories := GetHistoryMessagesListFromMemory(memory.value, restTokens);
      promptMessages.Extend(histories);
    }
    return promptMessages;
  }

  /** `_get_history_messages_list_from_memory`: the token limit is passed on unchanged. */
  function GetHistoryMessagesListFromMemory(memory: Memory, maxTokenLimit: int): (r: seq<PromptMessage>)
    ensures r == memory.historyMessages(maxTokenLimit)
  {
    memory.historyMessages(maxTokenLimit)
  }

  /**
   * The keyword arguments `_get_history_messages_from_memory` passes on: always the token
   * limit, and each prefix only when it is a non-empty string.
   */
  function HistoryKwargs(maxTokenLimit: int, humanPrefix: Option<string>, aiPrefix: Option<string>)
    : (kwargs: map<string, KwArg>)
    ensures kwargs.Keys <= {"max_token_limit", "human_prefix", "ai_prefix"}
    ensures "max_token_limit" in kwargs && kwargs["max_token_limit"] == IntArg(maxTokenLimit)
    ensures "human_prefix" in kwargs <==> humanPrefix.Some? && humanPrefix.value != ""
    ensures "human_prefix" in kwargs ==> kwargs["human_prefix"] == StrArg(humanPrefix.value)
    ensures "ai_prefix" in kwargs <==> aiPrefix.Some? && aiPrefix.value != ""
    ensures "ai_prefix" in kwargs ==> kwargs["ai_prefix"] == StrArg(aiPrefix.value)
  {
    var k0 := map["max_token_limit" := IntArg(maxTokenLimit)];
    var k1 := if humanPrefix.Some? && humanPrefix.value != "" then k0["human_prefix" := StrArg(humanPrefix.value)] else k0;
    if aiPrefix.Some? && aiPrefix.value != "" then k1["ai_prefix" := StrArg(aiPrefix.value)] else k1
  }

  /**
   * `_get_history_messages_from_memory`: the memory's history text for those arguments. An
   * empty prefix is the same as no prefix: it is not passed, so the memory's default applies.
   */
  function GetHistoryMessagesFromMemory(memory: Memory, maxTokenLimit: int,
                                        humanPrefix: Option<string>, aiPrefix: Option<string>): (r: string)
    ensures r == memory.historyText(HistoryKwargs(maxTokenLimit, humanPrefix, aiPrefix))
    ensures humanPrefix == Some("") ==> r == memory.historyText(HistoryKwargs(maxTokenLimit, None, aiPrefix))
    ensures aiPrefix == Some("") ==> r == memory.historyText(HistoryKwargs(maxTokenLimit, humanPrefix, None))
  {
    memory.historyText(HistoryKwargs(maxTokenLimit, humanPrefix, aiPrefix))
  }
}
