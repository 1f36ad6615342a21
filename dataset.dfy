/**
 * `DatasetValidator` over the caller's config dict, which it normalises in place; each
 * method is proved to leave the dict and report the outcome `DatasetSpec` describes.
 */
module DatasetValidator {
  import opened Common
  import opened Json
  import opened DatasetSpec

  /** The caller's `config` dict. */
  class ConfigDict {
    var fields: Dict

    constructor (fields: Dict)
      ensures this.fields == fields
    {
      this.fields := fields;
    }

    /** `config[k] = v` */
    method Put(k: string, v: Json)
      modifies this
      ensures fields == Set(old(fields), k, v)
    {
      fields := Set(fields, k, v);
    }

    /** `config[o][k] = v`, through the dict stored under `o`. */
    method PutIn(o: string, k: string, v: Json)
      requires IsObjectAt(fields, o)
      modifies this
      ensures fields == SetIn(old(fields), o, k, v)
    {
      fields := SetIn(fields, o, k, v);
    }
  }

  /** The `for tool in config["agent_mode"]["tools"]` loop with its `has_datasets` flag. */
  method ProcessTools(env: Env, tools: seq<Json>) returns (r: ToolsOut)
    ensures r == ToolsFrom(env, tools, 0, false)
  {
    var ts := tools;
    var hasDatasets := false;
    var i := 0;
    while i < |ts|
      invariant i <= |ts|
      invariant ToolsFrom(env, ts, i, hasDatasets) == ToolsFrom(env, tools, 0, false)
    {
      var s := ToolStep(env, ts[i]);
      ts := ts[i := s.tool];
      if !s.outcome.Ok? {
        return ToolsOut(ts, s.outcome, hasDatasets);
      }
      if s.isDataset {
        hasDatasets := true;
      }
      i := i + 1;
    }
    r := ToolsOut(ts, Ok, hasDatasets);
  }

  method ExtractDatasetConfigForLegacyCompatibility(env: Env, config: ConfigDict) returns (outcome: Outcome)
    modifies config
    ensures LegacySpec(env, old(config.fields)) == Step(config.fields, outcome)
  {
    if Falsy(config.fields, "agent_mode") {
      config.Put("agent_mode", DefaultAgentMode);
    }
    if !IsObjectAt(config.fields, "agent_mode") {
      return Invalid(AgentModeTypeMessage);
    }

    if Falsy(Inner(config.fields, "agent_mode"), "enabled") {
      config.PutIn("agent_mode", "enabled", JBool(false));
    }
    if !IsBool(Member(config.fields, "agent_mode", "enabled")) {
      return Invalid(EnabledTypeMessage);
    }
    outcome := NormalizeTools(env, config);
  }

  /** The `tools` and `strategy` part of the legacy extraction. */
  method NormalizeTools(env: Env, config: ConfigDict) returns (outcome: Outcome)
    requires IsObjectAt(config.fields, "agent_mode")
    modifies config
    ensures ToolsSpec(env, old(config.fields)) == Step(config.fields, outcome)
  {
    if Falsy(Inner(config.fields, "agent_mode"), "tools") {
      config.PutIn("agent_mode", "tools", JList([]));
    }
    if !IsList(Member(config.fields, "agent_mode", "tools")) {
      return Invalid(ToolsTypeMessage);
    }

    if Falsy(Inner(config.fields, "agent_mode"), "strategy") {
      config.PutIn("agent_mode", "strategy", JStr(Router));
    }
    outcome := CheckDatasetTools(env, config);
  }

  /** The dataset tools under a router strategy, then the legacy query variable check. */
  method CheckDatasetTools(env: Env, config: ConfigDict) returns (outcome: Outcome)
    requires IsObjectAt(config.fields, "agent_mode") && IsList(Member(config.fields, "agent_mode", "tools"))
    modifies config
    ensures StrategySpec(env, old(config.fields)) == Step(config.fields, outcome)
  {
    var hasDatasets := false;
    if IsRouter(Member(config.fields, "agent_mode", "strategy")) {
      var r := ProcessTools(env, Member(config.fields, "agent_mode", "tools").value.items);
      config.PutIn("agent_mode", "tools", JList(r.tools));
      if !r.outcome.Ok? {
        return r.outcome;
      }
      hasDatasets := r.hasDatasets;
    }

    var needManualQueryDatasets := hasDatasets && Member(config.fields, "agent_mode", "enabled") == Some(JBool(true));
    if needManualQueryDatasets && env.mode == Completion && Falsy(config.fields, "dataset_query_variable") {
      return Invalid(QueryVariableMessage);
    }
    return Ok;
  }

  method ValidateAndSetDefaults(env: Env, config: ConfigDict) returns (outcome: Outcome, keys: seq<string>)
    modifies config
    ensures ValidateSpec(env, old(config.fields)) == Step(config.fields, outcome)
    ensures keys == ConfigKeys
  {
    keys := ConfigKeys;
    outcome := ExtractDatasetConfigForLegacyCompatibility(env, config);
    if !outcome.Ok? {
      return;
    }

    if Falsy(config.fields, "dataset_configs") {
      config.Put("dataset_configs", DefaultDatasetConfigs);
    }
    if !IsObjectAt(config.fields, "dataset_configs") {
      outcome := Crashed(AttributeError);
      return;
    }
    if Falsy(Inner(config.fields, "dataset_configs"), "datasets") {
      config.PutIn("dataset_configs", "datasets", DefaultDatasets);
    }
    outcome := CheckRetrievalModel(env, config);
  }

  /** The retrieval model checks and the final query variable check. */
  method CheckRetrievalModel(env: Env, config: ConfigDict) returns (outcome: Outcome)
    requires IsObjectAt(config.fields, "dataset_configs")
    ensures RetrievalSpec(env, config.fields) == Step(config.fields, outcome)
  {

    var retrievalModel := Member(config.fields, "dataset_configs", "retrieval_model");
    if retrievalModel.None? {
      outcome := Crashed(KeyError);
      return;
    }
    if retrievalModel.value == JStr("multiple") {
      var rerankingModel := Member(config.fields, "dataset_configs", "reranking_model");
      if rerankingModel.None? {
        outcome := Crashed(KeyError);
        return;
      }
      if !Truthy(rerankingModel.value) {
        outcome := Invalid(RerankingUnsetMessage);
        return;
      }
      if !rerankingModel.value.JObj? {
        outcome := Invalid(RerankingTypeMessage);
        return;
      }
    }

    var needManualQueryDatasets := !Falsy(config.fields, "dataset_configs")
      && !Falsy(Inner(config.fields, "dataset_configs"), "datasets");
    if needManualQueryDatasets && env.mode == Completion && Falsy(config.fields, "dataset_query_variable") {
      outcome := Invalid(QueryVariableMessage);
      return;
    }
    outcome := Ok;
  }
}
