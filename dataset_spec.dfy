/**
 * `DatasetValidator` of the app config validators, as functions from the config dict before
 * a call to the dict after it and the call's outcome. The dict is normalised in place, so a
 * call that raises still leaves the defaults it wrote before raising.
 */
module DatasetSpec {
  import opened Common
  import opened Json

  datatype AppMode = Completion | Workflow | Chat | AdvancedChat | AgentChat | Channel

  /** Exceptions other than `ValueError` that the validator lets escape. */
  datatype PyError = KeyError | AttributeError | TypeError | IndexError

  /** `Invalid` is a `ValueError` with its message; `Crashed` any other exception. */
  datatype Outcome = Ok | Invalid(message: string) | Crashed(error: PyError)

  datatype Dataset = Dataset(id: string, tenantId: string)

  /**
   * What a call depends on besides the config: the tenant, the app mode, whether
   * `uuid.UUID` accepts a string, and `DatasetService.get_dataset`.
   */
  datatype Env = Env(tenantId: string, mode: AppMode, isUuid: string -> bool,
                     getDataset: string -> Option<Dataset>)

  datatype Step = Step(config: Dict, outcome: Outcome)

  /** `PlanningStrategy.ROUTER` and `PlanningStrategy.REACT_ROUTER`. */
  const Router: string := "router"
  const ReactRouter: string := "react_router"

  const DefaultAgentMode: Json :=
    JObj(Dict(["enabled", "tools"], map["enabled" := JBool(false), "tools" := JList([])]))
  const DefaultDatasetConfigs: Json :=
    JObj(Dict(["retrieval_model"], map["retrieval_model" := JStr("single")]))
  const DefaultDatasets: Json :=
    JObj(Dict(["strategy", "datasets"], map["strategy" := JStr(Router), "datasets" := JList([])]))
  /** The config keys `validate_and_set_defaults` reports as its own. */
  const ConfigKeys: seq<string> := ["agent_mode", "dataset_configs", "dataset_query_variable"]

  const AgentModeTypeMessage := "agent_mode must be of object type"
  const EnabledTypeMessage := "enabled in agent_mode must be of boolean type"
  const ToolsTypeMessage := "tools in agent_mode must be a list of objects"
  const ToolEnabledTypeMessage := "enabled in agent_mode.tools must be of boolean type"
  const IdRequiredMessage := "id is required in dataset"
  const IdUuidMessage := "id in dataset must be of UUID type"
  const DatasetMissingMessage := "Dataset ID does not exist, please check your permission."
  const QueryVariableMessage := "Dataset query variable is required when dataset is exist"
  const RerankingUnsetMessage := "reranking_model has not been set"
  const RerankingTypeMessage := "reranking_model must be of object type"

  /** `is_dataset_exists`: the dataset is found and belongs to the tenant. */
  function IsDatasetExists(getDataset: string -> Option<Dataset>, tenantId: string, datasetId: string): (r: bool)
    ensures r <==> exists d :: getDataset(datasetId) == Some(d) && d.tenantId == tenantId
  {
    match getDataset(datasetId)
    case None => false
    case Some(d) => d.tenantId == tenantId
  }

  predicate IsBool(v: Option<Json>) {
    v.Some? && v.value.JBool?
  }

  predicate IsList(v: Option<Json>) {
    v.Some? && v.value.JList?
  }

  predicate IsRouter(strategy: Option<Json>) {
    strategy == Some(JStr(Router)) || strategy == Some(JStr(ReactRouter))
  }

  /**
   * The `id` checks of an old-style dataset tool: present, accepted by `uuid.UUID`
   * (`None` makes it raise `TypeError`, other non-strings `AttributeError`), and naming a
   * dataset of the tenant.
   */
  function CheckDatasetId(env: Env, id: Option<Json>): Outcome {
    match id
    case None => Invalid(IdRequiredMessage)
    case Some(JNone) => Crashed(TypeError)
    case Some(JStr(s)) =>
      if !env.isUuid(s) then Invalid(IdUuidMessage)
      else if !IsDatasetExists(env.getDataset, env.tenantId, s) then Invalid(DatasetMissingMessage)
      else Ok
    case Some(_) => Crashed(AttributeError)
  }

  datatype ToolOut = ToolOut(tool: Json, outcome: Outcome, isDataset: bool)

  /**
   * One iteration of the tools loop. A tool that is not a dict has no `keys` (AttributeError),
   * an empty one no first key (IndexError); a `dataset` entry whose value is not a dict fails
   * on the `enabled` lookup or assignment (TypeError). The first key of a dict always has an
   * entry; a `Dict` whose key list names a key without one is no Python dict and is sent to
   * KeyError, as `tool[key]` would be.
   */
  function ToolStep(env: Env, tool: Json): ToolOut {
    if !tool.JObj? then ToolOut(tool, Crashed(AttributeError), false)
    else if |tool.d.keys| == 0 then ToolOut(tool, Crashed(IndexError), false)
    else if tool.d.keys[0] != "dataset" then ToolOut(tool, Ok, false)
    else
      match Get(tool.d, "dataset")
      case None => ToolOut(tool, Crashed(KeyError), true)
      case Some(JObj(item)) =>
        var item1 := SetDefault(item, "enabled", JBool(false));
        var tool1 := JObj(Set(tool.d, "dataset", JObj(item1)));
        if !IsBool(Get(item1, "enabled")) then ToolOut(tool1, Invalid(ToolEnabledTypeMessage), true)
        else ToolOut(tool1, CheckDatasetId(env, Get(item1, "id")), true)
      case Some(_) => ToolOut(tool, Crashed(TypeError), true)
  }

  datatype ToolsOut = ToolsOut(tools: seq<Json>, outcome: Outcome, hasDatasets: bool)

  /** The tools loop from index `i` on, with the `has_datasets` flag so far. */
  function ToolsFrom(env: Env, ts: seq<Json>, i: nat, has: bool): (r: ToolsOut)
    requires i <= |ts|
    ensures |r.tools| == |ts|
    ensures forall j :: 0 <= j < i ==> r.tools[j] == ts[j]
    decreases |ts| - i
  {
    if i == |ts| then ToolsOut(ts, Ok, has)
    else
      var s := ToolStep(env, ts[i]);
      var ts1 := ts[i := s.tool];
      if !s.outcome.Ok? then ToolsOut(ts1, s.outcome, has)
      else ToolsFrom(env, ts1, i + 1, has || s.isDataset)
  }

  /** `extract_dataset_config_for_legacy_compatibility` */
  function LegacySpec(env: Env, c: Dict): (r: Step)
    ensures forall k :: k != "agent_mode" ==> Get(r.config, k) == Get(c, k)
  {
    var c1 := SetDefault(c, "agent_mode", DefaultAgentMode);
    if !IsObjectAt(c1, "agent_mode") then Step(c1, Invalid(AgentModeTypeMessage))
    else
      var c2 := SetDefaultIn(c1, "agent_mode", "enabled", JBool(false));
      if !IsBool(Member(c2, "agent_mode", "enabled")) then Step(c2, Invalid(EnabledTypeMessage))
      else ToolsSpec(env, c2)
  }

  /** The `tools` and `strategy` defaults, the tools loop and the query variable check. */
  function ToolsSpec(env: Env, c: Dict): (r: Step)
    requires IsObjectAt(c, "agent_mode")
    ensures forall k :: k != "agent_mode" ==> Get(r.config, k) == Get(c, k)
  {
    var c1 := SetDefaultIn(c, "agent_mode", "tools", JList([]));
    if !IsList(Member(c1, "agent_mode", "tools")) then Step(c1, Invalid(ToolsTypeMessage))
    else StrategySpec(env, SetDefaultIn(c1, "agent_mode", "strategy", JStr(Router)))
  }

  /** Dataset tools are only checked under a router strategy. */
  function StrategySpec(env: Env, c: Dict): (r: Step)
    requires IsObjectAt(c, "agent_mode") && IsList(Member(c, "agent_mode", "tools"))
    ensures forall k :: k != "agent_mode" ==> Get(r.config, k) == Get(c, k)
    ensures !IsRouter(Member(c, "agent_mode", "strategy")) ==> r == Step(c, Ok)
  {
    if !IsRouter(Member(c, "agent_mode", "strategy")) then LegacyQueryCheck(env, c, false)
    else
      var r := ToolsFrom(env, Member(c, "agent_mode", "tools").value.items, 0, false);
      var c1 := SetIn(c, "agent_mode", "tools", JList(r.tools));
      if !r.outcome.Ok? then Step(c1, r.outcome)
      else LegacyQueryCheck(env, c1, r.hasDatasets)
  }

  /** Lines after the tools loop: completion apps with enabled dataset tools need a query variable. */
  function LegacyQueryCheck(env: Env, c: Dict, hasDatasets: bool): (r: Step)
    requires IsObjectAt(c, "agent_mode")
    ensures r.config == c
    ensures r.outcome == Ok || r.outcome == Invalid(QueryVariableMessage)
  {
    var need := hasDatasets && Member(c, "agent_mode", "enabled") == Some(JBool(true));
    if need && env.mode == Completion && Falsy(c, "dataset_query_variable") then Step(c, Invalid(QueryVariableMessage))
    else Step(c, Ok)
  }

  /** `validate_and_set_defaults`: the legacy extraction, then the `dataset_configs` part. */
  function ValidateSpec(env: Env, c: Dict): (r: Step)
    ensures forall k :: k != "agent_mode" && k != "dataset_configs" ==> Get(r.config, k) == Get(c, k)
  {
    var s := LegacySpec(env, c);
    if !s.outcome.Ok? then s else DatasetConfigsSpec(env, s.config)
  }

  /**
   * The `dataset_configs` defaults, then its checks. A truthy non-dict value has no `get`
   * (AttributeError).
   */
  function DatasetConfigsSpec(env: Env, c: Dict): (r: Step)
    ensures forall k :: k != "dataset_configs" ==> Get(r.config, k) == Get(c, k)
  {
    var c1 := SetDefault(c, "dataset_configs", DefaultDatasetConfigs);
    if !IsObjectAt(c1, "dataset_configs") then Step(c1, Crashed(AttributeError))
    else RetrievalSpec(env, SetDefaultIn(c1, "dataset_configs", "datasets", DefaultDatasets))
  }

  /**
   * The retrieval model checks: a dict without `retrieval_model`, or a `multiple` one
   * without `reranking_model`, raises KeyError.
   */
  function RetrievalSpec(env: Env, c: Dict): (r: Step)
    requires IsObjectAt(c, "dataset_configs")
    ensures r.config == c
  {
    match Member(c, "dataset_configs", "retrieval_model")
    case None => Step(c, Crashed(KeyError))
    case Some(rm) =>
      if rm != JStr("multiple") then QueryCheck(env, c)
      else
        match Member(c, "dataset_configs", "reranking_model")
        case None => Step(c, Crashed(KeyError))
        case Some(rr) =>
          if !Truthy(rr) then Step(c, Invalid(RerankingUnsetMessage))
          else if !rr.JObj? then Step(c, Invalid(RerankingTypeMessage))
          else QueryCheck(env, c)
  }

  /** The final check: with datasets configured, a completion app needs a query variable. */
  function QueryCheck(env: Env, c: Dict): (r: Step)
    requires IsObjectAt(c, "dataset_configs")
    ensures r.config == c
    ensures r.outcome == Ok || r.outcome == Invalid(QueryVariableMessage)
  {
    var need := !Falsy(c, "dataset_configs") && !Falsy(Inner(c, "dataset_configs"), "datasets");
    if need && env.mode == Completion && Falsy(c, "dataset_query_variable") then Step(c, Invalid(QueryVariableMessage))
    else Step(c, Ok)
  }
}
