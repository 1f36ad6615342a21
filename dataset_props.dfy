/** What `DatasetValidator` promises, proved about the functions of `DatasetSpec`. */
module DatasetProps {
  import opened Common
  import opened Json
  import opened DatasetSpec

  // ---------------------------------------------------------------------------------------
  // The tools loop

  /** A dataset tool passes exactly when its `id` names a dataset of the tenant. */
  lemma DatasetToolAccepted(env: Env, tool: Json, item: Dict)
    requires tool.JObj? && |tool.d.keys| > 0 && tool.d.keys[0] == "dataset"
    requires Get(tool.d, "dataset") == Some(JObj(item))
    ensures var s := ToolStep(env, tool);
      s.outcome.Ok? <==>
        IsBool(Get(SetDefault(item, "enabled", JBool(false)), "enabled")) &&
        (exists id :: Get(item, "id") == Some(JStr(id)) && env.isUuid(id) &&
                      IsDatasetExists(env.getDataset, env.tenantId, id))
  {
  }

  /** A missing or falsy `enabled` of a dataset tool is written back as `False`. */
  lemma DatasetToolEnabledDefault(env: Env, tool: Json, item: Dict)
    requires tool.JObj? && |tool.d.keys| > 0 && tool.d.keys[0] == "dataset"
    requires Get(tool.d, "dataset") == Some(JObj(item))
    ensures var s := ToolStep(env, tool);
      s.tool.JObj? && s.tool.d.keys == tool.d.keys && IsObjectAt(s.tool.d, "dataset") &&
      (forall k :: k != "dataset" ==> Get(s.tool.d, k) == Get(tool.d, k)) &&
      (forall k :: k != "enabled" ==> Member(s.tool.d, "dataset", k) == Get(item, k)) &&
      Member(s.tool.d, "dataset", "enabled") ==
        (if Falsy(item, "enabled") then Some(JBool(false)) else Get(item, "enabled"))
  {
  }

  /** Each way a dataset tool is rejected, with its message, in the order they are checked. */
  lemma DatasetToolRejected(env: Env, tool: Json, item: Dict)
    requires tool.JObj? && |tool.d.keys| > 0 && tool.d.keys[0] == "dataset"
    requires Get(tool.d, "dataset") == Some(JObj(item))
    ensures var s := ToolStep(env, tool);
      var enabled := Get(SetDefault(item, "enabled", JBool(false)), "enabled");
      s.isDataset &&
      (!IsBool(enabled) ==> s.outcome == Invalid(ToolEnabledTypeMessage)) &&
      (IsBool(enabled) && Get(item, "id").None? ==> s.outcome == Invalid(IdRequiredMessage)) &&
      (forall id :: IsBool(enabled) && Get(item, "id") == Some(JStr(id)) && !env.isUuid(id) ==>
                    s.outcome == Invalid(IdUuidMessage)) &&
      (forall id :: IsBool(enabled) && Get(item, "id") == Some(JStr(id)) && env.isUuid(id) &&
                    !IsDatasetExists(env.getDataset, env.tenantId, id) ==>
                    s.outcome == Invalid(DatasetMissingMessage))
  {
  }

  /** Tools whose first key is not `dataset` are passed over untouched. */
  lemma OtherToolsUntouched(env: Env, tool: Json)
    requires tool.JObj? && |tool.d.keys| > 0 && tool.d.keys[0] != "dataset"
    ensures ToolStep(env, tool) == ToolOut(tool, Ok, false)
  {
  }

  /**
   * The loop from index `i` is the same as checking each remaining tool on its own: it
   * succeeds iff every one passes, writes each one's normalised form, and raises the
   * outcome of the first that fails.
   */
  lemma {:induction false} ToolsFromEachTool(env: Env, ts: seq<Json>, i: nat, has: bool)
    requires i <= |ts|
    decreases |ts| - i
    ensures var r := ToolsFrom(env, ts, i, has);
      (r.outcome.Ok? <==> forall j :: i <= j < |ts| ==> ToolStep(env, ts[j]).outcome.Ok?) &&
      (r.outcome.Ok? ==>
        (forall j :: i <= j < |ts| ==> r.tools[j] == ToolStep(env, ts[j]).tool) &&
        (r.hasDatasets <==> has || exists j :: i <= j < |ts| && ToolStep(env, ts[j]).isDataset)) &&
      (!r.outcome.Ok? ==>
        exists k :: i <= k < |ts| && r.outcome == ToolStep(env, ts[k]).outcome &&
                    forall j :: i <= j < k ==> ToolStep(env, ts[j]).outcome.Ok?)
  {
    if i < |ts| {
      var s := ToolStep(env, ts[i]);
      var ts1 := ts[i := s.tool];
      if s.outcome.Ok? {
        ToolsFromEachTool(env, ts1, i + 1, has || s.isDataset);
        var r := ToolsFrom(env, ts1, i + 1, has || s.isDataset);
        assert forall j :: i < j < |ts| ==> ts1[j] == ts[j];
        assert r.tools[i] == ts1[i] == s.tool;
        if !r.outcome.Ok? {
          var k :| i + 1 <= k < |ts| && r.outcome == ToolStep(env, ts1[k]).outcome &&
                   forall j :: i + 1 <= j < k ==> ToolStep(env, ts1[j]).outcome.Ok?;
          assert r.outcome == ToolStep(env, ts[k]).outcome;
        }
        if r.outcome.Ok? && s.isDataset {
          assert ToolStep(env, ts[i]).isDataset;
        }
      }
    }
  }

  /** A normalised tool is a fixed point of its own check. */
  lemma ToolStepIdempotent(env: Env, tool: Json)
    requires ToolStep(env, tool).outcome.Ok?
    ensures ToolStep(env, ToolStep(env, tool).tool) == ToolStep(env, tool)
  {
    if tool.JObj? && |tool.d.keys| > 0 && tool.d.keys[0] == "dataset" {
      var item := Get(tool.d, "dataset").value.d;
      var item1 := SetDefault(item, "enabled", JBool(false));
      SetDefaultStable(item1, "enabled", JBool(false));
      SetSet(tool.d, "dataset", JObj(item1), JObj(item1));
    }
  }

  lemma {:induction false} ToolsFromIdempotent(env: Env, ts: seq<Json>, i: nat, has: bool)
    requires i <= |ts| && ToolsFrom(env, ts, i, has).outcome.Ok?
    decreases |ts| - i
    ensures ToolsFrom(env, ToolsFrom(env, ts, i, has).tools, i, has) == ToolsFrom(env, ts, i, has)
  {
    if i < |ts| {
      var s := ToolStep(env, ts[i]);
      var ts1 := ts[i := s.tool];
      var r := ToolsFrom(env, ts1, i + 1, has || s.isDataset);
      ToolsFromIdempotent(env, ts1, i + 1, has || s.isDataset);
      assert r.tools[i] == s.tool;
      ToolStepIdempotent(env, ts[i]);
      assert r.tools[i := s.tool] == r.tools;
    }
  }

  /**
   * After the tools loop passes, the legacy check rejects exactly a completion app whose
   * enabled agent mode holds a dataset tool and which has no `dataset_query_variable`.
   */
  lemma LegacyQueryVariableRequired(env: Env, c: Dict)
    requires IsObjectAt(c, "agent_mode") && IsList(Member(c, "agent_mode", "tools"))
    requires IsRouter(Member(c, "agent_mode", "strategy"))
    requires ToolsFrom(env, Member(c, "agent_mode", "tools").value.items, 0, false).outcome.Ok?
    ensures StrategySpec(env, c).outcome.Ok? || StrategySpec(env, c).outcome == Invalid(QueryVariableMessage)
    ensures var ts := Member(c, "agent_mode", "tools").value.items;
      StrategySpec(env, c).outcome == Invalid(QueryVariableMessage) <==>
        (exists j :: 0 <= j < |ts| && ToolStep(env, ts[j]).isDataset) &&
        Member(c, "agent_mode", "enabled") == Some(JBool(true)) &&
        env.mode == Completion && Falsy(c, "dataset_query_variable")
  {
    var ts := Member(c, "agent_mode", "tools").value.items;
    ToolsFromEachTool(env, ts, 0, false);
  }

  // ---------------------------------------------------------------------------------------
  // Agent mode

  const NormalAgentMode: Json :=
    JObj(Dict(["enabled", "tools", "strategy"],
              map["enabled" := JBool(false), "tools" := JList([]), "strategy" := JStr(Router)]))

  /** No `agent_mode` (or a falsy one) becomes a disabled router with no tools, and passes. */
  lemma MissingAgentModeDefaults(env: Env, c: Dict)
    requires Falsy(c, "agent_mode")
    ensures LegacySpec(env, c) == Step(Set(c, "agent_mode", NormalAgentMode), Ok)
  {
    var c1 := Set(c, "agent_mode", DefaultAgentMode);
    assert IsObjectAt(c1, "agent_mode") && Inner(c1, "agent_mode") == DefaultAgentMode.d;
    assert SetDefaultIn(c1, "agent_mode", "enabled", JBool(false)) == c1 by {
      SetInSame(c1, "agent_mode", "enabled", JBool(false));
    }
    assert LegacySpec(env, c) == ToolsSpec(env, c1) by {
    }
    var c4 := SetIn(c1, "agent_mode", "strategy", JStr(Router));
    assert ToolsSpec(env, c1) == StrategySpec(env, c4) by {
      SetInSame(c1, "agent_mode", "tools", JList([]));
    }
    assert c4 == Set(c, "agent_mode", NormalAgentMode) by {
      assert Set(DefaultAgentMode.d, "strategy", JStr(Router)) == NormalAgentMode.d;
      SetSet(c, "agent_mode", DefaultAgentMode, NormalAgentMode);
    }
    assert StrategySpec(env, c4) == Step(c4, Ok) by {
      assert Member(c4, "agent_mode", "tools") == Some(JList([]));
      SetInSame(c4, "agent_mode", "tools", JList([]));
    }
  }

  /** A truthy `agent_mode` that is not a dict is rejected before anything is written. */
  lemma AgentModeMustBeObject(env: Env, c: Dict, v: Json)
    requires Get(c, "agent_mode") == Some(v) && Truthy(v) && !v.JObj?
    ensures LegacySpec(env, c) == Step(c, Invalid(AgentModeTypeMessage))
  {
  }

  /** A truthy `enabled` that is not a bool is rejected. */
  lemma EnabledMustBeBool(env: Env, c: Dict, v: Json)
    requires IsObjectAt(c, "agent_mode")
    requires Member(c, "agent_mode", "enabled") == Some(v) && Truthy(v) && !v.JBool?
    ensures LegacySpec(env, c) == Step(c, Invalid(EnabledTypeMessage))
  {
    assert SetDefault(c, "agent_mode", DefaultAgentMode) == c;
    assert SetDefaultIn(c, "agent_mode", "enabled", JBool(false)) == c;
  }

  /** A truthy `tools` that is not a list is rejected, after `enabled` got its default. */
  lemma ToolsMustBeList(env: Env, c: Dict, v: Json)
    requires IsObjectAt(c, "agent_mode")
    requires IsBool(Member(c, "agent_mode", "enabled")) || Falsy(Inner(c, "agent_mode"), "enabled")
    requires Member(c, "agent_mode", "tools") == Some(v) && Truthy(v) && !v.JList?
    ensures LegacySpec(env, c).outcome == Invalid(ToolsTypeMessage)
  {
    var c2 := SetDefaultIn(c, "agent_mode", "enabled", JBool(false));
    assert SetDefault(c, "agent_mode", DefaultAgentMode) == c;
    assert Member(c2, "agent_mode", "tools") == Some(v);
  }

  /**
   * The values a successful extraction leaves in a non-empty `agent_mode` dict: a falsy
   * `enabled` becomes `False`, a falsy `strategy` becomes `router`, and a falsy `tools` becomes
   * `[]`; truthy values are kept, except that a router strategy runs the tools loop over them.
   */
  lemma AgentModeFieldDefaults(env: Env, c: Dict)
    requires IsObjectAt(c, "agent_mode") && Inner(c, "agent_mode").entries != map[]
    requires LegacySpec(env, c).outcome.Ok?
    ensures var am := Inner(c, "agent_mode");
      var out := LegacySpec(env, c).config;
      IsObjectAt(out, "agent_mode") &&
      Member(out, "agent_mode", "enabled") ==
        (if Falsy(am, "enabled") then Some(JBool(false)) else Get(am, "enabled")) &&
      Member(out, "agent_mode", "strategy") ==
        (if Falsy(am, "strategy") then Some(JStr(Router)) else Get(am, "strategy"))
    ensures var am := Inner(c, "agent_mode");
      var out := LegacySpec(env, c).config;
      Falsy(am, "tools") ==> Member(out, "agent_mode", "tools") == Some(JList([]))
    ensures var am := Inner(c, "agent_mode");
      var out := LegacySpec(env, c).config;
      !Falsy(am, "tools") ==>
        IsList(Get(am, "tools")) &&
        Member(out, "agent_mode", "tools") ==
          Some(JList(if IsRouter(Member(out, "agent_mode", "strategy"))
                     then ToolsFrom(env, Get(am, "tools").value.items, 0, false).tools
                     else Get(am, "tools").value.items))
  {
    var am := Inner(c, "agent_mode");
    SetDefaultStable(c, "agent_mode", DefaultAgentMode);
    var c2 := SetDefaultIn(c, "agent_mode", "enabled", JBool(false));
    var c3 := SetDefaultIn(c2, "agent_mode", "tools", JList([]));
    var c4 := SetDefaultIn(c3, "agent_mode", "strategy", JStr(Router));
    assert LegacySpec(env, c) == StrategySpec(env, c4);
    assert Member(c4, "agent_mode", "enabled") == Member(c2, "agent_mode", "enabled");
    assert Member(c4, "agent_mode", "tools") == Member(c3, "agent_mode", "tools");
    assert Member(c3, "agent_mode", "tools") == if Falsy(am, "tools") then Some(JList([])) else Get(am, "tools");
    if IsRouter(Member(c4, "agent_mode", "strategy")) {
      var r := ToolsFrom(env, Member(c4, "agent_mode", "tools").value.items, 0, false);
      var c5 := SetIn(c4, "agent_mode", "tools", JList(r.tools));
      assert Member(c5, "agent_mode", "enabled") == Member(c4, "agent_mode", "enabled");
      assert Member(c5, "agent_mode", "strategy") == Member(c4, "agent_mode", "strategy");
      if Falsy(am, "tools") {
        assert r.tools == [];
      }
    }
  }

  /**
   * Under a strategy other than `router` and `react_router` the tools are never inspected: a
   * dict `agent_mode` whose `enabled` and `tools` pass their type checks passes, whatever its
   * tools hold, and its tools are kept (or defaulted to `[]`).
   */
  lemma NonRouterSkipsTools(env: Env, c: Dict)
    requires IsObjectAt(c, "agent_mode")
    requires var am := Inner(c, "agent_mode");
      (Falsy(am, "enabled") || IsBool(Get(am, "enabled"))) &&
      (Falsy(am, "tools") || IsList(Get(am, "tools"))) &&
      !Falsy(am, "strategy") && !IsRouter(Get(am, "strategy"))
    ensures var am := Inner(c, "agent_mode");
      var r := LegacySpec(env, c);
      r.outcome == Ok && IsObjectAt(r.config, "agent_mode") &&
      Member(r.config, "agent_mode", "tools") ==
        (if Falsy(am, "tools") then Some(JList([])) else Get(am, "tools"))
  {
    assert "strategy" in Inner(c, "agent_mode").entries;
    SetDefaultStable(c, "agent_mode", DefaultAgentMode);
    var c2 := SetDefaultIn(c, "agent_mode", "enabled", JBool(false));
    var c3 := SetDefaultIn(c2, "agent_mode", "tools", JList([]));
    var c4 := SetDefaultIn(c3, "agent_mode", "strategy", JStr(Router));
    assert Member(c3, "agent_mode", "strategy") == Member(c, "agent_mode", "strategy");
    assert Member(c4, "agent_mode", "tools") == Member(c3, "agent_mode", "tools");
  }

  /** After a successful extraction the agent mode is a dict with a bool, a list and a strategy. */
  lemma LegacyNormalises(env: Env, c: Dict)
    requires LegacySpec(env, c).outcome.Ok?
    ensures var out := LegacySpec(env, c).config;
      IsObjectAt(out, "agent_mode") && IsBool(Member(out, "agent_mode", "enabled")) &&
      IsList(Member(out, "agent_mode", "tools")) && Member(out, "agent_mode", "strategy").Some? &&
      Truthy(Member(out, "agent_mode", "strategy").value)
    ensures var out := LegacySpec(env, c).config;
      IsObjectAt(out, "agent_mode") && IsList(Member(out, "agent_mode", "tools")) &&
      LegacyPassed(env, out)
  {
    var c1 := SetDefault(c, "agent_mode", DefaultAgentMode);
    var c2 := SetDefaultIn(c1, "agent_mode", "enabled", JBool(false));
    var c3 := SetDefaultIn(c2, "agent_mode", "tools", JList([]));
    var c4 := SetDefaultIn(c3, "agent_mode", "strategy", JStr(Router));
    assert Member(c4, "agent_mode", "enabled") == Member(c2, "agent_mode", "enabled");
    assert Member(c4, "agent_mode", "tools") == Member(c3, "agent_mode", "tools");
    if IsRouter(Member(c4, "agent_mode", "strategy")) {
      var us := Member(c4, "agent_mode", "tools").value.items;
      var r := ToolsFrom(env, us, 0, false);
      var c5 := SetIn(c4, "agent_mode", "tools", JList(r.tools));
      assert Member(c5, "agent_mode", "enabled") == Member(c4, "agent_mode", "enabled");
      assert Member(c5, "agent_mode", "strategy") == Member(c4, "agent_mode", "strategy");
      assert Member(c5, "agent_mode", "tools").value.items == r.tools;
    }
  }

  /**
   * What the tools loop and the query check of a successful extraction leave behind: its tools
   * are the loop's output over some tool list, and the query check passes on what it found.
   */
  ghost predicate LegacyPassed(env: Env, out: Dict)
    requires IsObjectAt(out, "agent_mode") && IsList(Member(out, "agent_mode", "tools"))
  {
    var ts := Member(out, "agent_mode", "tools").value.items;
    if IsRouter(Member(out, "agent_mode", "strategy")) then
      exists us :: var r := ToolsFrom(env, us, 0, false);
        r.outcome.Ok? && r.tools == ts && LegacyQueryCheck(env, out, r.hasDatasets).outcome.Ok?
    else LegacyQueryCheck(env, out, false).outcome.Ok?
  }

  /** With every agent-mode default in place, the extraction is its tools loop and query check. */
  lemma LegacyOnNormalised(env: Env, d: Dict)
    requires IsObjectAt(d, "agent_mode") && IsBool(Member(d, "agent_mode", "enabled"))
    requires IsList(Member(d, "agent_mode", "tools")) && Member(d, "agent_mode", "strategy").Some?
    requires Truthy(Member(d, "agent_mode", "strategy").value)
    ensures LegacySpec(env, d) == StrategySpec(env, d)
  {
    SetDefaultStable(d, "agent_mode", DefaultAgentMode);
    SetDefaultInStable(d, "agent_mode", "enabled", JBool(false));
    var ts := Member(d, "agent_mode", "tools").value.items;
    assert |ts| == 0 ==> Member(d, "agent_mode", "tools").value == JList([]);
    SetDefaultInStable(d, "agent_mode", "tools", JList([]));
    SetDefaultInStable(d, "agent_mode", "strategy", JStr(Router));
  }

  /** A normalised agent mode passes the extraction again and is left as it is. */
  lemma LegacyFixedPoint(env: Env, c: Dict, d: Dict)
    requires LegacySpec(env, c).outcome.Ok?
    requires Get(d, "agent_mode") == Get(LegacySpec(env, c).config, "agent_mode")
    requires Get(d, "dataset_query_variable") == Get(c, "dataset_query_variable")
    ensures LegacySpec(env, d) == Step(d, Ok)
  {
    var out := LegacySpec(env, c).config;
    LegacyNormalises(env, c);
    assert IsObjectAt(d, "agent_mode") && Inner(d, "agent_mode") == Inner(out, "agent_mode");
    LegacyOnNormalised(env, d);
    PassedStrategyIsFixed(env, out, d);
  }

  /** The tools loop and the query check, over an agent mode that already passed them. */
  lemma PassedStrategyIsFixed(env: Env, out: Dict, d: Dict)
    requires IsObjectAt(out, "agent_mode") && IsList(Member(out, "agent_mode", "tools"))
    requires LegacyPassed(env, out)
    requires Get(d, "agent_mode") == Get(out, "agent_mode")
    requires Get(d, "dataset_query_variable") == Get(out, "dataset_query_variable")
    ensures IsObjectAt(d, "agent_mode") && IsList(Member(d, "agent_mode", "tools"))
    ensures StrategySpec(env, d) == Step(d, Ok)
  {
    var ts := Member(d, "agent_mode", "tools").value.items;
    if IsRouter(Member(d, "agent_mode", "strategy")) {
      var us :| var r := ToolsFrom(env, us, 0, false);
        r.outcome.Ok? && r.tools == ts && LegacyQueryCheck(env, out, r.hasDatasets).outcome.Ok?;
      ToolsFromIdempotent(env, us, 0, false);
      SetInSame(d, "agent_mode", "tools", JList(ts));
    }
  }

  // ---------------------------------------------------------------------------------------
  // dataset_configs

  /** The `dataset_configs` stage only writes `dataset_configs` defaults. */
  lemma DatasetConfigsFixedPoint(env: Env, c: Dict, d: Dict)
    requires DatasetConfigsSpec(env, c).outcome.Ok?
    requires Get(d, "dataset_configs") == Get(DatasetConfigsSpec(env, c).config, "dataset_configs")
    requires Get(d, "dataset_query_variable") == Get(c, "dataset_query_variable")
    ensures DatasetConfigsSpec(env, d) == Step(d, Ok)
  {
    var c2 := DatasetConfigsSpec(env, c).config;
    DatasetConfigsPassed(env, c);
    DatasetConfigsDefaultsStable(c2, d);
    StableDatasetConfigs(env, d);
    RetrievalDependsOnlyOnItsKeys(env, c2, d);
  }

  /** What a successful `dataset_configs` stage leaves behind. */
  lemma DatasetConfigsPassed(env: Env, c: Dict)
    requires DatasetConfigsSpec(env, c).outcome.Ok?
    ensures var out := DatasetConfigsSpec(env, c).config;
      IsObjectAt(out, "dataset_configs") && Member(out, "dataset_configs", "datasets").Some? &&
      Truthy(Member(out, "dataset_configs", "datasets").value) && RetrievalSpec(env, out).outcome.Ok?
  {
    var c1 := SetDefault(c, "dataset_configs", DefaultDatasetConfigs);
    assert IsObjectAt(c1, "dataset_configs");
    assert "strategy" in DefaultDatasets.d.entries;
  }

  /** With no default left to write, the stage is its retrieval checks. */
  lemma StableDatasetConfigs(env: Env, d: Dict)
    requires SetDefault(d, "dataset_configs", DefaultDatasetConfigs) == d
    requires IsObjectAt(d, "dataset_configs") && SetDefaultIn(d, "dataset_configs", "datasets", DefaultDatasets) == d
    ensures DatasetConfigsSpec(env, d) == RetrievalSpec(env, d)
  {
  }

  /** A `dataset_configs` already through its defaults gets none written again. */
  lemma DatasetConfigsDefaultsStable(c: Dict, d: Dict)
    requires IsObjectAt(c, "dataset_configs") && Member(c, "dataset_configs", "datasets").Some?
    requires Truthy(Member(c, "dataset_configs", "datasets").value)
    requires Get(d, "dataset_configs") == Get(c, "dataset_configs")
    ensures SetDefault(d, "dataset_configs", DefaultDatasetConfigs) == d
    ensures IsObjectAt(d, "dataset_configs") && SetDefaultIn(d, "dataset_configs", "datasets", DefaultDatasets) == d
  {
    assert IsObjectAt(d, "dataset_configs") && Inner(d, "dataset_configs") == Inner(c, "dataset_configs");
    SetDefaultStable(d, "dataset_configs", DefaultDatasetConfigs);
    SetDefaultInStable(d, "dataset_configs", "datasets", DefaultDatasets);
  }

  /** The retrieval checks read `dataset_configs` and `dataset_query_variable` only. */
  lemma RetrievalDependsOnlyOnItsKeys(env: Env, a: Dict, b: Dict)
    requires IsObjectAt(a, "dataset_configs")
    requires Get(a, "dataset_configs") == Get(b, "dataset_configs")
    requires Get(a, "dataset_query_variable") == Get(b, "dataset_query_variable")
    ensures IsObjectAt(b, "dataset_configs") && RetrievalSpec(env, b).outcome == RetrievalSpec(env, a).outcome
  {
  }

  /**
   * `validate_and_set_defaults` is idempotent: its own successful output passes again and
   * is not changed, since every default is only written over a missing or falsy value.
   */
  lemma ValidateIdempotent(env: Env, c: Dict)
    requires ValidateSpec(env, c).outcome.Ok?
    ensures ValidateSpec(env, ValidateSpec(env, c).config) == Step(ValidateSpec(env, c).config, Ok)
  {
    var s := LegacySpec(env, c);
    var out := ValidateSpec(env, c).config;
    assert out == DatasetConfigsSpec(env, s.config).config;
    LegacyFixedPoint(env, c, out);
    DatasetConfigsFixedPoint(env, s.config, out);
  }

  /** In a completion app the `dataset_configs` stage needs a truthy `dataset_query_variable`. */
  lemma {:induction false} DatasetConfigsNeedQueryVariable(env: Env, c: Dict)
    requires env.mode == Completion && DatasetConfigsSpec(env, c).outcome.Ok?
    ensures !Falsy(c, "dataset_query_variable")
  {
    var c1 := SetDefault(c, "dataset_configs", DefaultDatasetConfigs);
    assert IsObjectAt(c1, "dataset_configs");
    var c2 := SetDefaultIn(c1, "dataset_configs", "datasets", DefaultDatasets);
    assert "strategy" in DefaultDatasets.d.entries;
    assert !Falsy(c2, "dataset_configs");
  }

  /**
   * In a completion app, success needs a truthy `dataset_query_variable`, whatever the agent
   * mode: by the final check `datasets` is always set.
   */
  lemma CompletionNeedsQueryVariable(env: Env, c: Dict)
    requires env.mode == Completion && ValidateSpec(env, c).outcome.Ok?
    ensures !Falsy(c, "dataset_query_variable")
  {
    var s := LegacySpec(env, c);
    DatasetConfigsNeedQueryVariable(env, s.config);
  }

  /** Once past its defaults, `dataset_configs` is a dict whose `datasets` is truthy. */
  lemma DatasetsAlwaysSet(env: Env, c: Dict)
    requires DatasetConfigsSpec(env, c).outcome != Crashed(AttributeError)
    ensures var out := DatasetConfigsSpec(env, c).config;
      IsObjectAt(out, "dataset_configs") && !Falsy(Inner(out, "dataset_configs"), "datasets")
  {
    var c1 := SetDefault(c, "dataset_configs", DefaultDatasetConfigs);
    assert IsObjectAt(c1, "dataset_configs");
    var c2 := SetDefaultIn(c1, "dataset_configs", "datasets", DefaultDatasets);
    assert DatasetConfigsSpec(env, c).config == c2;
    assert "strategy" in DefaultDatasets.d.entries;
  }

  /** A missing or falsy `dataset_configs` becomes single retrieval over the router default. */
  lemma MissingDatasetConfigsDefaults(env: Env, c: Dict)
    requires Falsy(c, "dataset_configs")
    ensures var r := DatasetConfigsSpec(env, c);
      IsObjectAt(r.config, "dataset_configs") &&
      Member(r.config, "dataset_configs", "retrieval_model") == Some(JStr("single")) &&
      Member(r.config, "dataset_configs", "datasets") == Some(DefaultDatasets) &&
      (r.outcome.Ok? <==> !(env.mode == Completion && Falsy(c, "dataset_query_variable")))
  {
    var c1 := Set(c, "dataset_configs", DefaultDatasetConfigs);
    assert SetDefault(c, "dataset_configs", DefaultDatasetConfigs) == c1;
    assert Inner(c1, "dataset_configs") == DefaultDatasetConfigs.d;
    var c2 := SetIn(c1, "dataset_configs", "datasets", DefaultDatasets);
    assert SetDefaultIn(c1, "dataset_configs", "datasets", DefaultDatasets) == c2;
    assert Member(c2, "dataset_configs", "retrieval_model") == Some(JStr("single"));
    assert "strategy" in DefaultDatasets.d.entries;
    assert !Falsy(c2, "dataset_configs");
  }

  /**
   * With `retrieval_model` = `multiple`, a missing `reranking_model` raises KeyError, a falsy
   * one and a non-dict one are rejected; a missing `retrieval_model` raises KeyError too.
   */
  lemma RerankingChecks(env: Env, c: Dict, d: Dict)
    requires LegacySpec(env, c).outcome.Ok? && Get(c, "dataset_configs") == Some(JObj(d)) && d.entries != map[]
    ensures Get(d, "retrieval_model").None? ==> ValidateSpec(env, c).outcome == Crashed(KeyError)
    ensures var multiple, rr := Get(d, "retrieval_model") == Some(JStr("multiple")), Get(d, "reranking_model");
      (multiple && rr.None? ==> ValidateSpec(env, c).outcome == Crashed(KeyError)) &&
      (multiple && rr.Some? && !Truthy(rr.value) ==> ValidateSpec(env, c).outcome == Invalid(RerankingUnsetMessage)) &&
      (multiple && rr.Some? && Truthy(rr.value) && !rr.value.JObj? ==> ValidateSpec(env, c).outcome == Invalid(RerankingTypeMessage))
  {
    var s := LegacySpec(env, c);
    assert SetDefault(s.config, "dataset_configs", DefaultDatasetConfigs) == s.config;
    var c2 := SetDefaultIn(s.config, "dataset_configs", "datasets", DefaultDatasets);
    assert Member(c2, "dataset_configs", "retrieval_model") == Get(d, "retrieval_model");
    assert Member(c2, "dataset_configs", "reranking_model") == Get(d, "reranking_model");
  }

  /** A successful `multiple` retrieval always has a non-empty dict as its reranking model. */
  lemma MultipleHasRerankingModel(env: Env, c: Dict)
    requires DatasetConfigsSpec(env, c).outcome.Ok?
    requires var out := DatasetConfigsSpec(env, c).config;
      IsObjectAt(out, "dataset_configs") && Member(out, "dataset_configs", "retrieval_model") == Some(JStr("multiple"))
    ensures var out := DatasetConfigsSpec(env, c).config;
      exists rr :: Member(out, "dataset_configs", "reranking_model") == Some(JObj(rr)) && rr.entries != map[]
  {
    var c1 := SetDefault(c, "dataset_configs", DefaultDatasetConfigs);
    assert IsObjectAt(c1, "dataset_configs");
    var c2 := SetDefaultIn(c1, "dataset_configs", "datasets", DefaultDatasets);
    assert DatasetConfigsSpec(env, c).config == c2;
    var rr := Member(c2, "dataset_configs", "reranking_model").value;
    assert rr == JObj(rr.d);
  }

  /**
   * The `isinstance(config["dataset_configs"], dict)` checks never report: a truthy value
   * that is not a dict has already failed on its `get` with AttributeError.
   */
  lemma NonObjectDatasetConfigsCrashes(env: Env, c: Dict, v: Json)
    requires Get(c, "dataset_configs") == Some(v) && Truthy(v) && !v.JObj?
    ensures DatasetConfigsSpec(env, c) == Step(c, Crashed(AttributeError))
  {
    assert SetDefault(c, "dataset_configs", DefaultDatasetConfigs) == c;
  }
}
