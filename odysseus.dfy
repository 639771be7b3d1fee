/** The embodied explorer (`AgentOdysseus`): the simulation environments `start` sets up,
    the exploration loop with its discoveries and world-model updates, the insights drawn
    from one exploration, the physics model of an environment design, and the dispatch to
    its external tools. */
module EmbodiedExplorer {
  import opened Wrappers
  import opened Domain
  import opened EventBus
  import opened Repositories
  import opened BaseAgents
  import Strings

  // Simulation environments

  /** One entry of `_simulation_environments`: its type, its status, the time its set-up
      recorded (`initialized_at`), and its other settings (engine, fidelity, platform,
      features). */
  datatype Environment = Environment(kind: string, status: string, initializedAt: Option<Time>, settings: Dict)

  const PhysicsSim := Environment("physics_simulation", "initializing", None,
    map["engine" := Str("bullet_physics"), "fidelity" := Str("high"),
        "features" := TextList(["rigid_body", "soft_body", "fluid_dynamics"])])
  const VirtualWorld := Environment("3d_environment", "initializing", None,
    map["engine" := Str("unity_ml_agents"),
        "features" := TextList(["navigation", "object_interaction", "multi_agent"])])
  const LanguageEnvironment := Environment("linguistic_interaction", "initializing", None,
    map["features" := TextList(["dialogue", "text_understanding", "code_generation"])])
  const RoboticsSim := Environment("robotic_embodiment", "planned", None,
    map["platform" := Str("gazebo_ros"),
        "features" := TextList(["manipulation", "locomotion", "sensor_integration"])])

  /** The names of the environment table, in its order. */
  const EnvironmentNames: seq<string> := ["physics_sim", "virtual_world", "language_environment", "robotics_sim"]

  /** The table `_initialize_simulation_environments` writes. */
  const InitialEnvironments: map<string, Environment> :=
    map["physics_sim" := PhysicsSim, "virtual_world" := VirtualWorld,
        "language_environment" := LanguageEnvironment, "robotics_sim" := RoboticsSim]

  /** `_setup_simulation_environment`: the environment becomes active at time `t`. */
  function SetUp(e: Environment, t: Time): (r: Environment)
    ensures r.status == "active" && r.initializedAt == Some(t)
    ensures r.kind == e.kind && r.settings == e.settings
  {
    e.(status := "active", initializedAt := Some(t))
  }

  /** The table after `start`, where `clock(j)` is the time the set-up of the `j`-th
      environment reads. */
  function Started(clock: nat -> Time): (envs: map<string, Environment>)
    ensures envs.Keys == InitialEnvironments.Keys
    ensures envs["robotics_sim"] == InitialEnvironments["robotics_sim"]
  {
    map["physics_sim" := SetUp(PhysicsSim, clock(0)), "virtual_world" := SetUp(VirtualWorld, clock(1)),
        "language_environment" := SetUp(LanguageEnvironment, clock(2)), "robotics_sim" := RoboticsSim]
  }

  /** After `start`, the three environments that were initialising are active, and the
      planned robotics simulation is left as it was. */
  lemma StartedStatuses(clock: nat -> Time)
    ensures Started(clock).Keys == InitialEnvironments.Keys
    ensures var envs := Started(clock);
      envs["physics_sim"].status == "active" && envs["virtual_world"].status == "active"
      && envs["language_environment"].status == "active"
      && envs["robotics_sim"] == RoboticsSim && RoboticsSim.status == "planned"
    ensures forall k | k in InitialEnvironments :: InitialEnvironments[k].status == "initializing" || k == "robotics_sim"
  {
  }

  /** The table after the set-up loop of `_initialize_simulation_environments` has
      visited its first `i` environments. */
  function SetUpFirst(clock: nat -> Time, i: nat): (envs: map<string, Environment>)
    requires i <= |EnvironmentNames|
    ensures envs.Keys == InitialEnvironments.Keys
  {
    if i == 0 then InitialEnvironments
    else
      var prev := SetUpFirst(clock, i - 1);
      var name := EnvironmentNames[i - 1];
      if prev[name].status == "initializing" then prev[name := SetUp(prev[name], clock(i - 1))] else prev
  }

  /** The loop visits every environment once, so it ends with the started table. */
  lemma SetUpAll(clock: nat -> Time)
    ensures SetUpFirst(clock, |EnvironmentNames|) == Started(clock)
  {
    assert SetUpFirst(clock, 1) == InitialEnvironments["physics_sim" := SetUp(PhysicsSim, clock(0))];
    assert SetUpFirst(clock, 2) == SetUpFirst(clock, 1)["virtual_world" := SetUp(VirtualWorld, clock(1))];
    assert SetUpFirst(clock, 3) == SetUpFirst(clock, 2)["language_environment" := SetUp(LanguageEnvironment, clock(2))];
    assert SetUpFirst(clock, 4) == SetUpFirst(clock, 3);
  }

  // External tools

  const ScientificDatabases: Dict :=
    map["type" := Str("database_interface"), "endpoints" := TextList(["pubmed", "arxiv", "google_scholar"]),
        "capabilities" := TextList(["search", "retrieve", "analyze"]), "status" := Str("active")]
  const CodeExecution: Dict :=
    map["type" := Str("code_runner"), "languages" := TextList(["python", "javascript", "bash"]),
        "sandbox" := Str("docker_container"), "status" := Str("active")]
  const WebApis: Dict :=
    map["type" := Str("api_interface"), "services" := TextList(["rest_apis", "graphql", "websockets"]),
        "authentication" := Str("oauth2"), "status" := Str("active")]
  const DataAnalysisTool: Dict :=
    map["type" := Str("analysis_toolkit"), "tools" := TextList(["pandas", "numpy", "scipy", "matplotlib"]),
        "capabilities" := TextList(["statistics", "visualization", "ml"]), "status" := Str("active")]

  /** The table `_initialize_external_tools` writes. */
  const ToolTable: map<string, Dict> :=
    map["scientific_databases" := ScientificDatabases, "code_execution" := CodeExecution,
        "web_apis" := WebApis, "data_analysis" := DataAnalysisTool]

  /** The canned papers `_use_scientific_database` returns. */
  const SamplePapers: Value :=
    List([Obj(map["title" := Str("Sample Paper 1"), "abstract" := Str("Sample abstract"), "relevance" := Real(0.9)]),
          Obj(map["title" := Str("Sample Paper 2"), "abstract" := Str("Another abstract"), "relevance" := Real(0.7)])])

  /** The canned results `_analyze_data` returns. */
  const AnalysisResults: Value :=
    Obj(map["summary" := Str("Data analysis completed"), "insights" := TextList(["Pattern 1", "Pattern 2"]),
            "visualizations" := TextList(["plot1.png", "plot2.png"])])

  /** `_use_scientific_database`. */
  function DatabaseQuery(config: Dict): (d: Dict)
    ensures "tool" in d && d["tool"] == Str("scientific_databases") && "status" in d && d["status"] == Str("success") && "error" !in d
  {
    map["tool" := Str("scientific_databases"), "query" := Get(config, "query", Str("")),
        "database" := Get(config, "database", Str("arxiv")), "results" := SamplePapers,
        "status" := Str("success")]
  }

  /** `_execute_code`. */
  function CodeRun(config: Dict): (d: Dict)
    ensures "tool" in d && d["tool"] == Str("code_execution") && "status" in d && d["status"] == Str("success") && "error" !in d
  {
    map["tool" := Str("code_execution"), "code" := Get(config, "code", Str("")),
        "language" := Get(config, "language", Str("python")), "output" := Str("Code execution simulated"),
        "status" := Str("success")]
  }

  /** `_call_web_api`. */
  function ApiCall(config: Dict): (d: Dict)
    ensures "tool" in d && d["tool"] == Str("web_apis") && "status" in d && d["status"] == Str("success") && "error" !in d
  {
    map["tool" := Str("web_apis"), "endpoint" := Get(config, "endpoint", Str("")),
        "method" := Get(config, "method", Str("GET")),
        "response" := Obj(map["data" := Str("API response simulated")]), "status" := Str("success")]
  }

  /** `_analyze_data` (the `data` entry is read but unused). */
  function DataAnalysis(config: Dict): (d: Dict)
    ensures "tool" in d && d["tool"] == Str("data_analysis") && "status" in d && d["status"] == Str("success") && "error" !in d
  {
    map["tool" := Str("data_analysis"), "analysis_type" := Get(config, "analysis_type", Str("descriptive")),
        "results" := AnalysisResults, "status" := Str("success")]
  }

  /** The name dispatch of `use_external_tool`: one of the four tool handlers, or none. */
  function ToolOutput(name: string, config: Dict): (r: Option<Dict>)
    ensures r.Some? <==> name in ToolTable
    ensures r.Some? ==> "tool" in r.value && r.value["tool"] == Str(name)
                        && "status" in r.value && r.value["status"] == Str("success") && "error" !in r.value
  {
    if name == "scientific_databases" then Some(DatabaseQuery(config))
    else if name == "code_execution" then Some(CodeRun(config))
    else if name == "web_apis" then Some(ApiCall(config))
    else if name == "data_analysis" then Some(DataAnalysis(config))
    else None
  }

  // One exploration step

  /** The action a strategy takes at every step. */
  datatype Action = RandomAction | CuriosityAction | SystematicAction {
    function AsValue(): Value {
      match this
      case RandomAction => Obj(map["type" := Str("random"), "values" := List([Real(0.1), Real(0.2), Real(0.0)])])
      case CuriosityAction => Obj(map["type" := Str("curiosity"), "target" := Str("novel_region")])
      case SystematicAction => Obj(map["type" := Str("systematic"), "pattern" := Str("grid_search")])
    }
  }

  /** The action `_execute_exploration_step` takes for a strategy: "random" and
      "curiosity_driven" have their own, anything else searches systematically. */
  function ActionFor(strategy: Value): (a: Action)
    ensures a == RandomAction <==> strategy == Str("random")
    ensures a == CuriosityAction <==> strategy == Str("curiosity_driven")
  {
    if strategy == Str("random") then RandomAction
    else if strategy == Str("curiosity_driven") then CuriosityAction
    else SystematicAction
  }

  /** The observation of step `step`, taken at `time`; its position is
      `[step * 0.1, 0.0, 0.0]`. */
  datatype Observation = Observation(step: nat, time: Time) {
    function Visual(): string {
      "visual_observation_step_" + Strings.NatText(step)
    }

    function Position(): Value {
      List([Real(step as real / 10.0), Real(0.0), Real(0.0)])
    }

    function AsValue(): Value {
      Obj(map["visual" := Str(Visual()), "position" := Position(), "timestamp" := Stamp(time)])
    }

    /** The `spatial_update` `_update_world_model_from_step` builds from the observation. */
    function SpatialUpdate(): Value {
      Obj(map["type" := Str("spatial_update"), "position" := Position(), "features" := Str(Visual()),
              "timestamp" := Stamp(time)])
    }
  }

  /** The digit character of `d < 10`. */
  function Digit(d: nat): (c: char)
    requires d < 10
    ensures c as int == '0' as int + d
  {
    ('0' as int + d) as char
  }

  /** The key `f"{x:.1f}_{y:.1f}_{z:.1f}"` of the position of step `step`. */
  function PosKey(step: nat): (key: string)
    ensures |key| > 8 && key[|key| - 8..] == "_0.0_0.0"
  {
    Strings.NatText(step / 10) + "." + [Digit(step % 10)] + "_0.0_0.0"
  }

  /** Different steps store their spatial updates under different keys. */
  lemma PosKeyInjective(s: nat, t: nat)
    requires PosKey(s) == PosKey(t)
    ensures s == t
  {
    var a, b := Strings.NatText(s / 10), Strings.NatText(t / 10);
    var k := PosKey(s);
    assert |k| == |a| + 10 && |PosKey(t)| == |b| + 10;
    assert k[..|a|] == a;
    assert PosKey(t)[..|b|] == b;
    Strings.NatTextInjective(s / 10, t / 10);
    assert k[|a| + 1] == Digit(s % 10) && PosKey(t)[|b| + 1] == Digit(t % 10);
  }

  /** What `_analyze_step_for_discoveries` finds at a step. */
  datatype Discovery =
    | SpatialStructure(step: nat, evidence: Observation)
    | CausalRelationship(step: nat, cause: Action, effect: Observation)
  {
    function AsValue(): Value {
      match this
      case SpatialStructure(s, o) =>
        Obj(map["type" := Str("spatial_structure"),
                "description" := Str("Discovered spatial relationship at step " + Strings.NatText(s)),
                "confidence" := Real(0.8), "evidence" := o.AsValue()])
      case CausalRelationship(s, a, o) =>
        Obj(map["type" := Str("causal_relationship"),
                "description" := Str("Identified causal pattern at step " + Strings.NatText(s)),
                "confidence" := Real(0.7), "cause" := a.AsValue(), "effect" := o.AsValue()])
    }
  }

  function CountSpatial(ds: seq<Discovery>): nat {
    if ds == [] then 0 else CountSpatial(ds[..|ds| - 1]) + (if ds[|ds| - 1].SpatialStructure? then 1 else 0)
  }

  function CountCausal(ds: seq<Discovery>): nat {
    if ds == [] then 0 else CountCausal(ds[..|ds| - 1]) + (if ds[|ds| - 1].CausalRelationship? then 1 else 0)
  }

  lemma {:induction false} CountsAppend(xs: seq<Discovery>, ys: seq<Discovery>)
    ensures CountSpatial(xs + ys) == CountSpatial(xs) + CountSpatial(ys)
    ensures CountCausal(xs + ys) == CountCausal(xs) + CountCausal(ys)
    decreases |ys|
  {
    if ys != [] {
      var ys' := ys[..|ys| - 1];
      var zs := xs + ys;
      assert zs[..|zs| - 1] == xs + ys';
      assert zs[|zs| - 1] == ys[|ys| - 1];
      CountsAppend(xs, ys');
      assert CountSpatial(zs) == CountSpatial(xs + ys') + (if ys[|ys| - 1].SpatialStructure? then 1 else 0);
      assert CountCausal(zs) == CountCausal(xs + ys') + (if ys[|ys| - 1].CausalRelationship? then 1 else 0);
    } else {
      assert xs + ys == xs;
    }
  }

  /** Every discovery is spatial or causal. */
  lemma {:induction false} CountsCover(ds: seq<Discovery>)
    ensures CountSpatial(ds) + CountCausal(ds) == |ds|
  {
    if ds != [] {
      CountsCover(ds[..|ds| - 1]);
    }
  }

  /** `_analyze_step_for_discoveries`: a spatial structure at every fiftieth step, then a
      causal relationship at every seventy-fifth, both about this step. */
  function StepDiscoveries(s: nat, a: Action, o: Observation): (ds: seq<Discovery>)
    ensures |ds| <= 2
  {
    (if SpatialStep(s) then [SpatialStructure(s, o)] else [])
    + (if CausalStep(s) then [CausalRelationship(s, a, o)] else [])
  }

  /** The steps that look for a spatial structure. */
  predicate SpatialStep(s: nat) {
    s % 50 == 0
  }

  /** The steps that look for a causal relationship. */
  predicate CausalStep(s: nat) {
    s % 75 == 0
  }

  /** A step makes at most one discovery of each kind: a spatial one at a multiple of 50,
      a causal one at a multiple of 75. */
  lemma StepDiscoveryCounts(s: nat, a: Action, o: Observation)
    ensures CountSpatial(StepDiscoveries(s, a, o)) == (if s % 50 == 0 then 1 else 0)
    ensures CountCausal(StepDiscoveries(s, a, o)) == (if s % 75 == 0 then 1 else 0)
  {
    var spatial := if SpatialStep(s) then [SpatialStructure(s, o)] else [];
    var causal := if CausalStep(s) then [CausalRelationship(s, a, o)] else [];
    CountsAppend(spatial, causal);
    assert CountSpatial(spatial) == |spatial| && CountCausal(causal) == |causal| by {
      if spatial != [] { assert spatial[..0] == []; }
      if causal != [] { assert causal[..0] == []; }
    }
    assert CountCausal(spatial) == 0 && CountSpatial(causal) == 0 by {
      if spatial != [] { assert spatial[..0] == []; }
      if causal != [] { assert causal[..0] == []; }
    }
  }

  /** The discoveries of step `s` are about step `s`: a spatial structure exactly when `s`
      is a multiple of 50, a causal relationship exactly when it is a multiple of 75. */
  lemma StepDiscoveriesAt(s: nat, a: Action, o: Observation)
    ensures var ds := StepDiscoveries(s, a, o);
      (forall x | x in ds :: x.step == s)
      && (SpatialStructure(s, o) in ds <==> s % 50 == 0) && (CausalRelationship(s, a, o) in ds <==> s % 75 == 0)
  {
  }

  // The exploration loop

  /** `exploration_data`: the environment, the strategy, and what each step produced (a
      world-model update is the spatial view of its step's observation). */
  datatype Exploration = Exploration(environment: string, strategy: Value, stepsCompleted: nat,
                                     observations: seq<Observation>, actions: seq<Action>,
                                     discoveries: seq<Discovery>, updates: seq<Observation>)
  {
    function AsValue(): Value {
      Obj(map["environment" := Str(environment), "strategy" := strategy, "steps_completed" := Int(stepsCompleted),
              "observations" := List(seq(|observations|, i requires 0 <= i < |observations| => observations[i].AsValue())),
              "actions" := List(seq(|actions|, i requires 0 <= i < |actions| => actions[i].AsValue())),
              "discoveries" := List(seq(|discoveries|, i requires 0 <= i < |discoveries| => discoveries[i].AsValue())),
              "world_model_updates" := List(seq(|updates|, i requires 0 <= i < |updates| => updates[i].SpatialUpdate()))])
    }
  }

  /** The observations of the first `k` steps, where `clock(s)` is the time step `s`
      reads. */
  function Observations(k: nat, clock: nat -> Time): (os: seq<Observation>)
    ensures |os| == k
  {
    seq(k, s requires 0 <= s < k => Observation(s, clock(s)))
  }

  /** The discoveries of the first `k` steps, each step taking action `a`. */
  function Discoveries(k: nat, a: Action, clock: nat -> Time): seq<Discovery> {
    Concat(k, StepFindings(a, clock))
  }

  /** What each step discovers, as a function of the step. */
  function StepFindings(a: Action, clock: nat -> Time): nat -> seq<Discovery> {
    (s: nat) => StepDiscoveries(s, a, Observation(s, clock(s)))
  }

  /** The findings of steps `0 .. k - 1`, in step order. */
  function Concat(k: nat, f: nat -> seq<Discovery>): seq<Discovery> {
    if k == 0 then [] else Concat(k - 1, f) + f(k - 1)
  }

  /** Each step's findings are about that step. */
  ghost predicate AboutTheirStep(f: nat -> seq<Discovery>) {
    forall s: nat, x | x in f(s) :: x.step == s
  }

  /** How many of the steps `0 .. k - 1` satisfy `hit`. */
  function CountHits(k: nat, hit: nat -> bool): nat {
    if k == 0 then 0 else CountHits(k - 1, hit) + (if hit(k - 1) then 1 else 0)
  }

  /** The exploration data after `k` steps of `explore_environment`: every step takes the
      strategy's action, and its world-model update is its observation. */
  function Explored(env: string, strategy: Value, k: nat, clock: nat -> Time): (d: Exploration)
    ensures d.environment == env && d.strategy == strategy && d.stepsCompleted == k
    ensures |d.observations| == k && |d.actions| == k && |d.updates| == k
  {
    var a := ActionFor(strategy);
    Exploration(env, strategy, k, Observations(k, clock), seq(k, _ => a), Discoveries(k, a, clock), Observations(k, clock))
  }

  /** One more step extends each list of the exploration data by that step's entries. */
  lemma ExploredSnoc(env: string, strategy: Value, k: nat, clock: nat -> Time)
    ensures var d := Explored(env, strategy, k, clock);
      var o := Observation(k, clock(k));
      var a := ActionFor(strategy);
      Explored(env, strategy, k + 1, clock)
      == d.(observations := d.observations + [o], actions := d.actions + [a], stepsCompleted := k + 1,
            discoveries := d.discoveries + StepDiscoveries(k, a, o), updates := d.updates + [o])
  {
    var a := ActionFor(strategy);
    assert Observations(k + 1, clock) == Observations(k, clock) + [Observation(k, clock(k))];
    assert seq(k + 1, _ => a) == seq(k, _ => a) + [a];
  }

  /** A `k`-step exploration makes one spatial discovery per fifty steps and one causal
      discovery per seventy-five, counting step 0, and nothing else. */
  lemma DiscoveryCounts(k: nat, a: Action, clock: nat -> Time)
    ensures var ds := Discoveries(k, a, clock);
      CountSpatial(ds) == (k + 49) / 50 && CountCausal(ds) == (k + 74) / 75
      && |ds| == (k + 49) / 50 + (k + 74) / 75
  {
    var f := StepFindings(a, clock);
    forall s: nat
      ensures CountSpatial(f(s)) == (if SpatialStep(s) then 1 else 0)
      ensures CountCausal(f(s)) == (if CausalStep(s) then 1 else 0)
    {
      StepDiscoveryCounts(s, a, Observation(s, clock(s)));
    }
    ConcatSpatial(k, f, SpatialStep);
    ConcatCausal(k, f, CausalStep);
    SpatialHits(k);
    CausalHits(k);
    CountsCover(Discoveries(k, a, clock));
  }

  /** When step `s` finds a spatial structure exactly when `hit(s)`, the first `k` steps find
      as many as there are hits among them. */
  lemma {:induction false} ConcatSpatial(k: nat, f: nat -> seq<Discovery>, hit: nat -> bool)
    requires forall s: nat :: CountSpatial(f(s)) == (if hit(s) then 1 else 0)
    ensures CountSpatial(Concat(k, f)) == CountHits(k, hit)
  {
    if k > 0 {
      ConcatSpatial(k - 1, f, hit);
      CountsAppend(Concat(k - 1, f), f(k - 1));
    }
  }

  /** When step `s` finds a causal relationship exactly when `hit(s)`, the first `k` steps
      find as many as there are hits among them. */
  lemma {:induction false} ConcatCausal(k: nat, f: nat -> seq<Discovery>, hit: nat -> bool)
    requires forall s: nat :: CountCausal(f(s)) == (if hit(s) then 1 else 0)
    ensures CountCausal(Concat(k, f)) == CountHits(k, hit)
  {
    if k > 0 {
      ConcatCausal(k - 1, f, hit);
      CountsAppend(Concat(k - 1, f), f(k - 1));
    }
  }

  /** There are `ceil(k / 50)` multiples of 50 below `k`. */
  lemma {:induction false} SpatialHits(k: nat)
    ensures CountHits(k, SpatialStep) == (k + 49) / 50
  {
    if k > 0 {
      SpatialHits(k - 1);
      assert (k + 49) / 50 == (k + 48) / 50 + (if (k - 1) % 50 == 0 then 1 else 0) by {
        assert (k + 49) / 50 == (k - 1) / 50 + 1;
      }
    }
  }

  /** There are `ceil(k / 75)` multiples of 75 below `k`. */
  lemma {:induction false} CausalHits(k: nat)
    ensures CountHits(k, CausalStep) == (k + 74) / 75
  {
    if k > 0 {
      CausalHits(k - 1);
      assert (k + 74) / 75 == (k + 73) / 75 + (if (k - 1) % 75 == 0 then 1 else 0) by {
        assert (k + 74) / 75 == (k - 1) / 75 + 1;
      }
    }
  }

  /** Every finding of the first `k` steps is about one of them. */
  lemma {:induction false} ConcatWithin(k: nat, f: nat -> seq<Discovery>)
    requires AboutTheirStep(f)
    ensures forall x | x in Concat(k, f) :: x.step < k
  {
    if k > 0 {
      ConcatWithin(k - 1, f);
    }
  }

  /** A finding about one of the first `k` steps is among their findings exactly when that
      step itself makes it. */
  lemma {:induction false} ConcatAt(k: nat, f: nat -> seq<Discovery>, x: Discovery)
    requires AboutTheirStep(f) && x.step < k
    ensures x in Concat(k, f) <==> x in f(x.step)
  {
    assert Concat(k, f) == Concat(k - 1, f) + f(k - 1);
    if x.step < k - 1 {
      ConcatAt(k - 1, f, x);
      assert x !in f(k - 1);
    } else {
      ConcatWithin(k - 1, f);
    }
  }

  /** Step `s` of an exploration yields a spatial discovery exactly when it is a multiple of
      50, and a causal discovery exactly when it is a multiple of 75. */
  lemma DiscoveryAt(k: nat, a: Action, clock: nat -> Time, s: nat)
    requires s < k
    ensures var ds := Discoveries(k, a, clock);
      var o := Observation(s, clock(s));
      (SpatialStructure(s, o) in ds <==> s % 50 == 0) && (CausalRelationship(s, a, o) in ds <==> s % 75 == 0)
  {
    var o := Observation(s, clock(s));
    var f := StepFindings(a, clock);
    forall t: nat, x | x in f(t)
      ensures x.step == t
    {
      StepDiscoveriesAt(t, a, Observation(t, clock(t)));
    }
    ConcatAt(k, f, SpatialStructure(s, o));
    ConcatAt(k, f, CausalRelationship(s, a, o));
    StepDiscoveriesAt(s, a, o);
  }

  /** `len(set(str(a) for a in actions))`: distinct action dicts print differently. */
  function Diversity(actions: seq<Action>): (n: nat)
    ensures n > 0 <==> actions != []
  {
    var distinct := set a | a in actions;
    assert actions != [] ==> actions[0] in distinct;
    |distinct|
  }

  /** Every step of an exploration takes the same action, so its action diversity is 1,
      or 0 when it takes no step. */
  lemma ExplorationDiversity(env: string, strategy: Value, k: nat, clock: nat -> Time)
    ensures Diversity(Explored(env, strategy, k, clock).actions) == if k == 0 then 0 else 1
  {
    var d := Explored(env, strategy, k, clock);
    if k > 0 {
      assert (set a | a in d.actions) == {ActionFor(strategy)} by {
        assert d.actions[0] in d.actions;
      }
    } else {
      assert (set a | a in d.actions) == {};
    }
  }

  /** The world model after the first `k` steps from `m`, step `s` recorded under
      `key(s)`. */
  function Record<K>(m: map<K, Observation>, k: nat, key: nat -> K, clock: nat -> Time): map<K, Observation> {
    if k == 0 then m else Record(m, k - 1, key, clock)[key(k - 1) := Observation(k - 1, clock(k - 1))]
  }

  /** The keys of the first `k` steps. */
  function KeysBelow<K>(key: nat -> K, k: nat): set<K> {
    set s | 0 <= s < k :: key(s)
  }

  /** The first `k` steps have pairwise different keys. */
  predicate DistinctBelow<K(==)>(key: nat -> K, k: nat) {
    forall a, b | 0 <= a < b < k :: key(a) != key(b)
  }

  /** With distinct keys, step `s`'s entry survives every later step. */
  lemma {:induction false} RecordAt<K>(m: map<K, Observation>, k: nat, key: nat -> K, clock: nat -> Time, s: nat)
    requires DistinctBelow(key, k) && s < k
    ensures key(s) in Record(m, k, key, clock) && Record(m, k, key, clock)[key(s)] == Observation(s, clock(s))
  {
    if s < k - 1 {
      RecordAt(m, k - 1, key, clock, s);
      assert key(s) != key(k - 1);
    }
  }

  /** Recording adds the steps' keys and keeps every old entry under another key. */
  lemma RecordKeys<K>(m: map<K, Observation>, k: nat, key: nat -> K, clock: nat -> Time)
    ensures Record(m, k, key, clock).Keys == m.Keys + KeysBelow(key, k)
    ensures forall x | x in m && x !in KeysBelow(key, k) :: Record(m, k, key, clock)[x] == m[x]
  {
    RecordDomain(m, k, key, clock);
    forall x | x in m && x !in KeysBelow(key, k)
      ensures Record(m, k, key, clock)[x] == m[x]
    {
      RecordKept(m, k, key, clock, x);
    }
  }

  lemma {:induction false} RecordDomain<K>(m: map<K, Observation>, k: nat, key: nat -> K, clock: nat -> Time)
    ensures Record(m, k, key, clock).Keys == m.Keys + KeysBelow(key, k)
  {
    if k > 0 {
      RecordDomain(m, k - 1, key, clock);
      assert KeysBelow(key, k) == KeysBelow(key, k - 1) + {key(k - 1)};
    }
  }

  lemma {:induction false} RecordKept<K>(m: map<K, Observation>, k: nat, key: nat -> K, clock: nat -> Time, x: K)
    requires x in m && x !in KeysBelow(key, k)
    ensures x in Record(m, k, key, clock) && Record(m, k, key, clock)[x] == m[x]
  {
    if k > 0 {
      assert x != key(k - 1);
      RecordKept(m, k - 1, key, clock, x);
    }
  }

  /** The world model after `k` steps of `explore_environment` from `m`: each step's
      update under its position key. */
  function Recorded(m: map<string, Observation>, k: nat, clock: nat -> Time): (r: map<string, Observation>)
    ensures m.Keys <= r.Keys
  {
    RecordDomain(m, k, PosKey, clock);
    Record(m, k, PosKey, clock)
  }

  /** The position keys of the first `k` steps. */
  function PosKeys(k: nat): set<string> {
    KeysBelow(PosKey, k)
  }

  /** Different steps have different position keys. */
  lemma PosKeysDistinct(k: nat)
    ensures DistinctBelow(PosKey, k)
  {
    forall a, b | 0 <= a < b < k
      ensures PosKey(a) != PosKey(b)
    {
      if PosKey(a) == PosKey(b) {
        PosKeyInjective(a, b);
      }
    }
  }

  /** After `k` steps the world model holds each step's update under the step's position
      key. */
  lemma RecordedSteps(m: map<string, Observation>, k: nat, clock: nat -> Time)
    ensures forall s | 0 <= s < k :: PosKey(s) in Recorded(m, k, clock) && Recorded(m, k, clock)[PosKey(s)] == Observation(s, clock(s))
  {
    PosKeysDistinct(k);
    forall s | 0 <= s < k
      ensures PosKey(s) in Recorded(m, k, clock) && Recorded(m, k, clock)[PosKey(s)] == Observation(s, clock(s))
    {
      RecordAt(m, k, PosKey, clock, s);
    }
  }

  /** The world model after `k` steps holds its old keys and those of the `k` positions,
      and every old entry at another key is kept. */
  lemma RecordedKeys(m: map<string, Observation>, k: nat, clock: nat -> Time)
    ensures Recorded(m, k, clock).Keys == m.Keys + PosKeys(k)
    ensures forall key | key in m && key !in PosKeys(k) :: Recorded(m, k, clock)[key] == m[key]
  {
    RecordKeys(m, k, PosKey, clock);
  }

  /** `range(steps)`: the number of steps, or the TypeError a value that is not an
      integer raises (a bool counts as 0 or 1, a negative count as none). */
  function StepCount(steps: Value): (r: Result<nat, string>)
    ensures r.Success? <==> steps.Int? || steps.Bool?
    ensures steps.Int? && steps.i >= 0 ==> r == Success(steps.i)
    ensures steps.Int? && steps.i < 0 ==> r == Success(0)
  {
    match steps
    case Int(i) => Success(if i < 0 then 0 else i)
    case Bool(b) => Success(if b then 1 else 0)
    case _ => Result<nat, string>.Failure("'" + TypeName(steps) + "' object cannot be interpreted as an integer")
  }

  /** The `steps` entry of an exploration config (1000 when absent), as a count. */
  function RequestedSteps(config: Dict): Result<nat, string> {
    StepCount(Get(config, "steps", Int(1000)))
  }

  /** The `strategy` entry of an exploration config ("random" when absent). */
  function RequestedStrategy(config: Dict): Value {
    Get(config, "strategy", Str("random"))
  }

  /** The error dict for an environment the agent does not have. */
  function EnvironmentNotFound(name: string): Dict {
    map["error" := Str("Environment " + name + " not found")]
  }

  // Insights

  datatype InsightKind = SpatialUnderstanding | CausalUnderstanding | ExplorationEfficiency

  /** One insight: its kind, the count its text states, and its confidence. */
  datatype Insight = Insight(kind: InsightKind, count: nat, confidence: real) {
    function AsValue(): Value {
      match kind
      case SpatialUnderstanding =>
        Obj(map["type" := Str("spatial_understanding"),
                "insight" := Str("Discovered " + Strings.NatText(count) + " spatial structures"),
                "implications" := TextList(["improved navigation", "better spatial reasoning"]),
                "confidence" := Real(confidence)])
      case CausalUnderstanding =>
        Obj(map["type" := Str("causal_understanding"),
                "insight" := Str("Identified " + Strings.NatText(count) + " causal relationships"),
                "implications" := TextList(["better prediction", "improved planning"]),
                "confidence" := Real(confidence)])
      case ExplorationEfficiency =>
        Obj(map["type" := Str("exploration_efficiency"),
                "insight" := Str("Action diversity: " + Strings.NatText(count)),
                "implications" := TextList(["exploration strategy optimization"]),
                "confidence" := Real(confidence)])
    }
  }

  predicate Mentions(r: seq<Insight>, k: InsightKind) {
    exists i :: 0 <= i < |r| && r[i].kind == k
  }

  /** `_generate_exploration_insights`: a spatial insight when there are spatial
      discoveries, a causal one when there are causal discoveries (each with the mean
      confidence of its discoveries), and always, last, the action diversity. */
  function Insights(d: Exploration): (r: seq<Insight>)
    ensures |r| >= 1 && r[|r| - 1] == Insight(ExplorationEfficiency, Diversity(d.actions), 0.9)
    ensures Mentions(r, SpatialUnderstanding) <==> CountSpatial(d.discoveries) > 0
    ensures Mentions(r, CausalUnderstanding) <==> CountCausal(d.discoveries) > 0
    ensures forall i | 0 <= i < |r| - 1 :: r[i].count > 0
  {
    var sp := CountSpatial(d.discoveries);
    var ca := CountCausal(d.discoveries);
    var spatial := if sp > 0 then [Insight(SpatialUnderstanding, sp, 0.8)] else [];
    var causal := if ca > 0 then [Insight(CausalUnderstanding, ca, 0.7)] else [];
    var r := spatial + causal + [Insight(ExplorationEfficiency, Diversity(d.actions), 0.9)];
    assert sp > 0 ==> r[0].kind == SpatialUnderstanding;
    assert ca > 0 ==> r[|spatial|].kind == CausalUnderstanding;
    r
  }

  /** The insights of a `k`-step exploration: spatial and causal understanding from step 0
      on, and an action diversity of one. */
  lemma ExplorationInsights(env: string, strategy: Value, k: nat, clock: nat -> Time)
    requires k > 0
    ensures Insights(Explored(env, strategy, k, clock))
            == [Insight(SpatialUnderstanding, (k + 49) / 50, 0.8), Insight(CausalUnderstanding, (k + 74) / 75, 0.7),
                Insight(ExplorationEfficiency, 1, 0.9)]
  {
    DiscoveryCounts(k, ActionFor(strategy), clock);
    ExplorationDiversity(env, strategy, k, clock);
  }

  function InsightValues(r: seq<Insight>): Value {
    List(seq(|r|, i requires 0 <= i < |r| => r[i].AsValue()))
  }

  /** The report `explore_environment` sends to the supervisor. */
  function ExplorationReport(d: Exploration): Dict {
    map["type" := Str("exploration_complete"), "environment" := Str(d.environment),
        "insights" := InsightValues(Insights(d)),
        "data_summary" := Obj(map["total_steps" := Int(d.stepsCompleted), "discoveries" := Int(|d.discoveries|),
                                  "world_model_updates" := Int(|d.updates|)])]
  }

  /** What `explore_environment` returns after the loop. */
  function ExplorationResult(d: Exploration): Dict {
    map["exploration_data" := d.AsValue(), "insights" := InsightValues(Insights(d)), "status" := Str("completed")]
  }

  /** The summary a `k`-step exploration reports: `k` steps, the discoveries at the
      multiples of 50 and 75, and `k` world-model updates. */
  lemma ReportedSummary(env: string, strategy: Value, k: nat, clock: nat -> Time)
    ensures ExplorationReport(Explored(env, strategy, k, clock))["data_summary"]
            == Obj(map["total_steps" := Int(k), "discoveries" := Int((k + 49) / 50 + (k + 74) / 75),
                       "world_model_updates" := Int(k)])
  {
    DiscoveryCounts(k, ActionFor(strategy), clock);
  }

  // The physics model of an environment design

  const RealisticFeatures: seq<string> := ["gravity", "friction", "collisions", "momentum"]
  const FluidFeatures: seq<string> := ["fluid_simulation", "buoyancy", "viscosity"]
  const DeformableFeatures: seq<string> := ["soft_body", "elastic_deformation"]

  /** What `_design_physics_model` returns. */
  datatype PhysicsModel = PhysicsModel(engine: string, features: seq<string>, precision: string, timeStep: real)

  /** `_design_physics_model`: the features each requirement brings, in a fixed order, and
      the engine, precision and time step they select. */
  function DesignPhysicsModel(requirements: seq<Value>): (p: PhysicsModel)
    ensures p.engine == "bullet_physics" <==> Str("realistic_physics") in requirements
                                              || Str("fluid_dynamics") in requirements
                                              || Str("deformable_objects") in requirements
    ensures p.engine != "bullet_physics" ==> p.engine == "simple_physics" && p.features == []
    ensures "gravity" in p.features <==> Str("realistic_physics") in requirements
    ensures |p.features| == (if Str("realistic_physics") in requirements then 4 else 0)
                            + (if Str("fluid_dynamics") in requirements then 3 else 0)
                            + (if Str("deformable_objects") in requirements then 2 else 0)
    ensures p.precision == "high" <==> Str("realistic_physics") in requirements
    ensures p.timeStep == 0.016 <==> Str("real_time") in requirements
  {
    var realistic := if Str("realistic_physics") in requirements then RealisticFeatures else [];
    var fluid := if Str("fluid_dynamics") in requirements then FluidFeatures else [];
    var deformable := if Str("deformable_objects") in requirements then DeformableFeatures else [];
    var features := realistic + fluid + deformable;
    assert "gravity" in RealisticFeatures;
    PhysicsModel(if features != [] then "bullet_physics" else "simple_physics", features,
                 if Str("realistic_physics") in requirements then "high" else "medium",
                 if Str("real_time") in requirements then 0.016 else 0.1)
  }

  /** `xs` keeps some of the elements of `ys`, in their order. */
  predicate SubsequenceOf(xs: seq<string>, ys: seq<string>)
    decreases |ys|
  {
    if xs == [] then true
    else if ys == [] then false
    else (xs[0] == ys[0] && SubsequenceOf(xs[1..], ys[1..])) || SubsequenceOf(xs, ys[1..])
  }

  lemma {:induction false} SubsequenceOfSelf(xs: seq<string>)
    ensures SubsequenceOf(xs, xs)
    decreases |xs|
  {
    if xs != [] {
      SubsequenceOfSelf(xs[1..]);
    }
  }

  lemma {:induction false} SubsequenceOfEmpty(ys: seq<string>)
    ensures SubsequenceOf([], ys)
  {
  }

  lemma {:induction false} SubsequenceConcat(xs: seq<string>, ys: seq<string>, us: seq<string>, vs: seq<string>)
    requires SubsequenceOf(xs, ys) && SubsequenceOf(us, vs)
    ensures SubsequenceOf(xs + us, ys + vs)
    decreases |ys| + |vs|
  {
    if xs == [] {
      assert xs + us == us;
      if us != [] && ys != [] {
        assert (ys + vs)[1..] == ys[1..] + vs;
        SubsequenceConcat(xs, ys[1..], us, vs);
      } else if ys == [] {
        assert ys + vs == vs;
      }
    } else {
      assert ys != [];
      assert (ys + vs)[0] == ys[0] && (ys + vs)[1..] == ys[1..] + vs;
      if xs[0] == ys[0] && SubsequenceOf(xs[1..], ys[1..]) {
        SubsequenceConcat(xs[1..], ys[1..], us, vs);
        assert (xs + us)[0] == xs[0] && (xs + us)[1..] == xs[1..] + us;
      } else {
        SubsequenceConcat(xs, ys[1..], us, vs);
      }
    }
  }

  /** The physics features always come in the order realistic, fluid, deformable. */
  lemma PhysicsFeatureOrder(requirements: seq<Value>)
    ensures SubsequenceOf(DesignPhysicsModel(requirements).features,
                          RealisticFeatures + FluidFeatures + DeformableFeatures)
  {
    var realistic := if Str("realistic_physics") in requirements then RealisticFeatures else [];
    var fluid := if Str("fluid_dynamics") in requirements then FluidFeatures else [];
    var deformable := if Str("deformable_objects") in requirements then DeformableFeatures else [];
    SubsequenceOfSelf(RealisticFeatures);
    SubsequenceOfSelf(FluidFeatures);
    SubsequenceOfSelf(DeformableFeatures);
    SubsequenceOfEmpty(RealisticFeatures);
    SubsequenceOfEmpty(FluidFeatures);
    SubsequenceOfEmpty(DeformableFeatures);
    SubsequenceConcat(realistic, RealisticFeatures, fluid, FluidFeatures);
    SubsequenceConcat(realistic + fluid, RealisticFeatures + FluidFeatures, deformable, DeformableFeatures);
  }

  class AgentOdysseus {
    const base: BaseAgent
    /** `_simulation_environments`. */
    var environments: map<string, Environment>
    /** `_external_tools`. */
    var tools: map<string, Dict>
    /** `_world_model["spatial_representations"]`: each position key with the observation
        whose spatial update is stored there. */
    var spatial: map<string, Observation>
    /** `_experiential_data`. */
    var experiences: seq<Exploration>

    constructor (id: AgentId, bus: InMemoryEventBus?, repo: InMemoryRepository?)
      ensures fresh(base) && base.Valid()
      ensures base.id == id && base.agentType == Some(Odysseus) && base.bus == bus && base.repo == repo
      ensures !base.active && base.subordinates == [] && base.supervisor == None
      ensures environments == map[] && tools == map[] && spatial == map[] && experiences == []
    {
      base := new BaseAgent(id, Some(Odysseus), bus, repo);
      environments, tools, spatial, experiences := map[], map[], map[], [];
    }

    /** `start`: the base start, then the environment table with its initialising entries
        set up, then the tool table. */
    method Start(clock: nat -> Time)
      modifies base, base.bus, this`environments, this`tools
      ensures base.active && base.subordinates == old(base.subordinates) && base.supervisor == old(base.supervisor)
      ensures base.bus != null ==> base.bus.subscribers == old(base.bus.subscribers)[base.id := HandlerOf(base.id)]
      ensures base.bus != null ==> base.bus.queue == old(base.bus.queue) && base.bus.delivered == old(base.bus.delivered)
      ensures environments == Started(clock) && tools == ToolTable
    {
      base.Start();
      InitializeSimulationEnvironments(clock);
      tools := ToolTable;
    }

    /** `_initialize_simulation_environments`: writes the table, then sets up, in table
        order, each environment whose status is "initializing". */
    method InitializeSimulationEnvironments(clock: nat -> Time)
      modifies this`environments
      ensures environments == Started(clock)
    {
      environments := InitialEnvironments;
      for i := 0 to |EnvironmentNames|
        invariant environments == SetUpFirst(clock, i)
      {
        var name := EnvironmentNames[i];
        if environments[name].status == "initializing" {
          environments := environments[name := SetUp(environments[name], clock(i))];
        }
      }
      SetUpAll(clock);
    }

    /** `use_external_tool`: an error for a tool the table does not hold, else the named
        tool's result. */
    function UseExternalTool(name: string, config: Dict): (r: Dict)
      reads this
      ensures "error" in r <==> name !in tools || name !in ToolTable
      ensures "error" !in r ==> "tool" in r && r["tool"] == Str(name)
    {
      if name !in tools then map["error" := Str("Tool " + name + " not available")]
      else match ToolOutput(name, config)
        case Some(d) => d
        case None => map["error" := Str("Unknown tool: " + name)]
    }

    /** The stepping loop of explore_environment: one observation, action and
        world-model entry per step. */
    method RunExploration(name: string, strategy: Value, n: nat, clock: nat -> Time) returns (d: Exploration)
      modifies this`spatial
      ensures d == Explored(name, strategy, n, clock)
      ensures spatial == Recorded(old(spatial), n, clock)
    {
      d := Exploration(name, strategy, 0, [], [], [], []);
      for s := 0 to n
        modifies this`spatial
        invariant d == Explored(name, strategy, s, clock)
        invariant spatial == Recorded(old(spatial), s, clock)
      {
        var o := Observation(s, clock(s));
        var a := ActionFor(strategy);
        ExploredSnoc(name, strategy, s, clock);
        d := d.(observations := d.observations + [o], actions := d.actions + [a],
                stepsCompleted := d.stepsCompleted + 1,
                discoveries := d.discoveries + StepDiscoveries(s, a, o),
                updates := d.updates + [o]);
        spatial := spatial[PosKey(s) := o];
      }
    }

    /** The successful path of `explore_environment`: run the steps, store the
        exploration, report it to the supervisor and return the result dict. */
    method CompleteExploration(name: string, strategy: Value, n: nat, clock: nat -> Time) returns (result: Dict)
      modifies this`spatial, this`experiences, base.bus
      ensures var d := Explored(name, strategy, n, clock);
        result == ExplorationResult(d)
        && experiences == old(experiences) + [d]
        && spatial == Recorded(old(spatial), n, clock)
        && (base.bus != null ==>
              base.bus.queue == old(base.bus.queue) + ToSupervisor(base.id, base.supervisor, ExplorationReport(d)))
      ensures base.bus != null ==> base.bus.subscribers == old(base.bus.subscribers) && base.bus.delivered == old(base.bus.delivered)
    {
      var d := RunExploration(name, strategy, n, clock);
      experiences := experiences + [d];
      base.ReportToSupervisor(ExplorationReport(d), "report");
      result := ExplorationResult(d);
    }

    /** `explore_environment`. An unknown environment yields an error dict; a step count
        that is not an integer raises. Otherwise each step records its observation,
        action, discoveries and world-model update, the exploration is stored, and its
        report goes to the supervisor. */
    method ExploreEnvironment(name: string, config: Dict, clock: nat -> Time) returns (r: Result<Dict, string>)
      modifies this`spatial, this`experiences, base.bus
      ensures name !in environments ==> r == Success(EnvironmentNotFound(name))
      ensures RequestedSteps(config).Failure? ==> name in environments ==> r == Failure(RequestedSteps(config).error)
      ensures name !in environments || RequestedSteps(config).Failure? ==>
                spatial == old(spatial) && experiences == old(experiences)
                && (base.bus != null ==> base.bus.queue == old(base.bus.queue))
      ensures name in environments && RequestedSteps(config).Success? ==>
                var d := Explored(name, RequestedStrategy(config), RequestedSteps(config).value, clock);
                r == Success(ExplorationResult(d))
                && experiences == old(experiences) + [d]
                && spatial == Recorded(old(spatial), RequestedSteps(config).value, clock)
                && (base.bus != null ==>
                      base.bus.queue == old(base.bus.queue) + ToSupervisor(base.id, base.supervisor, ExplorationReport(d)))
      ensures base.bus != null ==> base.bus.subscribers == old(base.bus.subscribers) && base.bus.delivered == old(base.bus.delivered)
    {
      if name !in environments {
        r := Success(EnvironmentNotFound(name));
      } else {
        r := ExploreKnown(name, config, clock);
      }
    }

    /** `explore_environment` once the environment is found. */
    method ExploreKnown(name: string, config: Dict, clock: nat -> Time) returns (r: Result<Dict, string>)
      modifies this`spatial, this`experiences, base.bus
      ensures RequestedSteps(config).Failure? ==>
                r == Failure(RequestedSteps(config).error)
                && spatial == old(spatial) && experiences == old(experiences)
                && (base.bus != null ==> base.bus.queue == old(base.bus.queue))
      ensures RequestedSteps(config).Success? ==>
                var d := Explored(name, RequestedStrategy(config), RequestedSteps(config).value, clock);
                r == Success(ExplorationResult(d))
                && experiences == old(experiences) + [d]
                && spatial == Recorded(old(spatial), RequestedSteps(config).value, clock)
                && (base.bus != null ==>
                      base.bus.queue == old(base.bus.queue) + ToSupervisor(base.id, base.supervisor, ExplorationReport(d)))
      ensures base.bus != null ==> base.bus.subscribers == old(base.bus.subscribers) && base.bus.delivered == old(base.bus.delivered)
    {
      var n := RequestedSteps(config);
      if n.Failure? {
        return Failure(n.error);
      }
      var result := CompleteExploration(name, RequestedStrategy(config), n.value, clock);
      r := Success(result);
    }
  }

  /** Once started, every tool in the table answers and every other name gets the
      "not available" error: the "Unknown tool" branch is never taken. */
  lemma StartedToolUse(a: AgentOdysseus, name: string, config: Dict)
    requires a.tools == ToolTable
    ensures "error" in a.UseExternalTool(name, config) <==> name !in ToolTable
    ensures "error" in a.UseExternalTool(name, config) ==>
              a.UseExternalTool(name, config)["error"] == Str("Tool " + name + " not available")
  {
  }
}
