/** The cognitive architect: the three architecture components it keeps (the neural and
    symbolic subsystems and the hybrid core), the design that fills them in, the fixed
    findings of the six research pathways, the refinement of the components by feedback
    from the other role agents, and its message and task dispatch. */
module Architect {
  import opened Wrappers
  import opened Domain
  import opened EventBus
  import opened Repositories
  import opened BaseAgents
  import Strings

  /** `_architecture_components`: one dict per component. */
  datatype Architecture = Architecture(neural: Dict, symbolic: Dict, hybrid: Dict) {
    /** The components as the dict the agent hands out. */
    function AsDict(): Dict {
      map["neural_subsystem" := Obj(neural), "symbolic_subsystem" := Obj(symbolic), "hybrid_core" := Obj(hybrid)]
    }
  }

  /** A subsystem still being designed: no components, no integration points. */
  const Undesigned: Dict := map["status" := Str("design_phase"), "components" := List([]), "integration_points" := List([])]

  /** The components of a freshly built agent. */
  const Initial := Architecture(
    Undesigned,
    Undesigned,
    map["status" := Str("conceptual"), "architecture_type" := Str("neuro-symbolic"), "integration_strategy" := Str("")])

  /** `_design_principles`. */
  const DesignPrinciples: seq<string> := [
    "Modularity and composability",
    "Robustness and fault tolerance",
    "Scalability and efficiency",
    "Interpretability and transparency",
    "Adaptability and learning"]

  // ---------------------------------------------------------------------------------
  // The hybrid core design

  /** One designed component: its name and kind, plus its own extra fields. */
  function Part(name: string, kind: string, purpose: string, extra: Dict): Value {
    Obj(map["name" := Str(name), "type" := Str(kind), "function" := Str(purpose)] + extra)
  }

  /** A list of `n` fixed English texts (findings, advice, technique names), whose wording
      is not modelled. */
  function Prose(n: nat): (v: Value)
    ensures v.List? && |v.items| == n
  {
    List(seq(n, _ => Str("")))
  }

  /** `_design_neural_subsystem`. */
  const NeuralDesign: Dict := map[
    "architecture_type" := Str("transformer_based"),
    "components" := List([
      Part("perception_encoder", "multimodal_transformer", "Process sensory inputs and convert to internal representations",
           map["parameters" := Obj(map["hidden_size" := Int(768), "num_layers" := Int(12), "num_heads" := Int(12)])]),
      Part("pattern_recognizer", "convolutional_transformer", "Identify patterns and features in data",
           map["parameters" := Obj(map["patch_size" := Int(16), "embed_dim" := Int(512)])]),
      Part("intuitive_reasoner", "gpt_style_decoder", "Fast, intuitive reasoning and response generation",
           map["parameters" := Obj(map["vocab_size" := Int(50000), "context_length" := Int(8192)])]),
      Part("memory_network", "retrieval_augmented", "Store and retrieve episodic and semantic memories",
           map["parameters" := Obj(map["memory_size" := Int(1000000), "retrieval_k" := Int(100)])])]),
    "training_strategy" := Str("self_supervised_pretraining"),
    "data_requirements" := Str("multimodal_large_scale"),
    "status" := Str("designed")]

  /** `_design_symbolic_subsystem`; its status asks for refinement by the logic agent. */
  const SymbolicDesign: Dict := map[
    "architecture_type" := Str("formal_reasoning_engine"),
    "components" := List([
      Part("knowledge_graph", "semantic_network", "Store structured knowledge and relationships",
           map["schema" := Str("ontology_based")]),
      Part("logic_engine", "first_order_logic", "Perform formal logical reasoning",
           map["inference_methods" := TextList(["resolution", "tableau", "natural_deduction"])]),
      Part("program_synthesizer", "neural_guided", "Generate and verify programs from specifications",
           map["languages" := TextList(["python", "prolog", "lambda_calculus"])]),
      Part("planning_engine", "hierarchical_planner", "Generate and execute multi-step plans",
           map["algorithms" := TextList(["strips", "pddl", "hierarchical_task_networks"])])]),
    "reasoning_modes" := TextList(["deductive", "inductive", "abductive"]),
    "verification_system" := Str("formal_methods"),
    "status" := Str("requires_logos_refinement")]

  /** `_design_integration_strategy`, which does not depend on the two designs it is given. */
  const IntegrationStrategy: Dict := map[
    "integration_type" := Str("bidirectional_communication"),
    "communication_protocol" := Obj(map[
      "neural_to_symbolic" := Obj(map["method" := Str("attention_based_translation"),
                                      "interface" := Str("continuous_to_discrete_mapping"),
                                      "frequency" := Str("per_reasoning_step")]),
      "symbolic_to_neural" := Obj(map["method" := Str("embedding_injection"),
                                      "interface" := Str("discrete_to_continuous_mapping"),
                                      "frequency" := Str("per_inference_step")])]),
    "coordination_mechanism" := Obj(map[
      "type" := Str("dual_process_controller"),
      "switching_criteria" := TextList(["task_complexity", "time_constraints", "confidence_levels", "uncertainty_measures"]),
      "arbitration_strategy" := Str("learned_meta_controller")]),
    "shared_components" := List([
      Obj(map["name" := Str("working_memory"), "type" := Str("unified_memory_buffer"),
              "capacity" := Str("dynamic_allocation"), "access_patterns" := Str("both_systems")]),
      Obj(map["name" := Str("attention_system"), "type" := Str("global_workspace"),
              "function" := Str("coordinate_focus_across_systems")])]),
    "learning_integration" := Obj(map[
      "method" := Str("joint_training"),
      "objectives" := TextList(["task_performance", "system_coherence", "interpretability"]),
      "regularization" := Str("consistency_constraints")])]

  /** The components after `design_hybrid_core`: both subsystem dicts are updated with
      their designs, and the hybrid core gets the strategy and the "designed" status. */
  function Designed(a: Architecture): (r: Architecture)
    ensures r.neural.Keys == a.neural.Keys + NeuralDesign.Keys
    ensures r.symbolic.Keys == a.symbolic.Keys + SymbolicDesign.Keys
  {
    Architecture(a.neural + NeuralDesign, a.symbolic + SymbolicDesign,
                 a.hybrid["integration_strategy" := Obj(IntegrationStrategy)]["status" := Str("designed")])
  }

  /** The design `design_hybrid_core` returns, stamped at `now`. */
  function HybridCore(now: Time): Dict {
    map["neural_subsystem" := Obj(NeuralDesign),
        "symbolic_subsystem" := Obj(SymbolicDesign),
        "integration_strategy" := Obj(IntegrationStrategy),
        "design_principles" := TextList(DesignPrinciples),
        "timestamp" := Stamp(now)]
  }

  /** The report `design_hybrid_core` sends to the supervisor. */
  function DesignReport(core: Dict): Dict {
    map["type" := Str("architecture_design_complete"), "hybrid_core" := Obj(core), "status" := Str("completed")]
  }

  /** After the design the hybrid core is "designed" and holds the strategy, each subsystem
      holds every entry of its design, and every other entry the components had is kept. */
  lemma DesignedState(a: Architecture)
    ensures var d := Designed(a);
      d.hybrid["status"] == Str("designed") && d.hybrid["integration_strategy"] == Obj(IntegrationStrategy)
      && (forall k :: k in d.hybrid <==> k in a.hybrid || k in {"status", "integration_strategy"})
      && (forall k :: k in a.hybrid && k !in {"status", "integration_strategy"} ==> d.hybrid[k] == a.hybrid[k])
    ensures var d := Designed(a);
      (forall k :: k in d.neural <==> k in a.neural || k in NeuralDesign)
      && (forall k :: k in NeuralDesign ==> d.neural[k] == NeuralDesign[k])
      && (forall k :: k in a.neural && k !in NeuralDesign ==> d.neural[k] == a.neural[k])
    ensures var d := Designed(a);
      (forall k :: k in d.symbolic <==> k in a.symbolic || k in SymbolicDesign)
      && (forall k :: k in SymbolicDesign ==> d.symbolic[k] == SymbolicDesign[k])
      && (forall k :: k in a.symbolic && k !in SymbolicDesign ==> d.symbolic[k] == a.symbolic[k])
  {
  }

  /** Designing twice leaves the components as designing once does. */
  lemma DesignIdempotent(a: Architecture)
    ensures Designed(Designed(a)) == Designed(a)
  {
    MergeTwice(a.neural, NeuralDesign);
    MergeTwice(a.symbolic, SymbolicDesign);
    var h := a.hybrid["integration_strategy" := Obj(IntegrationStrategy)]["status" := Str("designed")];
    SetTwice(h, "integration_strategy", Obj(IntegrationStrategy));
    SetTwice(h["integration_strategy" := Obj(IntegrationStrategy)], "status", Str("designed"));
  }

  /** `d.update(u)` a second time changes nothing. */
  lemma MergeTwice(d: Dict, u: Dict)
    ensures (d + u) + u == d + u
  {
  }

  /** Setting an entry to the value it already holds changes nothing. */
  lemma SetTwice(d: Dict, k: string, v: Value)
    requires k in d && d[k] == v
    ensures d[k := v] == d
  {
  }

  /** Designing the initial components: the neural subsystem is "designed", the symbolic
      one awaits refinement by the logic agent, and the hybrid core keeps its type. */
  lemma DesignFromInitial()
    ensures Designed(Initial).neural["status"] == Str("designed")
    ensures Designed(Initial).symbolic["status"] == Str("requires_logos_refinement")
    ensures Designed(Initial).hybrid["architecture_type"] == Str("neuro-symbolic")
    ensures "integration_points" in Designed(Initial).neural && "integration_points" in Designed(Initial).symbolic
  {
    assert "status" in NeuralDesign && "status" in SymbolicDesign;
    assert "integration_points" !in NeuralDesign && "integration_points" !in SymbolicDesign;
  }

  // ---------------------------------------------------------------------------------
  // Research pathways

  /** The six research pathways (`_research_pathways`), the keys of the exploration table. */
  datatype Pathway = Transformer | SymbolicReasoning | NeuroSymbolic | Memory | Attention | ReasoningChains {
    function Name(): string {
      match this
      case Transformer => "transformer_architectures"
      case SymbolicReasoning => "symbolic_reasoning_engines"
      case NeuroSymbolic => "neuro_symbolic_integration"
      case Memory => "memory_architectures"
      case Attention => "attention_mechanisms"
      case ReasoningChains => "reasoning_chains"
    }
  }

  /** The pathway a table key names; `None` for a name missing from the table. */
  function PathwayNamed(name: string): (r: Option<Pathway>)
    ensures r.Some? ==> r.value.Name() == name
    ensures r.None? ==> forall p: Pathway :: p.Name() != name
  {
    if name == "transformer_architectures" then Some(Transformer)
    else if name == "symbolic_reasoning_engines" then Some(SymbolicReasoning)
    else if name == "neuro_symbolic_integration" then Some(NeuroSymbolic)
    else if name == "memory_architectures" then Some(Memory)
    else if name == "attention_mechanisms" then Some(Attention)
    else if name == "reasoning_chains" then Some(ReasoningChains)
    else None
  }

  /** The findings of one pathway, which name it and carry no error. */
  function Findings(p: Pathway): (r: Dict)
    ensures "pathway" in r && r["pathway"] == Str(p.Name()) && "error" !in r
  {
    match p
    case Transformer => TransformerFindings()["pathway" := Str(p.Name())]
    case SymbolicReasoning => SymbolicFindings()["pathway" := Str(p.Name())]
    case NeuroSymbolic => IntegrationFindings()["pathway" := Str(p.Name())]
    case Memory => MemoryFindings()["pathway" := Str(p.Name())]
    case Attention => AttentionFindings()["pathway" := Str(p.Name())]
    case ReasoningChains => ChainFindings()["pathway" := Str(p.Name())]
  }

  /** `_explore_transformer_architectures`, without its "pathway" entry. */
  function TransformerFindings(): (d: Dict)
    ensures "error" !in d
  {
    map[
      "key_findings" := Prose(4),
      "recommendations" := Prose(4),
      "challenges" := Prose(3),
      "next_steps" := Prose(3)]
  }

  /** `_explore_symbolic_reasoning`, without its "pathway" entry. */
  function SymbolicFindings(): (d: Dict)
    ensures "error" !in d
  {
    map[
      "key_findings" := Prose(4),
      "recommendations" := Prose(4),
      "challenges" := Prose(3),
      "collaboration_needed" := Str("logos_agent_refinement")]
  }

  /** `_explore_neuro_symbolic_integration`, without its "pathway" entry. */
  function IntegrationFindings(): (d: Dict)
    ensures "error" !in d
  {
    map[
      "key_findings" := Prose(4),
      "integration_patterns" := Prose(4),
      "challenges" := Prose(3)]
  }

  /** `_explore_memory_architectures`, without its "pathway" entry. */
  function MemoryFindings(): (d: Dict)
    ensures "error" !in d
  {
    map[
      "architectures_evaluated" := Prose(4),
      "key_insights" := Prose(4)]
  }

  /** `_explore_attention_mechanisms`, without its "pathway" entry. */
  function AttentionFindings(): (d: Dict)
    ensures "error" !in d
  {
    map[
      "mechanisms_studied" := Prose(4),
      "findings" := Prose(3)]
  }

  /** `_explore_reasoning_chains`, without its "pathway" entry. */
  function ChainFindings(): (d: Dict)
    ensures "error" !in d
  {
    map[
      "chain_types" := Prose(4),
      "insights" := Prose(3)]
  }

  /** A pathway with an entry in the exploration table. */
  predicate Known(pathway: Value)
    ensures Known(pathway) <==> pathway.Str? && exists p: Pathway :: p.Name() == pathway.s
  {
    pathway.Str? && PathwayNamed(pathway.s).Some?
  }

  /** `explore_architectural_pathway`'s result: the findings of a known pathway, an error
      dict for any other hashable value, and a TypeError (the failure) for a list or a
      dict, which cannot be looked up in the table. */
  function Exploration(pathway: Value): (r: Result<Dict, string>)
    ensures r.Failure? <==> !Hashable(pathway)
  {
    if !Hashable(pathway) then Failure("unhashable type: '" + TypeName(pathway) + "'")
    else if Known(pathway) then Success(Findings(PathwayNamed(pathway.s).value))
    else Success(map["error" := Str("Unknown pathway: " + Render(pathway))])
  }

  /** The report sent to the supervisor after a known pathway was explored. */
  function ExplorationReport(pathway: Value, findings: Dict): Dict {
    map["type" := Str("pathway_exploration_complete"), "pathway" := pathway, "findings" := Obj(findings)]
  }

  /** An exploration answers with an error dict exactly for the hashable values that are
      not a known pathway, and otherwise with findings naming the pathway explored. */
  lemma ExplorationErrorIff(pathway: Value)
    requires Hashable(pathway)
    ensures var r := Exploration(pathway).value;
      "error" in r <==> !Known(pathway)
    ensures var r := Exploration(pathway).value;
      Known(pathway) ==> "pathway" in r && r["pathway"] == pathway
  {
  }

  // ---------------------------------------------------------------------------------
  // Feedback

  /** The ValueError `dict.update` raises for element `i` of a sequence when that element
      has `n` items. */
  function PairLengthError(i: nat, n: nat): string {
    "dictionary update sequence element #" + Strings.NatText(i) + " has length " + Strings.NatText(n) + "; 2 is required"
  }

  /** Stands for an update whose outcome rests on a key the model's text-keyed dicts
      cannot hold (a number, a bool, None, a datetime) or on the key order of a two-entry
      dict. */
  const Unheld := "updating by this pair is outside the model"

  /** What `dict.update` makes of element `i` of a list: a two-item list whose first item
      is a text, or a two-character text, is a key and its value. */
  function PairOf(e: Value, i: nat): (r: Result<(string, Value), string>)
    ensures r.Success? <==> (e.List? && |e.items| == 2 && e.items[0].Str?) || (e.Str? && |e.s| == 2)
    ensures e.List? && |e.items| != 2 ==> r == Failure(PairLengthError(i, |e.items|))
    ensures e.Str? && |e.s| != 2 ==> r == Failure(PairLengthError(i, |e.s|))
  {
    match e
    case List(xs) =>
      if |xs| != 2 then Failure(PairLengthError(i, |xs|))
      else if xs[0].Str? then Success((xs[0].s, xs[1]))
      else if xs[0].List? || xs[0].Obj? then Failure("unhashable type: '" + TypeName(xs[0]) + "'")
      else Failure(Unheld)
    case Str(s) => if |s| != 2 then Failure(PairLengthError(i, |s|)) else Success(([s[0]], Str([s[1]])))
    case Obj(entries) => if |entries| != 2 then Failure(PairLengthError(i, |entries|)) else Failure(Unheld)
    case Stamp(_) => Failure(Unheld)
    case _ => Failure("cannot convert dictionary update sequence element #" + Strings.NatText(i) + " to a sequence")
  }

  /** The pairs of a list handed to `dict.update`, element by element from the front. */
  function PairsOf(items: seq<Value>): (r: Result<seq<(string, Value)>, string>)
    ensures r.Success? <==> forall i | 0 <= i < |items| :: PairOf(items[i], i).Success?
    ensures r.Success? ==> |r.value| == |items| && forall i | 0 <= i < |items| :: r.value[i] == PairOf(items[i], i).value
    decreases |items|
  {
    if items == [] then Success([])
    else
      var n := |items| - 1;
      var prev := PairsOf(items[..n]);
      assert forall i | 0 <= i < n :: items[..n][i] == items[i];
      if prev.Failure? then prev
      else
        var p := PairOf(items[n], n);
        if p.Failure? then Failure(p.error) else Success(prev.value + [p.value])
  }

  /** The raise is the one of the first element that is not a pair. */
  lemma {:induction false} PairsOfFirstFailure(items: seq<Value>)
    requires PairsOf(items).Failure?
    ensures exists i | 0 <= i < |items| :: PairOf(items[i], i).Failure?
              && PairsOf(items).error == PairOf(items[i], i).error
              && forall j | 0 <= j < i :: PairOf(items[j], j).Success?
    decreases |items|
  {
    var n := |items| - 1;
    var init := items[..n];
    assert forall i | 0 <= i < n :: init[i] == items[i];
    if PairsOf(init).Failure? {
      PairsOfFirstFailure(init);
    } else {
      assert PairOf(items[n], n).Failure? && PairsOf(items).error == PairOf(items[n], n).error;
    }
  }

  /** `dict(ps)`: the pairs as a dict, a later pair overriding an earlier one. */
  function PairsMap(ps: seq<(string, Value)>): (m: Dict)
    ensures forall k :: k in m <==> exists i | 0 <= i < |ps| :: ps[i].0 == k
    decreases |ps|
  {
    if ps == [] then map[]
    else
      var rest := PairsMap(ps[1..]);
      assert forall i | 1 <= i < |ps| :: ps[i] == ps[1..][i - 1];
      map[ps[0].0 := ps[0].1] + rest
  }

  /** `d.update(ps)` as the loop CPython runs: one assignment per pair, in order. */
  function UpdateEach(d: Dict, ps: seq<(string, Value)>): Dict
    decreases |ps|
  {
    if ps == [] then d else UpdateEach(d[ps[0].0 := ps[0].1], ps[1..])
  }

  /** Assigning the pairs one by one is merging in `dict(ps)`. */
  lemma {:induction false} UpdateEachIsMerge(d: Dict, ps: seq<(string, Value)>)
    ensures UpdateEach(d, ps) == d + PairsMap(ps)
    decreases |ps|
  {
    if ps != [] {
      UpdateEachIsMerge(d[ps[0].0 := ps[0].1], ps[1..]);
      assert d[ps[0].0 := ps[0].1] + PairsMap(ps[1..]) == d + (map[ps[0].0 := ps[0].1] + PairsMap(ps[1..]));
    }
  }

  /** Each key ends up with the value of the last pair that names it. */
  lemma {:induction false} PairsMapLast(ps: seq<(string, Value)>, i: nat)
    requires i < |ps| && forall j | i < j < |ps| :: ps[j].0 != ps[i].0
    ensures PairsMap(ps)[ps[i].0] == ps[i].1
    decreases |ps|
  {
    if i == 0 {
      assert forall j | 0 <= j < |ps[1..]| :: ps[1..][j] == ps[j + 1];
    } else {
      assert forall j | i - 1 < j < |ps[1..]| :: ps[1..][j] == ps[j + 1];
      PairsMapLast(ps[1..], i - 1);
    }
  }

  /** The entries `dict.update` merges in for a value it accepts: a dict's own entries, or
      the pairs of a list. */
  function Updates(v: Value): Dict {
    if v.Obj? then v.entries
    else if v.List? && PairsOf(v.items).Success? then PairsMap(PairsOf(v.items).value)
    else map[]
  }

  /** `refine_architecture_with_feedback`, applied to the components `a`. The only way it
      fails is a logic agent's truthy `symbolic_improvements` that `dict.update` refuses:
      neither a dict nor a list of pairs. */
  function Refined(a: Architecture, feedback: Dict): (r: Result<Architecture, string>)
    ensures r.Failure? <==> Get(feedback, "source", Null) == Str("logos")
                            && Get(feedback, "symbolic_improvements", Obj(map[])).Truthy()
                            && !Get(feedback, "symbolic_improvements", Obj(map[])).Obj?
                            && !(Get(feedback, "symbolic_improvements", Obj(map[])).List?
                                 && PairsOf(Get(feedback, "symbolic_improvements", Obj(map[])).items).Success?)
  {
    var source := Get(feedback, "source", Null);
    if source == Str("logos") then
      var improvements := Get(feedback, "symbolic_improvements", Obj(map[]));
      if !improvements.Truthy() then Success(a)
      else if improvements.Obj? || (improvements.List? && PairsOf(improvements.items).Success?) then
        Success(a.(symbolic := a.symbolic + Updates(improvements)))
      else if improvements.List? then Failure(PairsOf(improvements.items).error)
      else if improvements.Str? || improvements.Stamp? then Failure(PairLengthError(0, 1))
      else Failure(NotIterable(improvements))
    else if source == Str("odysseus") then
      var insights := Get(feedback, "embodiment_insights", Obj(map[]));
      if insights.Truthy() then Success(a.(neural := a.neural["embodiment_features" := insights]))
      else Success(a)
    else if source == Str("themis") then
      var requirements := Get(feedback, "safety_requirements", Obj(map[]));
      if requirements.Truthy() then
        Success(Architecture(a.neural["safety_constraints" := requirements],
                             a.symbolic["safety_constraints" := requirements],
                             a.hybrid["safety_constraints" := requirements]))
      else Success(a)
    else Success(a)
  }

  /** Feedback from the logic agent touches the symbolic subsystem only, and changes it
      exactly when the improvements are non-empty: each improvement overrides its entry. */
  lemma LogosFeedback(a: Architecture, feedback: Dict)
    requires Get(feedback, "source", Null) == Str("logos")
    requires Refined(a, feedback).Success?
    ensures var r := Refined(a, feedback).value;
      var improvements := Get(feedback, "symbolic_improvements", Obj(map[]));
      r.neural == a.neural && r.hybrid == a.hybrid
      && (!improvements.Truthy() ==> r.symbolic == a.symbolic)
      && (improvements.Truthy() ==>
            var u := Updates(improvements);
            (improvements.Obj? ==> u == improvements.entries)
            && (improvements.List? ==> r.symbolic == UpdateEach(a.symbolic, PairsOf(improvements.items).value))
            && (forall k :: k in r.symbolic <==> k in a.symbolic || k in u)
            && (forall k :: k in u ==> r.symbolic[k] == u[k])
            && (forall k :: k in a.symbolic && k !in u ==> r.symbolic[k] == a.symbolic[k]))
  {
    var improvements := Get(feedback, "symbolic_improvements", Obj(map[]));
    if improvements.Truthy() && improvements.List? {
      UpdateEachIsMerge(a.symbolic, PairsOf(improvements.items).value);
    }
  }

  /** Feedback from the embodiment agent never fails; it records the insights as the neural
      subsystem's embodiment features exactly when they are non-empty, and nothing else. */
  lemma OdysseusFeedback(a: Architecture, feedback: Dict)
    requires Get(feedback, "source", Null) == Str("odysseus")
    ensures Refined(a, feedback).Success?
    ensures var r := Refined(a, feedback).value;
      var insights := Get(feedback, "embodiment_insights", Obj(map[]));
      r.symbolic == a.symbolic && r.hybrid == a.hybrid
      && (insights.Truthy() ==> r.neural == a.neural["embodiment_features" := insights])
      && (!insights.Truthy() ==> r.neural == a.neural)
  {
  }

  /** Feedback from the safety agent never fails; non-empty requirements become the safety
      constraints of every component and change nothing else; empty ones change nothing. */
  lemma ThemisFeedback(a: Architecture, feedback: Dict)
    requires Get(feedback, "source", Null) == Str("themis")
    ensures Refined(a, feedback).Success?
    ensures var r := Refined(a, feedback).value;
      var requirements := Get(feedback, "safety_requirements", Obj(map[]));
      (requirements.Truthy() ==>
         (forall c | c in [r.neural, r.symbolic, r.hybrid] :: "safety_constraints" in c && c["safety_constraints"] == requirements)
         && r.neural - {"safety_constraints"} == a.neural - {"safety_constraints"}
         && r.symbolic - {"safety_constraints"} == a.symbolic - {"safety_constraints"}
         && r.hybrid - {"safety_constraints"} == a.hybrid - {"safety_constraints"})
      && (!requirements.Truthy() ==> r == a)
  {
  }

  /** Feedback from any other source, or with none, leaves the components as they are. */
  lemma OtherFeedbackIgnored(a: Architecture, feedback: Dict)
    requires Get(feedback, "source", Null) !in {Str("logos"), Str("odysseus"), Str("themis")}
    ensures Refined(a, feedback) == Success(a)
  {
  }

  /** Applying the same feedback a second time changes nothing more. */
  lemma RefineIdempotent(a: Architecture, feedback: Dict)
    requires Refined(a, feedback).Success?
    ensures Refined(Refined(a, feedback).value, feedback) == Refined(a, feedback)
  {
    var r := Refined(a, feedback).value;
    var improvements := Get(feedback, "symbolic_improvements", Obj(map[]));
    var source := Get(feedback, "source", Null);
    if source == Str("logos") && improvements.Truthy() {
      MergeTwice(a.symbolic, Updates(improvements));
    } else if source == Str("odysseus") {
      var insights := Get(feedback, "embodiment_insights", Obj(map[]));
      if insights.Truthy() {
        SetTwice(r.neural, "embodiment_features", insights);
      }
    } else if source == Str("themis") {
      var requirements := Get(feedback, "safety_requirements", Obj(map[]));
      if requirements.Truthy() {
        SetTwice(r.neural, "safety_constraints", requirements);
        SetTwice(r.symbolic, "safety_constraints", requirements);
        SetTwice(r.hybrid, "safety_constraints", requirements);
      }
    }
  }

  // ---------------------------------------------------------------------------------
  // Messages and tasks

  /** The reply to a symbolic-refinement collaboration request. */
  function CollaborationAccept(symbolic: Dict): Dict {
    map["type" := Str("collaboration_accept"), "symbolic_subsystem" := Obj(symbolic)]
  }

  datatype Route = CoreDesign | PathwayExploration | Refinement | Generic

  /** `_execute_task_internal`'s dispatch on the lower-cased task name; the first match wins. */
  function RouteOf(name: string): (r: Route)
    ensures var n := Strings.Lower(name);
      r == CoreDesign <==> Strings.Contains(n, "hybrid") && Strings.Contains(n, "core")
    ensures var n := Strings.Lower(name);
      r == PathwayExploration <==> !(Strings.Contains(n, "hybrid") && Strings.Contains(n, "core"))
                                   && (Strings.Contains(n, "explore") || Strings.Contains(n, "pathway"))
    ensures var n := Strings.Lower(name);
      r == Refinement <==> !(Strings.Contains(n, "hybrid") && Strings.Contains(n, "core"))
                           && !(Strings.Contains(n, "explore") || Strings.Contains(n, "pathway"))
                           && Strings.Contains(n, "refine")
    ensures var n := Strings.Lower(name);
      r == Generic <==> !(Strings.Contains(n, "hybrid") && Strings.Contains(n, "core"))
                        && !(Strings.Contains(n, "explore") || Strings.Contains(n, "pathway"))
                        && !Strings.Contains(n, "refine")
  {
    var n := Strings.Lower(name);
    if Strings.Contains(n, "hybrid") && Strings.Contains(n, "core") then CoreDesign
    else if Strings.Contains(n, "explore") || Strings.Contains(n, "pathway") then PathwayExploration
    else if Strings.Contains(n, "refine") then Refinement
    else Generic
  }

  class AgentDaedalus {
    const base: BaseAgent
    /** `_architecture_components`. */
    var arch: Architecture

    constructor (id: AgentId, bus: InMemoryEventBus?, repo: InMemoryRepository?)
      ensures fresh(base) && base.Valid()
      ensures base.id == id && base.agentType == Some(Daedalus) && base.bus == bus && base.repo == repo
      ensures !base.active && base.subordinates == [] && base.supervisor == None
      ensures arch == Initial
    {
      base := new BaseAgent(id, Some(Daedalus), bus, repo);
      arch := Initial;
    }

    /** `design_hybrid_core`: records the design in the components, reports it to the
        supervisor, and returns it. */
    method DesignHybridCore(now: Time) returns (core: Dict)
      modifies this`arch, base.bus
      ensures arch == Designed(old(arch)) && core == HybridCore(now)
      ensures base.bus != null ==>
                base.bus.queue == old(base.bus.queue) + ToSupervisor(base.id, base.supervisor, DesignReport(core))
      ensures base.bus != null ==> base.bus.subscribers == old(base.bus.subscribers) && base.bus.delivered == old(base.bus.delivered)
    {
      arch := Designed(arch);
      core := HybridCore(now);
      base.ReportToSupervisor(DesignReport(core), "report");
    }

    /** `explore_architectural_pathway`: a known pathway's findings are reported to the
        supervisor; an unknown one only yields the error dict. */
    method ExploreArchitecturalPathway(pathway: Value) returns (r: Result<Dict, string>)
      modifies base.bus
      ensures r == Exploration(pathway)
      ensures Known(pathway) && base.bus != null ==>
                base.bus.queue == old(base.bus.queue) + ToSupervisor(base.id, base.supervisor, ExplorationReport(pathway, r.value))
      ensures !Known(pathway) && base.bus != null ==> base.bus.queue == old(base.bus.queue)
      ensures base.bus != null ==> base.bus.subscribers == old(base.bus.subscribers) && base.bus.delivered == old(base.bus.delivered)
    {
      r := Exploration(pathway);
      if Known(pathway) {
        base.ReportToSupervisor(ExplorationReport(pathway, r.value), "report");
      }
    }

    /** `refine_architecture_with_feedback`: applies the feedback and returns the components;
        when the update raises, the components are left as they were. */
    method RefineArchitectureWithFeedback(feedback: Dict) returns (r: Result<Dict, string>)
      modifies this`arch
      ensures var f := Refined(old(arch), feedback);
        (f.Success? ==> arch == f.value && r == Success(arch.AsDict()))
        && (f.Failure? ==> arch == old(arch) && r == Failure(f.error))
    {
      var f := Refined(arch, feedback);
      if f.Success? {
        arch := f.value;
        r := Success(arch.AsDict());
      } else {
        r := Failure(f.error);
      }
    }

    /** `_process_message_internal`. Feedback is answered with the refined components, a
        pathway request naming a truthy pathway with its exploration, and a
        symbolic-refinement collaboration request with a separate message and no reply. */
    method ProcessMessage(m: Message) returns (r: Result<Option<Message>, string>)
      modifies this`arch, base.bus
      ensures m.kind == "architecture_feedback" ==>
                var f := Refined(old(arch), m.content);
                (f.Failure? ==> r == Failure(f.error) && arch == old(arch))
                && (f.Success? ==>
                      arch == f.value
                      && r == Success(Some(Message(base.id, m.sender, map["refined_architecture" := Obj(arch.AsDict())], "architecture_update"))))
                && (base.bus != null ==> base.bus.queue == old(base.bus.queue))
      ensures m.kind == "pathway_exploration_request" ==>
                var p := Get(m.content, "pathway", Null);
                var e := Exploration(p);
                arch == old(arch)
                && (!p.Truthy() ==> r == Success(None) && (base.bus != null ==> base.bus.queue == old(base.bus.queue)))
                && (p.Truthy() && e.Failure? ==> r == Failure(e.error))
                && (p.Truthy() && e.Success? ==>
                      r == Success(Some(Message(base.id, m.sender, map["exploration_result" := Obj(e.value)], "pathway_exploration_response"))))
                && (p.Truthy() && Known(p) && base.bus != null ==>
                      base.bus.queue == old(base.bus.queue) + ToSupervisor(base.id, base.supervisor, ExplorationReport(p, e.value)))
                && (!Known(p) && base.bus != null ==> base.bus.queue == old(base.bus.queue))
      ensures m.kind == "collaboration_request" ==>
                r == Success(None) && arch == old(arch)
                && (Get(m.content, "type", Null) == Str("symbolic_refinement") && base.bus != null ==>
                      base.bus.queue == old(base.bus.queue) + [Message(base.id, m.sender, CollaborationAccept(arch.symbolic), "collaboration_response")])
                && (Get(m.content, "type", Null) != Str("symbolic_refinement") && base.bus != null ==>
                      base.bus.queue == old(base.bus.queue))
      ensures m.kind !in {"architecture_feedback", "pathway_exploration_request", "collaboration_request"} ==>
                r == Success(None) && arch == old(arch) && (base.bus != null ==> base.bus.queue == old(base.bus.queue))
      ensures base.bus != null ==> base.bus.subscribers == old(base.bus.subscribers) && base.bus.delivered == old(base.bus.delivered)
    {
      if m.kind == "architecture_feedback" {
        var refined := RefineArchitectureWithFeedback(m.content);
        if refined.Failure? {
          r := Failure(refined.error);
        } else {
          r := Success(Some(Message(base.id, m.sender, map["refined_architecture" := Obj(refined.value)], "architecture_update")));
        }
      } else if m.kind == "pathway_exploration_request" {
        var p := Get(m.content, "pathway", Null);
        if p.Truthy() {
          var e := ExploreArchitecturalPathway(p);
          if e.Failure? {
            r := Failure(e.error);
          } else {
            r := Success(Some(Message(base.id, m.sender, map["exploration_result" := Obj(e.value)], "pathway_exploration_response")));
          }
        } else {
          r := Success(None);
        }
      } else if m.kind == "collaboration_request" {
        if Get(m.content, "type", Null) == Str("symbolic_refinement") {
          base.SendMessage(m.sender, CollaborationAccept(arch.symbolic), "collaboration_response");
        }
        r := Success(None);
      } else {
        r := Success(None);
      }
    }

    /** `_execute_task_internal`: dispatch on the task name, with the pathway and the
        feedback taken from the task metadata. A feedback entry that is not a dict raises
        when it is asked for its source. */
    method ExecuteTaskInternal(name: string, metadata: Dict, now: Time) returns (r: Outcome)
      modifies this`arch, base.bus
      ensures RouteOf(name) == CoreDesign ==>
                r == Success(HybridCore(now)) && arch == Designed(old(arch))
                && (base.bus != null ==>
                      base.bus.queue == old(base.bus.queue) + ToSupervisor(base.id, base.supervisor, DesignReport(HybridCore(now))))
      ensures RouteOf(name) == PathwayExploration ==>
                var p := Get(metadata, "pathway", Str("transformer_architectures"));
                var e := Exploration(p);
                arch == old(arch)
                && (e.Failure? ==> r == Failure(e.error))
                && (e.Success? ==> r == Success(map["exploration_result" := Obj(e.value)]))
                && (Known(p) && base.bus != null ==>
                      base.bus.queue == old(base.bus.queue) + ToSupervisor(base.id, base.supervisor, ExplorationReport(p, e.value)))
                && (!Known(p) && base.bus != null ==> base.bus.queue == old(base.bus.queue))
      ensures RouteOf(name) == Refinement ==>
                var fb := Get(metadata, "feedback", Obj(map[]));
                (!fb.Obj? ==> r == Failure(NoGet(fb)) && arch == old(arch))
                && (fb.Obj? ==>
                      var f := Refined(old(arch), fb.entries);
                      (f.Failure? ==> r == Failure(f.error) && arch == old(arch))
                      && (f.Success? ==> arch == f.value && r == Success(map["refined_architecture" := Obj(arch.AsDict())])))
      ensures RouteOf(name) == Generic ==>
                r == Success(map["status" := Str("completed"), "message" := Str("Architecture task " + name + " completed")])
                && arch == old(arch)
      ensures RouteOf(name) != CoreDesign && RouteOf(name) != PathwayExploration && base.bus != null ==>
                base.bus.queue == old(base.bus.queue)
      ensures base.bus != null ==> base.bus.subscribers == old(base.bus.subscribers) && base.bus.delivered == old(base.bus.delivered)
    {
      var route := RouteOf(name);
      if route == CoreDesign {
        var core := DesignHybridCore(now);
        r := Success(core);
      } else if route == PathwayExploration {
        var e := ExploreArchitecturalPathway(Get(metadata, "pathway", Str("transformer_architectures")));
        if e.Failure? {
          r := Failure(e.error);
        } else {
          r := Success(map["exploration_result" := Obj(e.value)]);
        }
      } else if route == Refinement {
        var fb := Get(metadata, "feedback", Obj(map[]));
        if !fb.Obj? {
          r := Failure(NoGet(fb));
        } else {
          var refined := RefineArchitectureWithFeedback(fb.entries);
          if refined.Failure? {
            r := Failure(refined.error);
          } else {
            r := Success(map["refined_architecture" := Obj(refined.value)]);
          }
        }
      } else {
        r := Success(map["status" := Str("completed"), "message" := Str("Architecture task " + name + " completed")]);
      }
    }
  }
}
