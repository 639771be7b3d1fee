/** The master coordinator: the project's phase list and its advance, the per-agent
    report book and the synthesis built from each agent's latest report, the phase
    completion rule, the even split of resources over subordinates, the progress score
    and the task dispatch on the task's name. */
module Coordinator {
  import opened Wrappers
  import opened Domain
  import opened EventBus
  import opened Repositories
  import opened BaseAgents
  import Strings

  // ---------------------------------------------------------------------------------
  // Phases

  /** `list.index(x)`: the first position holding `x`, or `None` where Python raises. */
  function FirstIndex(xs: seq<string>, x: string): (r: Option<nat>)
    ensures r.None? <==> x !in xs
    ensures r.Some? ==> r.value < |xs| && xs[r.value] == x && forall j :: 0 <= j < r.value ==> xs[j] != x
  {
    if xs == [] then None
    else if xs[0] == x then Some(0)
    else
      var r := FirstIndex(xs[1..], x);
      if r.None? then None else Some(r.value + 1)
  }

  /** The phase `initialize_project` starts from: the first one, or "initialization". */
  function InitialPhase(phases: seq<string>): (r: string)
    ensures phases != [] ==> FirstIndex(phases, r) == Some(0)
    ensures phases == [] ==> r == "initialization"
  {
    if phases != [] then phases[0] else "initialization"
  }

  /** `advance_to_next_phase` on the phase list and the current phase: the phase after
      the first occurrence of the current one, `None` at the last one, and a failure
      (Python's ValueError) when the current phase is not in the list. */
  function NextPhase(phases: seq<string>, current: string): (r: Result<Option<string>, string>)
    ensures r.Failure? <==> current !in phases
    ensures r.Success? && r.value.Some? ==>
              var i := FirstIndex(phases, current).value; i + 1 < |phases| && r.value.value == phases[i + 1]
    ensures r.Success? && r.value.None? ==> FirstIndex(phases, current).value == |phases| - 1
  {
    var idx := FirstIndex(phases, current);
    if idx.None? then Failure("'" + current + "' is not in list")
    else if idx.value < |phases| - 1 then Success(Some(phases[idx.value + 1]))
    else Success(None)
  }

  /** After `initialize_project` the advance never raises for a non-empty phase list and
      always raises for an empty one. */
  lemma AdvanceAfterInitialize(phases: seq<string>)
    ensures NextPhase(phases, InitialPhase(phases)).Success? <==> phases != []
  {
    if phases != [] {
      assert phases[0] in phases;
    }
  }

  /** With distinct phase names each advance moves one place down the list, so at most
      `|phases| - 1` advances succeed. */
  lemma AdvanceMovesForward(phases: seq<string>, current: string, next: string)
    requires Distinct(phases)
    requires NextPhase(phases, current) == Success(Some(next))
    ensures FirstIndex(phases, current).Some?
    ensures FirstIndex(phases, next) == Some(FirstIndex(phases, current).value + 1)
  {
    var i := FirstIndex(phases, current).value;
    var k := FirstIndex(phases, next);
    assert k.Some? by { assert phases[i + 1] in phases; }
    assert phases[k.value] == phases[i + 1];
  }

  /** With a repeated phase name the advance goes back to the first occurrence, so the
      project cycles and never reaches the phases after the repeat. */
  lemma AdvanceCyclesOnRepeat()
    ensures NextPhase(["a", "b", "a", "c"], "a") == Success(Some("b"))
    ensures NextPhase(["a", "b", "a", "c"], "b") == Success(Some("a"))
  {
    var ps: seq<string> := ["a", "b", "a", "c"];
    assert ps[0] == "a" && ps[1] == "b";
    assert FirstIndex(ps, "a") == Some(0);
    assert ps[1..][0] == "b";
    assert FirstIndex(ps, "b") == Some(1);
  }

  /** A task the coordinator hands out: everything `decompose_research_phase` sets; the
      id, owner and timestamps take fresh defaults. */
  datatype TaskSpec = TaskSpec(name: string, description: string, priority: Priority, metadata: Dict)

  function Targeted(name: string, description: string, priority: Priority, target: string, phase: string): (t: TaskSpec)
    ensures t.priority == priority
    ensures t.metadata.Keys == {"target_agent", "phase"}
    ensures t.metadata["target_agent"] == Str(target) && t.metadata["phase"] == Str(phase)
  {
    TaskSpec(name, description, priority, map["target_agent" := Str(target), "phase" := Str(phase)])
  }

  /** The names and descriptions of the tasks `decompose_research_phase` creates. */
  const CoreTaskName := "Design Hybrid Neuro-Symbolic Core"
  const CoreTaskText := "Develop the core AGI architecture integrating neural and symbolic components"
  const LogicTaskName := "Develop Formal Logic Systems"
  const LogicTaskText := "Create formal logic systems and knowledge graphs for System 2 reasoning"
  const SimulationTaskName := "Design Simulation Environment"
  const SimulationTaskText := "Create high-fidelity simulation environment for embodied learning"
  const AuditTaskName := "Comprehensive Safety Audit"
  const AuditTaskText := "Perform comprehensive safety audit of all system components"

  /** `decompose_research_phase`: the fixed task table of the three known phases. */
  function PhaseTasks(phase: string): (r: seq<TaskSpec>)
    ensures |r| <= 2
    ensures r != [] <==> phase in {"architecture_design", "embodied_learning", "safety_validation"}
  {
    if phase == "architecture_design" then
      [Targeted(CoreTaskName, CoreTaskText, Critical, "daedalus", phase),
       Targeted(LogicTaskName, LogicTaskText, High, "logos", phase)]
    else if phase == "embodied_learning" then
      [Targeted(SimulationTaskName, SimulationTaskText, High, "odysseus", phase)]
    else if phase == "safety_validation" then
      [Targeted(AuditTaskName, AuditTaskText, Critical, "themis", phase)]
    else []
  }

  /** Every task carries its target agent, one of the four roles, and its phase. */
  lemma PhaseTaskMetadata(phase: string)
    ensures var ts := PhaseTasks(phase);
      forall i :: 0 <= i < |ts| ==> ts[i].metadata.Keys == {"target_agent", "phase"}
                                    && ts[i].metadata["phase"] == Str(phase)
                                    && ts[i].metadata["target_agent"] in RoleTargets
  {
    var ts := PhaseTasks(phase);
    if phase == "architecture_design" {
      assert ts[0].metadata["target_agent"] == Str("daedalus") && ts[1].metadata["target_agent"] == Str("logos");
    } else if phase == "embodied_learning" {
      assert ts[0].metadata["target_agent"] == Str("odysseus");
    } else if phase == "safety_validation" {
      assert ts[0].metadata["target_agent"] == Str("themis");
    }
  }

  /** Architecture design: the hybrid core for the architect, then the logic systems for
      the logician. */
  lemma ArchitectureDesignTasks()
    ensures var ts := PhaseTasks("architecture_design");
      |ts| == 2 && ts[0].priority == Critical && ts[0].metadata["target_agent"] == Str("daedalus")
      && ts[1].priority == High && ts[1].metadata["target_agent"] == Str("logos")
  {
  }

  /** Embodied learning: the simulation environment for the explorer. */
  lemma EmbodiedLearningTasks()
    ensures var ts := PhaseTasks("embodied_learning");
      |ts| == 1 && ts[0].priority == High && ts[0].metadata["target_agent"] == Str("odysseus")
  {
  }

  /** Safety validation: the comprehensive audit for the safety overseer. */
  lemma SafetyValidationTasks()
    ensures var ts := PhaseTasks("safety_validation");
      |ts| == 1 && ts[0].priority == Critical && ts[0].metadata["target_agent"] == Str("themis")
  {
  }

  /** Any other phase yields no tasks. */
  lemma UnknownPhaseTasks(phase: string)
    requires phase != "architecture_design" && phase != "embodied_learning" && phase != "safety_validation"
    ensures PhaseTasks(phase) == []
  {
  }

  const RoleTargets: set<Value> := {Str("daedalus"), Str("logos"), Str("odysseus"), Str("themis")}

  function SpecValue(t: TaskSpec): Value {
    Obj(map["name" := Str(t.name), "description" := Str(t.description),
            "priority" := Int(t.priority.Value()), "metadata" := Obj(t.metadata)])
  }

  /** The assignments `_perform_strategic_planning` sends: one per task whose target
      text is the id text of a subordinate, in task order. */
  function Assignments(me: AgentId, ts: seq<TaskSpec>, subordinates: seq<AgentId>): (ms: seq<Message>)
    ensures |ms| <= |ts|
  {
    if ts == [] then []
    else Assignments(me, ts[..|ts| - 1], subordinates) + Offer(me, ts[|ts| - 1], subordinates)
  }

  /** The assignment for one task: sent only when its target is a subordinate. */
  function Offer(me: AgentId, t: TaskSpec, subordinates: seq<AgentId>): (ms: seq<Message>)
    ensures |ms| <= 1
  {
    var target := if "target_agent" in t.metadata then t.metadata["target_agent"] else Null;
    if target.Str? && target.s != "" && target.s in subordinates then
      [Message(me, target.s, map["type" := Str("task_assignment"), "task" := SpecValue(t)], "task_assignment")]
    else []
  }

  /** Assignments go from the coordinator to its subordinates only. */
  lemma {:induction false} AssignmentsToSubordinates(me: AgentId, ts: seq<TaskSpec>, subordinates: seq<AgentId>)
    ensures forall m | m in Assignments(me, ts, subordinates) ::
              m.sender == me && m.receiver in subordinates && m.kind == "task_assignment"
  {
    if ts != [] {
      AssignmentsToSubordinates(me, ts[..|ts| - 1], subordinates);
    }
  }

  /** Subordinate ids are UUID texts, never a role name such as "daedalus", so strategic
      planning never sends an assignment. */
  lemma NoAssignmentsToUuidIds(me: AgentId, phase: string, subordinates: seq<AgentId>)
    requires forall a | a in subordinates :: Str(a) !in RoleTargets
    ensures Assignments(me, PhaseTasks(phase), subordinates) == []
  {
    PhaseTaskMetadata(phase);
    NoAssignments(me, PhaseTasks(phase), subordinates);
  }

  lemma {:induction false} NoAssignments(me: AgentId, ts: seq<TaskSpec>, subordinates: seq<AgentId>)
    requires forall a | a in subordinates :: Str(a) !in RoleTargets
    requires forall i :: 0 <= i < |ts| ==> "target_agent" in ts[i].metadata && ts[i].metadata["target_agent"] in RoleTargets
    ensures Assignments(me, ts, subordinates) == []
  {
    if ts != [] {
      var t := ts[|ts| - 1];
      assert t.metadata["target_agent"] in RoleTargets;
      assert Offer(me, t, subordinates) == [];
      NoAssignments(me, ts[..|ts| - 1], subordinates);
    }
  }

  // ---------------------------------------------------------------------------------
  // Reports and synthesis

  /** What `synthesize_findings` returns; contributions are keyed by agent id text. */
  datatype Synthesis = Synthesis(phase: string, contributions: map<AgentId, Dict>,
                                 insights: seq<Value>, challenges: seq<Value>)

  /** Stands for an `extend` whose outcome rests on the insertion order of a dict's keys
      or on a datetime's ISO text, neither of which the model holds. */
  const Unmodelled := "extending by this value is outside the model"

  /** `list.extend(v)`: a list gives its items, a text its one-character texts and an
      empty dict nothing; a value that cannot be iterated raises. */
  function ListItems(v: Value): (r: Result<seq<Value>, string>)
    ensures v.List? ==> r == Success(v.items)
    ensures v.Str? ==> r.Success? && |r.value| == |v.s| && forall i | 0 <= i < |v.s| :: r.value[i] == Str([v.s[i]])
    ensures v.Null? || v.Bool? || v.Int? || v.Real? ==> r == Failure(NotIterable(v))
  {
    match v
    case List(items) => Success(items)
    case Str(s) => Success(seq(|s|, i requires 0 <= i < |s| => Str([s[i]])))
    case Obj(entries) => if entries == map[] then Success([]) else Failure(Unmodelled)
    case Stamp(_) => Failure(Unmodelled)
    case _ => Failure(NotIterable(v))
  }

  /** One agent's latest report folded into the synthesis so far. */
  function AddLatest(s: Synthesis, a: AgentId, latest: Dict): (r: Result<Synthesis, string>)
    ensures r.Success? ==> r.value.phase == s.phase && r.value.contributions == s.contributions[a := latest]
  {
    var s := s.(contributions := s.contributions[a := latest]);
    var ins := if "insights" in latest then ListItems(latest["insights"]) else Success([]);
    if ins.Failure? then Failure(ins.error)
    else
      var s := s.(insights := s.insights + ins.value);
      var ch := if "challenges" in latest then ListItems(latest["challenges"]) else Success([]);
      if ch.Failure? then Failure(ch.error)
      else Success(s.(challenges := s.challenges + ch.value))
  }

  /** The synthesis over the reporters in order: only each agent's latest report counts. */
  function SynthesisOf(phase: string, reporters: seq<AgentId>, reports: map<AgentId, seq<Dict>>): (r: Result<Synthesis, string>)
    requires forall k | k in reporters :: k in reports
    ensures r.Success? ==> r.value.phase == phase
  {
    if reporters == [] then Success(Synthesis(phase, map[], [], []))
    else
      var init := reporters[..|reporters| - 1];
      var a := reporters[|reporters| - 1];
      assert reporters == init + [a];
      var prev := SynthesisOf(phase, init, reports);
      if prev.Failure? || reports[a] == [] then prev
      else AddLatest(prev.value, a, reports[a][|reports[a]| - 1])
  }

  /** The contributions are exactly the latest report of each agent that has one. */
  lemma {:induction false} SynthesisContributions(phase: string, reporters: seq<AgentId>, reports: map<AgentId, seq<Dict>>)
    requires forall k | k in reporters :: k in reports
    requires SynthesisOf(phase, reporters, reports).Success?
    ensures var c := SynthesisOf(phase, reporters, reports).value.contributions;
      (forall a :: a in c <==> a in reporters && reports[a] != [])
      && forall a | a in c :: c[a] == reports[a][|reports[a]| - 1]
  {
    if reporters != [] {
      var init := reporters[..|reporters| - 1];
      assert reporters == init + [reporters[|reporters| - 1]];
      SynthesisContributions(phase, init, reports);
    }
  }

  /** Reports before an agent's latest one never affect the synthesis. */
  lemma {:induction false} OnlyLatestCounts(phase: string, reporters: seq<AgentId>, reports: map<AgentId, seq<Dict>>,
                                            a: AgentId, earlier: seq<Dict>, latest: Dict)
    requires forall k | k in reporters :: k in reports
    requires a in reports && reports[a] != [] && reports[a][|reports[a]| - 1] == latest
    ensures SynthesisOf(phase, reporters, reports) == SynthesisOf(phase, reporters, reports[a := earlier + [latest]])
  {
    if reporters != [] {
      var init := reporters[..|reporters| - 1];
      OnlyLatestCounts(phase, init, reports, a, earlier, latest);
      var other := reports[a := earlier + [latest]];
      var b := reporters[|reporters| - 1];
      assert (earlier + [latest])[|earlier + [latest]| - 1] == latest;
      assert other[b] != [] <==> reports[b] != [];
      assert reports[b] != [] ==> other[b][|other[b]| - 1] == reports[b][|reports[b]| - 1];
    }
  }

  /** A challenge that is a dict whose "severity" is "critical". */
  predicate IsCritical(c: Value) {
    c.Obj? && "severity" in c.entries && c.entries["severity"] == Str("critical")
  }

  /** `_phase_objectives_met`: raises at the first challenge that is not a dict; otherwise
      whether no challenge is critical. */
  function ObjectivesMet(challenges: seq<Value>): (r: Result<bool, string>)
    ensures r.Success? <==> forall i :: 0 <= i < |challenges| ==> challenges[i].Obj?
    ensures r.Success? ==> (r.value <==> forall i :: 0 <= i < |challenges| ==> !IsCritical(challenges[i]))
    ensures r.Failure? ==> exists i :: 0 <= i < |challenges| && !challenges[i].Obj? && r.error == NoGet(challenges[i])
                                       && forall j :: 0 <= j < i ==> challenges[j].Obj?
  {
    if challenges == [] then Success(true)
    else
      var rest := ObjectivesMet(challenges[1..]);
      assert forall i :: 1 <= i < |challenges| ==> challenges[i] == challenges[1..][i - 1];
      if !challenges[0].Obj? then Failure(NoGet(challenges[0]))
      else if rest.Failure? then
        var k :| 0 <= k < |challenges[1..]| && !challenges[1..][k].Obj? && rest.error == NoGet(challenges[1..][k])
                 && forall j :: 0 <= j < k ==> challenges[1..][j].Obj?;
        assert !challenges[k + 1].Obj? && forall j :: 0 <= j < k + 1 ==> challenges[j].Obj?;
        Failure(rest.error)
      else Success(!IsCritical(challenges[0]) && rest.value)
  }

  /** `_evaluate_phase_completion` once the report count is enough: the phase it moves to,
      `None` for staying put, or a failure raised on the way. */
  function Completion(syn: Result<Synthesis, string>, phases: seq<string>, current: string): (r: Result<Option<string>, string>)
    ensures r.Success? && r.value.Some? ==>
              syn.Success? && ObjectivesMet(syn.value.challenges) == Success(true) && r.value.value in phases
    ensures syn.Success? && ObjectivesMet(syn.value.challenges) == Success(false) ==> r == Success(None)
    ensures syn.Success? && ObjectivesMet(syn.value.challenges) == Success(true) ==> (r.Failure? <==> current !in phases)
  {
    if syn.Failure? then Failure(syn.error)
    else
      var met := ObjectivesMet(syn.value.challenges);
      if met.Failure? then Failure(met.error)
      else if !met.value then Success(None)
      else NextPhase(phases, current)
  }

  // ---------------------------------------------------------------------------------
  // Resources and progress

  const TotalResources: int := 100

  /** What `_optimize_resource_allocation` grants each of `n` subordinates. */
  function Grant(n: nat): (g: Value)
    requires n > 0
    ensures g.Obj? && g.entries.Keys == {"compute_units", "memory_gb", "priority_level"}
    ensures g.entries["priority_level"] == Str("normal")
  {
    var base := TotalResources / n;
    Obj(map["compute_units" := Int(base), "memory_gb" := Int(base * 2), "priority_level" := Str("normal")])
  }

  /** The even split never hands out more than the total, wastes less than one unit per
      subordinate, and gives twice as much memory as compute. */
  lemma GrantSplit(n: nat)
    requires n > 0
    ensures var g := Grant(n).entries;
      g["compute_units"].Int? && g["memory_gb"] == Int(2 * g["compute_units"].i)
      && 0 <= n * g["compute_units"].i <= TotalResources
      && TotalResources - n * g["compute_units"].i < n
  {
    var b := TotalResources / n;
    assert TotalResources == n * b + TotalResources % n;
  }

  /** `m` with every key of `ks` mapped to `v`. */
  function SetAll(m: map<AgentId, Value>, ks: seq<AgentId>, v: Value): map<AgentId, Value> {
    if ks == [] then m else SetAll(m, ks[..|ks| - 1], v)[ks[|ks| - 1] := v]
  }

  /** Every listed key ends up with the value, every other entry is kept. */
  lemma {:induction false} SetAllEntries(m: map<AgentId, Value>, ks: seq<AgentId>, v: Value)
    ensures var r := SetAll(m, ks, v);
      (forall k :: k in r <==> k in m || k in ks) && forall k | k in r :: r[k] == if k in ks then v else m[k]
  {
    if ks != [] {
      var init := ks[..|ks| - 1];
      assert ks == init + [ks[|ks| - 1]];
      SetAllEntries(m, init, v);
    }
  }

  /** The number of reports, over all agents, whose "status" is "completed". */
  function CompletedReports(reporters: seq<AgentId>, reports: map<AgentId, seq<Dict>>): nat
    requires forall k | k in reporters :: k in reports
  {
    if reporters == [] then 0
    else CompletedIn(reports[reporters[0]]) + CompletedReports(reporters[1..], reports)
  }

  function CompletedIn(rs: seq<Dict>): nat {
    if rs == [] then 0
    else (if "status" in rs[0] && rs[0]["status"] == Str("completed") then 1 else 0) + CompletedIn(rs[1..])
  }

  /** `min(completed * 20, 100)`. */
  function ProgressScore(completed: nat): (p: int)
    ensures 0 <= p <= 100
    ensures p == 100 <==> completed >= 5
    ensures completed < 5 ==> p == 20 * completed
  {
    if completed * 20 <= 100 then completed * 20 else 100
  }

  // ---------------------------------------------------------------------------------
  // Task dispatch

  datatype Route = StrategicPlanning | ResourceOptimization | ProgressEvaluation | Generic

  /** `_execute_task_internal`'s dispatch on the lower-cased task name; the first match wins. */
  function RouteOf(name: string): (r: Route)
    ensures r == StrategicPlanning <==> Strings.Contains(Strings.Lower(name), "strategic_planning")
    ensures r == ResourceOptimization <==> (!Strings.Contains(Strings.Lower(name), "strategic_planning")
                                            && Strings.Contains(Strings.Lower(name), "resource_optimization"))
    ensures r == ProgressEvaluation <==> (!Strings.Contains(Strings.Lower(name), "strategic_planning")
                                          && !Strings.Contains(Strings.Lower(name), "resource_optimization")
                                          && Strings.Contains(Strings.Lower(name), "progress_evaluation"))
    ensures r == Generic <==> (!Strings.Contains(Strings.Lower(name), "strategic_planning")
                               && !Strings.Contains(Strings.Lower(name), "resource_optimization")
                               && !Strings.Contains(Strings.Lower(name), "progress_evaluation"))
  {
    var lower := Strings.Lower(name);
    if Strings.Contains(lower, "strategic_planning") then StrategicPlanning
    else if Strings.Contains(lower, "resource_optimization") then ResourceOptimization
    else if Strings.Contains(lower, "progress_evaluation") then ProgressEvaluation
    else Generic
  }

  class AgentPrometheus {
    const base: BaseAgent
    var mission: string
    var currentPhase: string
    var phases: seq<string>
    /** `resource_allocation`, keyed by agent id text. */
    var allocation: map<AgentId, Value>
    /** `agent_reports`, keyed by sender id text, and its key order. */
    var reports: map<AgentId, seq<Dict>>
    var reporters: seq<AgentId>

    ghost predicate Valid()
      reads this
    {
      (forall k :: k in reports <==> k in reporters) && Distinct(reporters)
    }

    constructor (id: AgentId, bus: InMemoryEventBus?, repo: InMemoryRepository?)
      ensures Valid() && fresh(base) && base.Valid()
      ensures base.id == id && base.agentType == Some(Prometheus) && base.bus == bus && base.repo == repo
      ensures !base.active && base.subordinates == [] && base.supervisor == None
      ensures mission == "" && currentPhase == "initialization" && phases == []
      ensures allocation == map[] && reports == map[] && reporters == []
    {
      base := new BaseAgent(id, Some(Prometheus), bus, repo);
      mission, currentPhase, phases := "", "initialization", [];
      allocation, reports, reporters := map[], map[], [];
    }

    /** `initialize_project`: records the mission and phases, starts at the first phase,
        and tells every subordinate. */
    method InitializeProject(m: string, researchPhases: seq<string>)
      modifies this, base.bus
      ensures mission == m && phases == researchPhases && currentPhase == InitialPhase(researchPhases)
      ensures allocation == old(allocation) && reports == old(reports) && reporters == old(reporters)
      ensures base.bus != null ==>
                base.bus.queue == old(base.bus.queue)
                                  + Fanout(base.id, base.subordinates, InitContent(m, researchPhases), "project_update")
      ensures base.bus != null ==> base.bus.subscribers == old(base.bus.subscribers) && base.bus.delivered == old(base.bus.delivered)
    {
      mission, phases := m, researchPhases;
      currentPhase := if researchPhases != [] then researchPhases[0] else "initialization";
      base.BroadcastToSubordinates(InitContent(m, researchPhases), "project_update");
    }

    /** `advance_to_next_phase`: moves on and tells every subordinate, or reports the end
        of the list, or raises for a phase that is not in the list. */
    method AdvanceToNextPhase() returns (r: Result<bool, string>)
      modifies this`currentPhase, base.bus
      ensures var n := NextPhase(phases, old(currentPhase));
        (r.Failure? <==> n.Failure?) && (r.Success? ==> (r.value <==> n.value.Some?))
        && currentPhase == (if n.Success? && n.value.Some? then n.value.value else old(currentPhase))
        && (base.bus != null ==>
              base.bus.queue == old(base.bus.queue)
                                + (if n.Success? && n.value.Some?
                                   then Fanout(base.id, base.subordinates, TransitionContent(n.value.value), "project_update")
                                   else []))
      ensures base.bus != null ==> base.bus.subscribers == old(base.bus.subscribers) && base.bus.delivered == old(base.bus.delivered)
    {
      var n := NextPhase(phases, currentPhase);
      if n.Failure? {
        return Failure(n.error);
      }
      if n.value.None? {
        return Success(false);
      }
      currentPhase := n.value.value;
      base.BroadcastToSubordinates(TransitionContent(currentPhase), "project_update");
      r := Success(true);
    }

    /** `synthesize_findings`, over the report book in key order. */
    method SynthesizeFindings() returns (r: Result<Synthesis, string>)
      requires Valid()
      ensures r == SynthesisOf(currentPhase, reporters, reports)
    {
      r := Synthesize(currentPhase, reporters, reports);
    }

    /** An "agent_report": the content is appended to the sender's list. */
    method RecordReport(sender: AgentId, content: Dict)
      requires Valid()
      modifies this`reports, this`reporters
      ensures Valid()
      ensures reports == old(reports)[sender := (if sender in old(reports) then old(reports)[sender] else []) + [content]]
      ensures reporters == if sender in old(reports) then old(reporters) else old(reporters) + [sender]
    {
      if sender !in reports {
        reports := reports[sender := []];
        reporters := reporters + [sender];
      }
      reports := reports[sender := reports[sender] + [content]];
    }

    /** `_evaluate_phase_completion`: once every subordinate could have reported, the
        phase advances when no reported challenge is critical. */
    method EvaluatePhaseCompletion() returns (r: Result<(), string>)
      requires Valid()
      modifies this`currentPhase, base.bus
      ensures var ready := |reporters| >= |base.subordinates|;
        var c := if ready then Completion(SynthesisOf(old(currentPhase), reporters, reports), phases, old(currentPhase))
                 else Success(None);
        (r.Failure? <==> c.Failure?)
        && currentPhase == (if c.Success? && c.value.Some? then c.value.value else old(currentPhase))
        && (base.bus != null ==>
              base.bus.queue == old(base.bus.queue)
                                + (if c.Success? && c.value.Some?
                                   then Fanout(base.id, base.subordinates, TransitionContent(c.value.value), "project_update")
                                   else []))
      ensures base.bus != null ==> base.bus.subscribers == old(base.bus.subscribers) && base.bus.delivered == old(base.bus.delivered)
    {
      if |reporters| < |base.subordinates| {
        return Success(());
      }
      var syn := SynthesizeFindings();
      if syn.Failure? {
        return Failure(syn.error);
      }
      var met := ObjectivesMet(syn.value.challenges);
      if met.Failure? {
        return Failure(met.error);
      }
      if met.value {
        var advanced := AdvanceToNextPhase();
        if advanced.Failure? {
          return Failure(advanced.error);
        }
      }
      r := Success(());
    }

    /** `allocate_resources`: records the grant under the agent's id text and tells it. */
    method AllocateResources(agent: AgentId, resources: Value)
      modifies this`allocation, base.bus
      ensures allocation == old(allocation)[agent := resources]
      ensures base.bus != null ==>
                base.bus.queue == old(base.bus.queue) + [Message(base.id, agent, AllocationContent(resources), "resource_management")]
      ensures base.bus != null ==> base.bus.subscribers == old(base.bus.subscribers) && base.bus.delivered == old(base.bus.delivered)
    {
      allocation := allocation[agent := resources];
      base.SendMessage(agent, AllocationContent(resources), "resource_management");
    }

    /** `_optimize_resource_allocation`: every subordinate gets the same even share of the
        100 units, and is told so; with no subordinates nothing happens. */
    method OptimizeResourceAllocation() returns (result: Dict)
      modifies this`allocation, base.bus
      ensures var n := |base.subordinates|;
        allocation == (if n > 0 then SetAll(old(allocation), base.subordinates, Grant(n)) else old(allocation))
        && (base.bus != null ==>
              base.bus.queue == old(base.bus.queue)
                                + (if n > 0 then Fanout(base.id, base.subordinates, AllocationContent(Grant(n)), "resource_management")
                                   else []))
        && result == map["status" := Str("completed"), "total_resources" := Int(TotalResources), "agents_allocated" := Int(n)]
      ensures base.bus != null ==> base.bus.subscribers == old(base.bus.subscribers) && base.bus.delivered == old(base.bus.delivered)
    {
      var subs := base.subordinates;
      var n := |subs|;
      if n > 0 {
        var grant := Grant(n);
        for i := 0 to n
          invariant allocation == SetAll(old(allocation), subs[..i], grant)
          invariant base.bus != null ==>
                      base.bus.queue == old(base.bus.queue) + Fanout(base.id, subs[..i], AllocationContent(grant), "resource_management")
          invariant base.bus != null ==> base.bus.subscribers == old(base.bus.subscribers) && base.bus.delivered == old(base.bus.delivered)
        {
          AllocateResources(subs[i], grant);
          assert subs[..i + 1] == subs[..i] + [subs[i]];
          assert subs[..i + 1][..i] == subs[..i];
          FanoutSnoc(base.id, subs[..i], subs[i], AllocationContent(grant), "resource_management");
        }
        assert subs[..n] == subs;
      }
      result := map["status" := Str("completed"), "total_resources" := Int(TotalResources), "agents_allocated" := Int(n)];
    }

    /** `_evaluate_project_progress`: the score from the completed reports together with
        the synthesis, or the synthesis's failure. */
    method EvaluateProjectProgress() returns (r: Result<Dict, string>)
      requires Valid()
      ensures var syn := SynthesisOf(currentPhase, reporters, reports);
        (syn.Failure? <==> r.Failure?)
        && (r.Success? ==> r.value == ProgressReport(ProgressScore(CompletedReports(reporters, reports)), syn.value, currentPhase))
    {
      var syn := SynthesizeFindings();
      if syn.Failure? {
        return Failure(syn.error);
      }
      r := Success(ProgressReport(ProgressScore(CompletedReports(reporters, reports)), syn.value, currentPhase));
    }

    /** One step of strategic planning: the task goes to its target if that is a subordinate. */
    method OfferTask(t: TaskSpec)
      modifies base.bus
      ensures base.bus != null ==> base.bus.queue == old(base.bus.queue) + Offer(base.id, t, base.subordinates)
      ensures base.bus != null ==> base.bus.subscribers == old(base.bus.subscribers) && base.bus.delivered == old(base.bus.delivered)
    {
      var target := if "target_agent" in t.metadata then t.metadata["target_agent"] else Null;
      if target.Str? && target.s != "" && target.s in base.subordinates {
        base.SendMessage(target.s, map["type" := Str("task_assignment"), "task" := SpecValue(t)], "task_assignment");
      }
    }

    /** The strategic planning loop: each task offered in order. */
    method OfferAll(ts: seq<TaskSpec>)
      modifies base.bus
      ensures base.bus != null ==> base.bus.queue == old(base.bus.queue) + Assignments(base.id, ts, base.subordinates)
      ensures base.bus != null ==> base.bus.subscribers == old(base.bus.subscribers) && base.bus.delivered == old(base.bus.delivered)
    {
      for i := 0 to |ts|
        invariant base.bus != null ==>
                    base.bus.queue == old(base.bus.queue) + Assignments(base.id, ts[..i], base.subordinates)
        invariant base.bus != null ==> base.bus.subscribers == old(base.bus.subscribers) && base.bus.delivered == old(base.bus.delivered)
      {
        assert ts[..i + 1][..i] == ts[..i] && ts[..i + 1][i] == ts[i];
        OfferTask(ts[i]);
      }
      assert ts[..|ts|] == ts;
    }

    /** `_perform_strategic_planning`: sends each task of the current phase to its target
        when the target is a subordinate. */
    method PerformStrategicPlanning() returns (result: Dict)
      modifies base.bus
      ensures base.bus != null ==>
                base.bus.queue == old(base.bus.queue) + Assignments(base.id, PhaseTasks(currentPhase), base.subordinates)
      ensures base.bus != null ==> base.bus.subscribers == old(base.bus.subscribers) && base.bus.delivered == old(base.bus.delivered)
      ensures result == map["status" := Str("completed"), "tasks_generated" := Int(|PhaseTasks(currentPhase)|),
                            "current_phase" := Str(currentPhase)]
    {
      var ts := PhaseTasks(currentPhase);
      OfferAll(ts);
      result := map["status" := Str("completed"), "tasks_generated" := Int(|ts|), "current_phase" := Str(currentPhase)];
    }

    /** The agent-report branch of `_process_message_internal`: the report is filed, and
        once as many agents have reported as there are subordinates the findings are
        synthesised and the phase completion rule applied. */
    method HandleAgentReport(sender: AgentId, content: Dict) returns (r: Result<Option<Message>, string>)
      requires Valid()
      modifies this`reports, this`reporters, this`currentPhase, base.bus
      ensures Valid()
      ensures reports == old(reports)[sender := (if sender in old(reports) then old(reports)[sender] else []) + [content]]
      ensures reporters == if sender in old(reports) then old(reporters) else old(reporters) + [sender]
      ensures var c := if |reporters| >= |base.subordinates|
                       then Completion(SynthesisOf(old(currentPhase), reporters, reports), phases, old(currentPhase))
                       else Success(None);
        (r.Failure? <==> c.Failure?) && (r.Success? ==> r.value.None?)
        && currentPhase == (if c.Success? && c.value.Some? then c.value.value else old(currentPhase))
        && (base.bus != null ==>
              base.bus.queue == old(base.bus.queue)
                                + (if c.Success? && c.value.Some?
                                   then Fanout(base.id, base.subordinates, TransitionContent(c.value.value), "project_update")
                                   else []))
      ensures base.bus != null ==> base.bus.subscribers == old(base.bus.subscribers) && base.bus.delivered == old(base.bus.delivered)
    {
      RecordReport(sender, content);
      if |reporters| >= |base.subordinates| {
        var first := SynthesizeFindings();
        if first.Failure? {
          return Failure(first.error);
        }
      }
      var e := EvaluatePhaseCompletion();
      if e.Failure? {
        return Failure(e.error);
      }
      r := Success(None);
    }

    /** `_process_message_internal`: reports, safety alerts and resource requests; any
        other kind is ignored. It never replies. */
    method ProcessMessage(m: Message) returns (r: Result<Option<Message>, string>)
      requires Valid()
      modifies this, base.bus
      ensures Valid()
      ensures r.Success? ==> r.value.None?
      ensures m.kind != "agent_report" ==>
                r == Success(None) && reports == old(reports) && reporters == old(reporters) && currentPhase == old(currentPhase)
      ensures m.kind == "agent_report" ==>
                reports == old(reports)[m.sender := (if m.sender in old(reports) then old(reports)[m.sender] else []) + [m.content]]
                && reporters == (if m.sender in old(reports) then old(reporters) else old(reporters) + [m.sender])
      ensures m.kind == "agent_report" ==>
                var c := if |reporters| >= |base.subordinates|
                         then Completion(SynthesisOf(old(currentPhase), reporters, reports), phases, old(currentPhase))
                         else Success(None);
                (r.Failure? <==> c.Failure?)
                && currentPhase == (if c.Success? && c.value.Some? then c.value.value else old(currentPhase))
                && (base.bus != null ==>
                      base.bus.queue == old(base.bus.queue)
                                        + (if c.Success? && c.value.Some?
                                           then Fanout(base.id, base.subordinates, TransitionContent(c.value.value), "project_update")
                                           else []))
      ensures m.kind != "resource_request" ==> allocation == old(allocation)
      ensures m.kind == "safety_alert" && base.bus != null ==>
                base.bus.queue == old(base.bus.queue) + Fanout(base.id, base.subordinates, AlertBroadcast(m.content), "safety_alert")
      ensures m.kind == "resource_request" ==> allocation == old(allocation)[m.sender := Requested(m.content)]
      ensures m.kind == "resource_request" && base.bus != null ==>
                base.bus.queue == old(base.bus.queue)
                                  + [Message(base.id, m.sender, AllocationContent(Requested(m.content)), "resource_management")]
      ensures m.kind !in {"agent_report", "safety_alert", "resource_request"} ==>
                allocation == old(allocation) && (base.bus != null ==> base.bus.queue == old(base.bus.queue))
      ensures mission == old(mission) && phases == old(phases)
      ensures base.bus != null ==> base.bus.subscribers == old(base.bus.subscribers) && base.bus.delivered == old(base.bus.delivered)
    {
      if m.kind == "agent_report" {
        r := HandleAgentReport(m.sender, m.content);
      } else if m.kind == "safety_alert" {
        base.BroadcastToSubordinates(AlertBroadcast(m.content), "safety_alert");
        r := Success(None);
      } else if m.kind == "resource_request" {
        AllocateResources(m.sender, Requested(m.content));
        r := Success(None);
      } else {
        r := Success(None);
      }
    }

    /** `_execute_task_internal`: the coordination action chosen by the task's name. */
    method ExecuteTaskInternal(name: string) returns (r: Outcome)
      requires Valid()
      modifies this, base.bus
      ensures Valid()
      ensures mission == old(mission) && phases == old(phases) && currentPhase == old(currentPhase)
      ensures reports == old(reports) && reporters == old(reporters)
      ensures RouteOf(name) == Generic ==>
                r == Success(map["status" := Str("completed"), "message" := Str("Generic task " + name + " completed")])
      ensures RouteOf(name) == StrategicPlanning ==>
                r == Success(map["status" := Str("completed"), "tasks_generated" := Int(|PhaseTasks(currentPhase)|),
                                 "current_phase" := Str(currentPhase)])
                && (base.bus != null ==>
                      base.bus.queue == old(base.bus.queue) + Assignments(base.id, PhaseTasks(currentPhase), base.subordinates))
      ensures RouteOf(name) == ResourceOptimization ==>
                var n := |base.subordinates|;
                r == Success(map["status" := Str("completed"), "total_resources" := Int(TotalResources), "agents_allocated" := Int(n)])
                && allocation == (if n > 0 then SetAll(old(allocation), base.subordinates, Grant(n)) else old(allocation))
      ensures RouteOf(name) == ProgressEvaluation ==>
                var syn := SynthesisOf(currentPhase, reporters, reports);
                (r.Failure? <==> syn.Failure?)
                && (r.Success? ==> r.value == ProgressReport(ProgressScore(CompletedReports(reporters, reports)), syn.value, currentPhase))
      ensures RouteOf(name) != ResourceOptimization ==> allocation == old(allocation)
      ensures RouteOf(name) in {Generic, ProgressEvaluation} && base.bus != null ==> base.bus.queue == old(base.bus.queue)
      ensures base.bus != null ==> base.bus.subscribers == old(base.bus.subscribers) && base.bus.delivered == old(base.bus.delivered)
    {
      var route := RouteOf(name);
      if route == StrategicPlanning {
        var d := PerformStrategicPlanning();
        r := Success(d);
      } else if route == ResourceOptimization {
        var d := OptimizeResourceAllocation();
        r := Success(d);
      } else if route == ProgressEvaluation {
        r := EvaluateProjectProgress();
      } else {
        r := Success(map["status" := Str("completed"), "message" := Str("Generic task " + name + " completed")]);
      }
    }
  }

  /** The loop of `synthesize_findings` over the report book in key order. */
  method Synthesize(phase: string, order: seq<AgentId>, book: map<AgentId, seq<Dict>>) returns (r: Result<Synthesis, string>)
    requires forall k | k in order :: k in book
    ensures r == SynthesisOf(phase, order, book)
  {
    var s := Synthesis(phase, map[], [], []);
    for i := 0 to |order|
      invariant SynthesisOf(phase, order[..i], book) == Success(s)
    {
      var a := order[i];
      assert order[..i + 1][..i] == order[..i];
      var rs := book[a];
      if rs != [] {
        var next := AddLatest(s, a, rs[|rs| - 1]);
        if next.Failure? {
          assert order[..i + 1] + order[i + 1..] == order;
          SynthesisFailureSticks(phase, order[..i + 1], order[i + 1..], book);
          return next;
        }
        s := next.value;
      }
    }
    assert order[..|order|] == order;
    r := Success(s);
  }

  function InitContent(mission: string, phases: seq<string>): Dict {
    map["type" := Str("project_initialization"), "mission" := Str(mission),
        "current_phase" := Str(InitialPhase(phases)),
        "research_phases" := List(seq(|phases|, i requires 0 <= i < |phases| => Str(phases[i])))]
  }

  /** The resources a request asks for: its "resources" entry, or an empty dict. */
  function Requested(content: Dict): Value {
    if "resources" in content then content["resources"] else Obj(map[])
  }

  /** The broadcast relaying a safety alert to every subordinate. */
  function AlertBroadcast(alert: Dict): Dict {
    map["type" := Str("safety_alert"), "alert" := Obj(alert), "action_required" := Bool(true)]
  }

  function SynthesisValue(s: Synthesis): Value {
    Obj(map["phase" := Str(s.phase),
            "agent_contributions" := Obj(map a | a in s.contributions :: Obj(s.contributions[a])),
            "key_insights" := List(s.insights), "next_steps" := List([]), "challenges" := List(s.challenges)])
  }

  /** What `_evaluate_project_progress` returns. */
  function ProgressReport(score: int, s: Synthesis, phase: string): Dict {
    map["status" := Str("completed"), "progress_score" := Int(score), "synthesis" := SynthesisValue(s),
        "current_phase" := Str(phase)]
  }

  function TransitionContent(phase: string): Dict {
    map["type" := Str("phase_transition"), "new_phase" := Str(phase)]
  }

  function AllocationContent(resources: Value): Dict {
    map["type" := Str("resource_allocation"), "resources" := resources]
  }

  /** Once a prefix of the reporters fails, the whole synthesis fails the same way. */
  lemma {:induction false} SynthesisFailureSticks(phase: string, pre: seq<AgentId>, post: seq<AgentId>,
                                                  reports: map<AgentId, seq<Dict>>)
    requires forall k | k in pre + post :: k in reports
    requires SynthesisOf(phase, pre, reports).Failure?
    ensures SynthesisOf(phase, pre + post, reports) == SynthesisOf(phase, pre, reports)
  {
    if post != [] {
      var init := post[..|post| - 1];
      assert (pre + post)[..|pre + post| - 1] == pre + init;
      SynthesisFailureSticks(phase, pre, init, reports);
    } else {
      assert pre + post == pre;
    }
  }
}
