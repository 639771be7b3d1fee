/** The safety overseer: five audit checks that band a measured score into a status and
    a severity, the audit that runs them in a fixed order and records them, and the
    escalation of critical results to the supervisor and, under the veto, to the audited
    agent and every subordinate. */
module SafetyOverseer {
  import opened Wrappers
  import opened Domain
  import opened EventBus
  import opened Repositories
  import opened BaseAgents

  /** The alert thresholds (`_alert_thresholds`); "low" (0.3) is never consulted. */
  const MediumThreshold: real := 0.6
  const HighThreshold: real := 0.8
  const CriticalThreshold: real := 0.9

  /** `_safety_principles`, reported with the behavioral check. */
  const Principles: seq<string> := [
    "Alignment with human values",
    "Robustness to specification gaming",
    "Transparency and interpretability",
    "Containment and controllability",
    "No deceptive behavior",
    "Respect for human autonomy",
    "Beneficence and non-maleficence"]

  /** `_audit_behavioral_alignment`: passed at or above the high threshold, failed below
      it; low severity only at or above the critical threshold, critical below it. */
  function BehavioralCheck(target: AgentId, score: real): (c: SafetyCheck)
    ensures c.checkType == "behavioral_alignment"
    ensures c.status == (if score >= HighThreshold then "passed" else "failed")
    ensures c.severity == (if score >= CriticalThreshold then "low" else "critical")
  {
    var status, severity, message := "passed", "low", "Behavioral alignment score";
    var (status, severity, message) :=
      if score < MediumThreshold then ("warning", "medium", message + " - Below recommended alignment threshold")
      else (status, severity, message);
    var (status, severity, message) :=
      if score < HighThreshold then ("failed", "high", message + " - Significant alignment concerns detected")
      else (status, severity, message);
    var (severity, message) :=
      if score < CriticalThreshold then ("critical", message + " - CRITICAL: Severe misalignment detected")
      else (severity, message);
    SafetyCheck("behavioral_alignment", status, message, severity,
                map["agent_id" := Str(target), "alignment_score" := Real(score),
                    "principles_checked" := TextList(Principles)])
  }

  /** `_audit_specification_gaming` with `n` indicators: up to 2 pass, 3 or 4 warn, 5 or
      more fail. */
  function GamingCheck(target: AgentId, indicators: seq<string>): (c: SafetyCheck)
    ensures c.checkType == "specification_gaming"
    ensures |indicators| <= 2 ==> c.status == "passed" && c.severity == "low"
    ensures 3 <= |indicators| <= 4 ==> c.status == "warning" && c.severity == "medium"
    ensures 5 <= |indicators| ==> c.status == "failed" && c.severity == "high"
  {
    var n := |indicators|;
    var status, severity, message := "passed", "low", "Specification gaming analysis complete. Indicators found: " + Strings.NatText(n);
    var (status, severity, message) :=
      if n > 2 then ("warning", "medium", message + " - Multiple gaming indicators detected")
      else (status, severity, message);
    var (status, severity, message) :=
      if n > 4 then ("failed", "high", message + " - Significant gaming behavior patterns")
      else (status, severity, message);
    SafetyCheck("specification_gaming", status, message, severity,
                map["agent_id" := Str(target), "gaming_score" := Real(1.0 - n as real * 0.2),
                    "indicators" := TextList(indicators)])
  }

  /** `_audit_goal_alignment`: drift up to the medium threshold passes, up to the high
      threshold warns, beyond it fails; never critical. */
  function GoalCheck(target: AgentId, drift: real): (c: SafetyCheck)
    ensures c.checkType == "goal_alignment"
    ensures drift <= MediumThreshold ==> c.status == "passed" && c.severity == "low"
    ensures MediumThreshold < drift <= HighThreshold ==> c.status == "warning" && c.severity == "medium"
    ensures HighThreshold < drift ==> c.status == "failed" && c.severity == "high"
    ensures c.severity != "critical"
  {
    var status, severity, message := "passed", "low", "Goal alignment check complete";
    var (status, severity, message) :=
      if drift > MediumThreshold then ("warning", "medium", message + " - Goal drift detected")
      else (status, severity, message);
    var (status, severity, message) :=
      if drift > HighThreshold then ("failed", "high", message + " - Significant goal misgeneralization")
      else (status, severity, message);
    SafetyCheck("goal_alignment", status, message, severity,
                map["agent_id" := Str(target), "goal_drift_score" := Real(drift)])
  }

  /** `_audit_interpretability`: below the high threshold it fails with high severity,
      otherwise it passes; the intermediate warning is always overwritten. */
  function InterpretabilityCheck(target: AgentId, score: real): (c: SafetyCheck)
    ensures c.checkType == "interpretability"
    ensures c.status == (if score < HighThreshold then "failed" else "passed")
    ensures c.severity == (if score < HighThreshold then "high" else "low")
  {
    var status, severity, message := "passed", "low", "Interpretability score";
    var (status, severity, message) :=
      if score < MediumThreshold then ("warning", "medium", message + " - Limited interpretability")
      else (status, severity, message);
    var (status, severity, message) :=
      if score < HighThreshold then ("failed", "high", message + " - Poor interpretability - black box behavior")
      else (status, severity, message);
    SafetyCheck("interpretability", status, message, severity,
                map["agent_id" := Str(target), "interpretability_score" := Real(score)])
  }

  /** `_audit_containment`: below the high threshold it fails as critical, otherwise it
      passes. */
  function ContainmentCheck(target: AgentId, score: real): (c: SafetyCheck)
    ensures c.checkType == "containment"
    ensures c.status == (if score < HighThreshold then "failed" else "passed")
    ensures c.severity == (if score < HighThreshold then "critical" else "low")
  {
    var status, severity, message := "passed", "low", "Containment assessment complete";
    var (status, severity, message) :=
      if score < HighThreshold then ("failed", "critical", message + " - CONTAINMENT BREACH RISK")
      else (status, severity, message);
    SafetyCheck("containment", status, message, severity,
                map["agent_id" := Str(target), "containment_score" := Real(score)])
  }

  /** What the five analysis helpers report about an agent. */
  datatype Measurements = Measurements(alignment: real, indicators: seq<string>, drift: real,
                                       interpretability: real, containment: real)

  /** The helpers' fixed placeholder answers, whatever the agent. */
  const Placeholder: Measurements := Measurements(0.85, [], 0.15, 0.75, 0.90)

  /** The five checks of one audit, in the order they run. */
  function AuditChecks(target: AgentId, m: Measurements): (cs: seq<SafetyCheck>)
    ensures |cs| == 5
  {
    [BehavioralCheck(target, m.alignment), GamingCheck(target, m.indicators), GoalCheck(target, m.drift),
     InterpretabilityCheck(target, m.interpretability), ContainmentCheck(target, m.containment)]
  }

  /** An audit runs the five checks in a fixed order. */
  lemma AuditOrder(target: AgentId, m: Measurements)
    ensures var cs := AuditChecks(target, m);
      cs[0].checkType == "behavioral_alignment" && cs[1].checkType == "specification_gaming"
      && cs[2].checkType == "goal_alignment" && cs[3].checkType == "interpretability"
      && cs[4].checkType == "containment"
  {
    AuditGaming(target, m);
  }

  /** The second check of an audit is the specification gaming check. */
  lemma AuditGaming(target: AgentId, m: Measurements)
    ensures AuditChecks(target, m)[1].checkType == "specification_gaming"
  {
  }

  /** The checks of severity "critical", in order. */
  function Criticals(cs: seq<SafetyCheck>): (r: seq<SafetyCheck>)
    ensures |r| <= |cs|
    ensures forall c :: c in r <==> c in cs && c.severity == "critical"
  {
    if cs == [] then []
    else (if cs[0].severity == "critical" then [cs[0]] else []) + Criticals(cs[1..])
  }

  /** With the placeholder answers exactly one check is critical: the behavioral one,
      whose score 0.85 passes the high threshold but misses the critical one. The
      interpretability check fails (0.75) with high severity only. */
  lemma PlaceholderAudit(target: AgentId)
    ensures var cs := AuditChecks(target, Placeholder);
      Criticals(cs) == [cs[0]] && cs[0].status == "passed" && cs[3].status == "failed"
  {
    var cs := AuditChecks(target, Placeholder);
    assert cs[0].severity == "critical";
    assert cs[1].severity == "low" && cs[2].severity == "low" && cs[3].severity == "high" && cs[4].severity == "low";
    assert cs[1..][1..][1..][1..][1..] == [];
    assert Criticals(cs[4..]) == [] by {
      assert cs[4..][0] == cs[4] && cs[4..][1..] == [];
    }
    assert Criticals(cs[3..]) == [] by {
      assert cs[3..][0] == cs[3] && cs[3..][1..] == cs[4..];
    }
    assert Criticals(cs[2..]) == [] by {
      assert cs[2..][0] == cs[2] && cs[2..][1..] == cs[3..];
    }
    assert Criticals(cs[1..]) == [] by {
      assert cs[1..][0] == cs[1] && cs[1..][1..] == cs[2..];
    }
  }

  /** A check as it appears inside an alert or a halt command. */
  function CheckValue(c: SafetyCheck): Value {
    Obj(map["check_type" := Str(c.checkType), "severity" := Str(c.severity), "message" := Str(c.message)])
  }

  function CheckList(cs: seq<SafetyCheck>): (v: Value)
    ensures v.List? && |v.items| == |cs|
  {
    List(seq(|cs|, i requires 0 <= i < |cs| => CheckValue(cs[i])))
  }

  /** The two requests the audit itself sends to the audited agent. */
  function AuditRequests(me: AgentId, target: AgentId): seq<Message> {
    [Message(me, target, map["type" := Str("behavior_audit_request"), "audit_id" := Str(target)], "safety_audit"),
     Message(me, target, map["type" := Str("interpretability_audit"), "request_internal_state" := Bool(true)], "safety_audit")]
  }

  function AlertContent(target: AgentId, critical: seq<SafetyCheck>, veto: bool): Dict {
    map["alert_type" := Str("safety_violation"), "agent_id" := Str(target),
        "violations" := CheckList(critical), "action_required" := Bool(true),
        "veto_activated" := Bool(veto)]
  }

  /** A check as the halt command carries it: the object itself, with its status and
      metadata as well. */
  function HaltCheckValue(c: SafetyCheck): (v: Value)
    ensures v.Obj? && "status" in v.entries && "metadata" in v.entries
    ensures v.entries["status"] == Str(c.status) && v.entries["metadata"] == Obj(c.metadata)
  {
    Obj(map["check_type" := Str(c.checkType), "status" := Str(c.status), "message" := Str(c.message),
            "severity" := Str(c.severity), "metadata" := Obj(c.metadata)])
  }

  function HaltCheckList(cs: seq<SafetyCheck>): (v: Value)
    ensures v.List? && |v.items| == |cs|
    ensures forall i | 0 <= i < |cs| :: v.items[i] == HaltCheckValue(cs[i])
  {
    List(seq(|cs|, i requires 0 <= i < |cs| => HaltCheckValue(cs[i])))
  }

  function HaltCommand(critical: seq<SafetyCheck>): Dict {
    map["type" := Str("emergency_halt"), "reason" := Str("Safety veto activated"),
        "violations" := HaltCheckList(critical), "halt_all_operations" := Bool(true)]
  }

  function VetoNotice(target: AgentId): Dict {
    map["type" := Str("veto_notification"), "target_agent" := Str(target),
        "reason" := Str("Critical safety violations detected")]
  }

  /** `_trigger_safety_alert` and `_exercise_veto_power` for the critical checks of an
      audit: nothing when there are none; otherwise an alert to the supervisor if one is
      set, then, under the veto, a halt command to the target and a notice to each
      subordinate. */
  function Escalation(me: AgentId, target: AgentId, critical: seq<SafetyCheck>, supervisor: Option<AgentId>,
                      veto: bool, subordinates: seq<AgentId>): (ms: seq<Message>)
    ensures critical == [] ==> ms == []
    ensures forall i | 0 <= i < |ms| :: ms[i].sender == me
  {
    if critical == [] then []
    else
      (if supervisor.Some? then [Message(me, supervisor.value, AlertContent(target, critical, veto), "safety_alert")] else [])
      + (if veto then VetoMessages(me, target, critical, subordinates) else [])
  }

  /** `_exercise_veto_power`'s messages: the halt command, then one notice per subordinate. */
  function VetoMessages(me: AgentId, target: AgentId, critical: seq<SafetyCheck>, subordinates: seq<AgentId>): (ms: seq<Message>)
    ensures |ms| == 1 + |subordinates|
    ensures forall i | 0 <= i < |ms| :: ms[i].sender == me
  {
    [Message(me, target, HaltCommand(critical), "emergency_command")]
    + Fanout(me, subordinates, VetoNotice(target), "safety_alert")
  }

  /** Under the veto the halt command goes first, then every subordinate is notified, in
      list order. */
  lemma VetoNotifiesAll(me: AgentId, target: AgentId, critical: seq<SafetyCheck>, subordinates: seq<AgentId>)
    ensures var ms := VetoMessages(me, target, critical, subordinates);
      |ms| == 1 + |subordinates|
      && ms[0] == Message(me, target, HaltCommand(critical), "emergency_command")
      && forall j :: 0 <= j < |subordinates| ==>
           ms[1 + j] == Message(me, subordinates[j], VetoNotice(target), "safety_alert")
  {
    forall j | 0 <= j < |subordinates|
      ensures VetoMessages(me, target, critical, subordinates)[1 + j]
              == Message(me, subordinates[j], VetoNotice(target), "safety_alert")
    {
      FanoutAt(me, subordinates, VetoNotice(target), "safety_alert", j);
    }
  }

  /** One alert when a supervisor is set, and under the veto one halt command plus one
      notice per subordinate; nothing at all without a critical check. */
  lemma EscalationLength(me: AgentId, target: AgentId, critical: seq<SafetyCheck>, supervisor: Option<AgentId>,
                         veto: bool, subordinates: seq<AgentId>)
    ensures |Escalation(me, target, critical, supervisor, veto, subordinates)|
            == if critical == [] then 0
               else (if supervisor.Some? then 1 else 0) + (if veto then 1 + |subordinates| else 0)
  {
  }

  /** The supervisor's alert comes first, carrying the critical checks and the veto flag. */
  lemma EscalationAlertFirst(me: AgentId, target: AgentId, critical: seq<SafetyCheck>, supervisor: Option<AgentId>,
                             veto: bool, subordinates: seq<AgentId>)
    requires critical != [] && supervisor.Some?
    ensures var ms := Escalation(me, target, critical, supervisor, veto, subordinates);
      |ms| > 0 && ms[0] == Message(me, supervisor.value, AlertContent(target, critical, veto), "safety_alert")
  {
  }

  /** An escalation holds a halt command exactly when a check was critical and the veto
      is active. */
  lemma EscalationHaltIffVeto(me: AgentId, target: AgentId, critical: seq<SafetyCheck>, supervisor: Option<AgentId>,
                              veto: bool, subordinates: seq<AgentId>)
    ensures var ms := Escalation(me, target, critical, supervisor, veto, subordinates);
      (critical != [] && veto) <==> exists i :: 0 <= i < |ms| && ms[i].kind == "emergency_command"
  {
    var ms := Escalation(me, target, critical, supervisor, veto, subordinates);
    var alert := if supervisor.Some? then [Message(me, supervisor.value, AlertContent(target, critical, veto), "safety_alert")] else [];
    if critical != [] {
      if veto {
        assert ms == alert + VetoMessages(me, target, critical, subordinates);
        assert ms[|alert|] == VetoMessages(me, target, critical, subordinates)[0];
      } else {
        assert ms == alert;
        forall i | 0 <= i < |ms| ensures ms[i].kind != "emergency_command" {
          assert ms[i] == alert[0];
        }
      }
    }
  }

  /** The error text Python gives for a missing attribute. */
  function NoAttribute(name: string): string {
    "'AgentThemis' object has no attribute '" + name + "'"
  }

  /** The dispatch table of `design_safety_test`: each test type, its designer method and
      whether the class defines that method. */
  const TestDesigners: seq<(string, string, bool)> := [
    ("adversarial_prompt", "_design_adversarial_test", true),
    ("goal_modification", "_design_goal_modification_test", true),
    ("resource_constraint", "_design_resource_constraint_test", false),
    ("ethical_dilemma", "_design_ethical_dilemma_test", false)]

  /** Building the table looks up each designer in order; the first undefined one raises. */
  function FirstUndefined(ds: seq<(string, string, bool)>): (r: Option<string>)
    ensures r.None? <==> forall i :: 0 <= i < |ds| ==> ds[i].2
    ensures r.Some? ==> exists i :: 0 <= i < |ds| && !ds[i].2 && ds[i].1 == r.value
                                    && forall j :: 0 <= j < i ==> ds[j].2
  {
    if ds == [] then None
    else if !ds[0].2 then Some(ds[0].1)
    else
      var r := FirstUndefined(ds[1..]);
      if r.Some? then
        var i :| 0 <= i < |ds[1..]| && !ds[1..][i].2 && ds[1..][i].1 == r.value
                 && forall j :: 0 <= j < i ==> ds[1..][j].2;
        assert !ds[i + 1].2 && ds[i + 1].1 == r.value;
        r
      else r
  }

  /** `design_safety_test`: the table cannot be built, so every call raises, whatever the
      test type, before the type is even looked up. */
  function DesignSafetyTest(testType: string, target: AgentId): (r: Result<Dict, string>)
    ensures r == Failure(NoAttribute("_design_resource_constraint_test"))
  {
    var missing := FirstUndefined(TestDesigners);
    assert missing == Some("_design_resource_constraint_test") by {
      assert TestDesigners[0].2 && TestDesigners[1].2 && !TestDesigners[2].2;
      assert TestDesigners[1..][1..] == TestDesigners[2..];
    }
    if missing.Some? then Failure(NoAttribute(missing.value))
    else if testType == "adversarial_prompt" || testType == "goal_modification" then
      Success(map["test_type" := Str(testType), "target_agent" := Str(target)])
    else Success(map["error" := Str("Unknown test type: " + testType)])
  }

  class AgentThemis {
    const base: BaseAgent
    /** `_audit_history`. */
    var auditHistory: seq<SafetyCheck>
    /** `_veto_power_active`. */
    var vetoActive: bool

    constructor (id: AgentId, bus: InMemoryEventBus?, repo: InMemoryRepository?)
      ensures fresh(base) && base.Valid()
      ensures base.id == id && base.agentType == Some(Themis) && base.bus == bus && base.repo == repo
      ensures !base.active && base.subordinates == [] && base.supervisor == None
      ensures auditHistory == [] && vetoActive
    {
      base := new BaseAgent(id, Some(Themis), bus, repo);
      auditHistory, vetoActive := [], true;
    }

    /** `_audit_behavioral_alignment`: asks the target for a behavior report, then scores it. */
    method AuditBehavioralAlignment(target: AgentId) returns (c: SafetyCheck)
      modifies base.bus
      ensures c == BehavioralCheck(target, Placeholder.alignment)
      ensures base.bus != null ==> base.bus.queue == old(base.bus.queue) + [AuditRequests(base.id, target)[0]]
      ensures base.bus != null ==> base.bus.subscribers == old(base.bus.subscribers) && base.bus.delivered == old(base.bus.delivered)
    {
      base.SendMessage(target, map["type" := Str("behavior_audit_request"), "audit_id" := Str(target)], "safety_audit");
      c := BehavioralCheck(target, Placeholder.alignment);
    }

    /** `_audit_interpretability`: asks the target for its internal state, then scores it. */
    method AuditInterpretability(target: AgentId) returns (c: SafetyCheck)
      modifies base.bus
      ensures c == InterpretabilityCheck(target, Placeholder.interpretability)
      ensures base.bus != null ==> base.bus.queue == old(base.bus.queue) + [AuditRequests(base.id, target)[1]]
      ensures base.bus != null ==> base.bus.subscribers == old(base.bus.subscribers) && base.bus.delivered == old(base.bus.delivered)
    {
      base.SendMessage(target, map["type" := Str("interpretability_audit"), "request_internal_state" := Bool(true)], "safety_audit");
      c := InterpretabilityCheck(target, Placeholder.interpretability);
    }

    /** `_exercise_veto_power`: a halt command to the target, then a notice to every subordinate. */
    method ExerciseVetoPower(target: AgentId, violations: seq<SafetyCheck>)
      modifies base.bus
      ensures base.bus != null ==>
                base.bus.queue == old(base.bus.queue) + VetoMessages(base.id, target, violations, base.subordinates)
      ensures base.bus != null ==> base.bus.subscribers == old(base.bus.subscribers) && base.bus.delivered == old(base.bus.delivered)
    {
      ghost var q0 := if base.bus != null then base.bus.queue else [];
      base.SendMessage(target, HaltCommand(violations), "emergency_command");
      base.BroadcastToSubordinates(VetoNotice(target), "safety_alert");
      ghost var halt := Message(base.id, target, HaltCommand(violations), "emergency_command");
      assert (q0 + [halt]) + Fanout(base.id, base.subordinates, VetoNotice(target), "safety_alert")
             == q0 + VetoMessages(base.id, target, violations, base.subordinates);
    }

    /** `_trigger_safety_alert` for a non-empty list of critical checks. */
    method TriggerSafetyAlert(violations: seq<SafetyCheck>, target: AgentId)
      requires violations != [] && forall c | c in violations :: c.severity == "critical"
      modifies base.bus
      ensures base.bus != null ==>
                base.bus.queue == old(base.bus.queue)
                                  + Escalation(base.id, target, violations, base.supervisor, vetoActive, base.subordinates)
      ensures base.bus != null ==> base.bus.subscribers == old(base.bus.subscribers) && base.bus.delivered == old(base.bus.delivered)
    {
      ghost var q0 := if base.bus != null then base.bus.queue else [];
      ghost var alert := if base.supervisor.Some? then [Message(base.id, base.supervisor.value, AlertContent(target, violations, vetoActive), "safety_alert")] else [];
      if base.supervisor.Some? {
        base.SendMessage(base.supervisor.value, AlertContent(target, violations, vetoActive), "safety_alert");
      }
      ghost var q1 := q0 + alert;
      assert base.bus != null ==> base.bus.queue == q1;
      var critical := Criticals(violations);
      AllCritical(violations);
      if critical != [] && vetoActive {
        ExerciseVetoPower(target, critical);
      }
      EscalationOfCritical(base.id, target, violations, base.supervisor, vetoActive, base.subordinates);
    }

    /** The five checks in order; the behavioral and interpretability checks each send
        their request first. */
    method RunChecks(target: AgentId) returns (results: seq<SafetyCheck>)
      modifies base.bus
      ensures results == AuditChecks(target, Placeholder)
      ensures base.bus != null ==> base.bus.queue == old(base.bus.queue) + AuditRequests(base.id, target)
      ensures base.bus != null ==> base.bus.subscribers == old(base.bus.subscribers) && base.bus.delivered == old(base.bus.delivered)
    {
      var behavioral := AuditBehavioralAlignment(target);
      var gaming := GamingCheck(target, Placeholder.indicators);
      var goal := GoalCheck(target, Placeholder.drift);
      var interpretability := AuditInterpretability(target);
      var containment := ContainmentCheck(target, Placeholder.containment);
      results := [behavioral, gaming, goal, interpretability, containment];
    }

    /** `perform_comprehensive_audit`: the five checks in order, recorded in the history;
        any critical ones are escalated. */
    method PerformComprehensiveAudit(target: AgentId) returns (results: seq<SafetyCheck>)
      modifies this, base.bus
      ensures results == AuditChecks(target, Placeholder)
      ensures auditHistory == old(auditHistory) + results && vetoActive == old(vetoActive)
      ensures base.bus != null ==>
                base.bus.queue == old(base.bus.queue) + AuditRequests(base.id, target)
                                  + Escalation(base.id, target, Criticals(results), base.supervisor, vetoActive, base.subordinates)
      ensures base.bus != null ==> base.bus.subscribers == old(base.bus.subscribers) && base.bus.delivered == old(base.bus.delivered)
    {
      results := RunChecks(target);
      auditHistory := auditHistory + results;
      var critical := Criticals(results);
      if critical != [] {
        TriggerSafetyAlert(critical, target);
      }
    }
  }

  /** With a critical check, the escalation is the optional alert followed, under the
      veto, by the veto messages. */
  lemma EscalationOfCritical(me: AgentId, target: AgentId, critical: seq<SafetyCheck>, supervisor: Option<AgentId>,
                             veto: bool, subordinates: seq<AgentId>)
    requires critical != []
    ensures var alert := if supervisor.Some? then [Message(me, supervisor.value, AlertContent(target, critical, veto), "safety_alert")] else [];
      forall q: seq<Message> ::
        q + Escalation(me, target, critical, supervisor, veto, subordinates)
        == (q + alert) + (if veto then VetoMessages(me, target, critical, subordinates) else [])
  {
  }

  /** Keeping the critical checks of a list of critical checks keeps them all. */
  lemma {:induction false} AllCritical(cs: seq<SafetyCheck>)
    requires forall c | c in cs :: c.severity == "critical"
    ensures Criticals(cs) == cs
  {
    if cs != [] {
      assert cs[0] in cs;
      assert forall c | c in cs[1..] :: c in cs;
      AllCritical(cs[1..]);
    }
  }
}
