/** The symbolic verifier: checking a reasoning trace step by step, and checking a
    knowledge graph for duplicate entities and dangling relations. Neither touches the
    agent's own state, so both are modelled outside a class. */
module LogicVerifier {
  import opened Wrappers
  import opened Domain
  import Strings

  /** `len(v)`; `None` where Python raises a TypeError. A datetime's ISO text has at
      least 19 characters, "YYYY-MM-DDTHH:MM:SS"; the model's times have no sub-second
      part, so it counts exactly those. */
  function PyLen(v: Value): (r: Option<nat>)
    ensures r.None? <==> v.Null? || v.Bool? || v.Int? || v.Real?
    ensures v.Str? ==> r == Some(|v.s|)
    ensures v.Stamp? ==> r.Some? && r.value >= 19
  {
    match v
    case Str(s) => Some(|s|)
    case Stamp(_) => Some(19)
    case List(items) => Some(|items|)
    case Obj(entries) => Some(|entries|)
    case _ => None
  }

  // ---------------------------------------------------------------------------------
  // Reasoning steps

  /** What a step verifier returns. */
  datatype StepVerdict = StepVerdict(valid: bool, error: Option<string>, severity: string)

  const Sound := StepVerdict(true, None, "none")

  function Invalid(error: string, severity: string): StepVerdict {
    StepVerdict(false, Some(error), severity)
  }

  /** The inference rules the verifier accepts. */
  const KnownRules: set<Value> := {Str("modus_ponens"), Str("modus_tollens"), Str("hypothetical_syllogism"), Str("resolution")}

  /** `_verify_inference_step`: an unknown rule is a high-severity error; modus ponens
      needs exactly two premises; every other known rule passes. `None` where taking the
      length of the premises raises. */
  function VerifyInference(step: Dict): (r: Option<StepVerdict>)
    ensures var rule := Get(step, "rule", Str(""));
      (rule !in KnownRules ==> r == Some(Invalid("Unknown inference rule: " + Render(rule), "high")))
      && (rule in KnownRules - {Str("modus_ponens")} ==> r == Some(Sound))
      && (rule == Str("modus_ponens") ==>
            var n := PyLen(Get(step, "premises", List([])));
            (r.None? <==> n.None?) && (r.Some? ==> (r.value.valid <==> n.value == 2)))
  {
    var premises := Get(step, "premises", List([]));
    var rule := Get(step, "rule", Str(""));
    if rule !in KnownRules then Some(Invalid("Unknown inference rule: " + Render(rule), "high"))
    else if rule == Str("modus_ponens") then
      var n := PyLen(premises);
      if n.None? then None
      else if n.value != 2 then Some(Invalid("Modus ponens requires exactly 2 premises", "high"))
      else Some(Sound)
    else Some(Sound)
  }

  /** Modus ponens over a datetime's text is answered, not raised: the text is never two
      characters long. */
  lemma ModusPonensOnStamp(step: Dict, t: Time)
    requires Get(step, "rule", Str("")) == Str("modus_ponens") && Get(step, "premises", List([])) == Stamp(t)
    ensures VerifyInference(step) == Some(Invalid("Modus ponens requires exactly 2 premises", "high"))
  {
  }

  /** `_verify_assumption_step`: invalid exactly when the justification is falsy. */
  function VerifyAssumption(step: Dict): (r: StepVerdict)
    ensures r.valid <==> Get(step, "justification", Str("")).Truthy()
    ensures !r.valid ==> r.severity == "medium"
  {
    if !Get(step, "justification", Str("")).Truthy() then Invalid("Assumption lacks justification", "medium")
    else Sound
  }

  /** `_verify_conclusion_step`: invalid exactly when there are no supporting steps. */
  function VerifyConclusion(step: Dict): (r: StepVerdict)
    ensures r.valid <==> Get(step, "supporting_steps", List([])).Truthy()
    ensures !r.valid ==> r.severity == "high"
  {
    if !Get(step, "supporting_steps", List([])).Truthy() then Invalid("Conclusion lacks supporting steps", "high")
    else Sound
  }

  /** `_verify_reasoning_step`: dispatch on the step's type; an unknown type is a
      medium-severity error. */
  function VerifyStep(step: Dict): (r: Option<StepVerdict>)
    ensures r.Some? && r.value.valid ==> r.value == Sound
    ensures r.Some? && !r.value.valid ==> r.value.error.Some?
    ensures Get(step, "type", Str("unknown")) !in {Str("inference"), Str("assumption"), Str("conclusion")} ==>
              r == Some(Invalid("Unknown reasoning step type: " + Render(Get(step, "type", Str("unknown"))), "medium"))
  {
    var kind := Get(step, "type", Str("unknown"));
    if kind == Str("inference") then VerifyInference(step)
    else if kind == Str("assumption") then Some(VerifyAssumption(step))
    else if kind == Str("conclusion") then Some(VerifyConclusion(step))
    else Some(Invalid("Unknown reasoning step type: " + Render(kind), "medium"))
  }

  // ---------------------------------------------------------------------------------
  // Reasoning traces

  /** One entry of `logical_errors`. */
  datatype StepError = StepError(step: nat, error: Option<string>, severity: string)

  /** What `verify_reasoning_trace` returns. */
  datatype TraceReport = TraceReport(traceId: Value, stepsVerified: nat, errors: seq<StepError>,
                                     score: real, valid: bool)

  /** The errors of the steps in order, each carrying its index; `None` where a step
      verifier raises. */
  function TraceErrors(trace: seq<Dict>): (r: Option<seq<StepError>>)
    ensures r.Some? ==> |r.value| <= |trace|
  {
    if trace == [] then Some([])
    else
      var prev := TraceErrors(trace[..|trace| - 1]);
      var v := VerifyStep(trace[|trace| - 1]);
      if prev.None? || v.None? then None
      else if v.value.valid then prev
      else Some(prev.value + [StepError(|trace| - 1, v.value.error, v.value.severity)])
  }

  /** The share of steps without an error, never below zero. */
  function Consistency(steps: nat, errors: nat): (c: real)
    requires steps > 0
    ensures 0.0 <= c <= 1.0
  {
    var c := (steps - errors) as real / steps as real;
    if c < 0.0 then 0.0 else c
  }

  /** `verify_reasoning_trace`; an empty trace raises on `reasoning_trace[0]`. */
  function TraceVerdict(trace: seq<Dict>): (r: Option<TraceReport>)
    ensures trace == [] ==> r.None?
    ensures r.Some? ==> r.value.stepsVerified == |trace| && r.value.traceId == Get(trace[0], "trace_id", Str("unknown"))
  {
    if trace == [] then None
    else
      var es := TraceErrors(trace);
      if es.None? then None
      else
        var score := Consistency(|trace|, |es.value|);
        Some(TraceReport(Get(trace[0], "trace_id", Str("unknown")), |trace|, es.value, score, score > 0.8))
  }

  /** The trace is valid exactly when more than four fifths of its steps have no error. */
  lemma TraceValidIff(trace: seq<Dict>)
    requires TraceVerdict(trace).Some?
    ensures var r := TraceVerdict(trace).value;
      r.valid <==> 5 * (|trace| - |r.errors|) > 4 * |trace|
  {
    var r := TraceVerdict(trace).value;
    AboveFourFifths(|trace|, |r.errors|);
  }

  lemma AboveFourFifths(n: nat, e: nat)
    requires 0 < n && e <= n
    ensures Consistency(n, e) > 0.8 <==> 5 * (n - e) > 4 * n
  {
    DivAbove((n - e) as real, n as real);
    DivNonNegative((n - e) as real, n as real);
  }

  lemma DivAbove(a: real, b: real)
    requires b > 0.0
    ensures a / b > 0.8 <==> a > 0.8 * b
  {
  }

  lemma DivNonNegative(a: real, b: real)
    requires b > 0.0 && a >= 0.0
    ensures a / b >= 0.0
  {
  }

  lemma DivBelowOne(a: real, b: real)
    requires b > 0.0 && a < b
    ensures a / b < 1.0
  {
  }

  /** Every error names an invalid step, with that step's error and severity. */
  lemma {:induction false} TraceErrorsSound(trace: seq<Dict>)
    requires TraceErrors(trace).Some?
    ensures var es := TraceErrors(trace).value;
      forall k :: 0 <= k < |es| ==>
        es[k].step < |trace| && VerifyStep(trace[es[k].step]).Some?
        && var v := VerifyStep(trace[es[k].step]).value;
           !v.valid && es[k].error == v.error && es[k].severity == v.severity
  {
    if trace != [] {
      var init := trace[..|trace| - 1];
      TraceErrorsSound(init);
      var pes := TraceErrors(init).value;
      forall k | 0 <= k < |pes| ensures trace[pes[k].step] == init[pes[k].step] { }
    }
  }

  /** The errors come in increasing step order, so no step is reported twice. */
  lemma {:induction false} TraceErrorsOrdered(trace: seq<Dict>)
    requires TraceErrors(trace).Some?
    ensures var es := TraceErrors(trace).value;
      forall k :: 0 <= k < |es| ==> es[k].step < |trace|
    ensures var es := TraceErrors(trace).value;
      forall k, l :: 0 <= k < l < |es| ==> es[k].step < es[l].step
  {
    if trace != [] {
      TraceErrorsOrdered(trace[..|trace| - 1]);
    }
  }

  /** Every invalid step has an error. */
  lemma {:induction false} TraceErrorsComplete(trace: seq<Dict>, i: nat)
    requires TraceErrors(trace).Some?
    requires i < |trace| && VerifyStep(trace[i]).Some? && !VerifyStep(trace[i]).value.valid
    ensures exists k :: 0 <= k < |TraceErrors(trace).value| && TraceErrors(trace).value[k].step == i
  {
    var es := TraceErrors(trace).value;
    var last := |trace| - 1;
    var init := trace[..last];
    if i == last {
      assert es[|es| - 1].step == i;
    } else {
      assert init[i] == trace[i];
      TraceErrorsComplete(init, i);
      var pes := TraceErrors(init).value;
      var k :| 0 <= k < |pes| && pes[k].step == i;
      assert es[k] == pes[k];
    }
  }

  /** Any step the verifiers cannot handle without raising makes the whole check raise. */
  lemma {:induction false} TraceRaisesOnBadStep(trace: seq<Dict>, i: nat)
    requires i < |trace| && VerifyStep(trace[i]).None?
    ensures TraceErrors(trace).None?
  {
    if i < |trace| - 1 {
      assert trace[..|trace| - 1][i] == trace[i];
      TraceRaisesOnBadStep(trace[..|trace| - 1], i);
    }
  }

  /** `verify_reasoning_trace`: the loop over the steps. */
  method VerifyReasoningTrace(trace: seq<Dict>) returns (r: Option<TraceReport>)
    ensures r == TraceVerdict(trace)
  {
    if trace == [] {
      return None;
    }
    var errors: seq<StepError> := [];
    var verified := 0;
    for i := 0 to |trace|
      invariant verified == i
      invariant TraceErrors(trace[..i]) == Some(errors)
    {
      var v := VerifyStep(trace[i]);
      assert trace[..i + 1][..i] == trace[..i];
      if v.None? {
        TraceRaisesOnBadStep(trace, i);
        return None;
      }
      verified := verified + 1;
      if !v.value.valid {
        errors := errors + [StepError(i, v.value.error, v.value.severity)];
      }
    }
    assert trace[..|trace|] == trace;
    var score := Consistency(|trace|, |errors|);
    r := Some(TraceReport(Get(trace[0], "trace_id", Str("unknown")), verified, errors, score, score > 0.8));
  }

  // ---------------------------------------------------------------------------------
  // Knowledge graphs

  /** One entry of `detailed_checks`. */
  datatype ConsistencyCheck = ConsistencyCheck(checkType: string, score: real, issues: seq<Value>, message: string)

  /** What `verify_knowledge_consistency` returns. */
  datatype ConsistencyReport = ConsistencyReport(overall: real, consistent: bool, checks: seq<ConsistencyCheck>,
                                                 recommendations: seq<string>)

  /** The elements a `for` loop over `v` yields that the checks can use; `None` where the
      loop or the first element's use raises (only an empty string or dict iterates
      harmlessly besides a list). */
  function ItemsOf(v: Value): Option<seq<Value>> {
    match v
    case List(items) => Some(items)
    case Str(s) => if s == "" then Some([]) else None
    case Obj(entries) => if entries == map[] then Some([]) else None
    case _ => None
  }

  /** `[e["id"] for e in entities]`; `None` where an entity is not a dict with an id. */
  function EntityIds(entities: seq<Value>): (r: Option<seq<Value>>)
    ensures r.Some? <==> forall i :: 0 <= i < |entities| ==> entities[i].Obj? && "id" in entities[i].entries
    ensures r.Some? ==> |r.value| == |entities| && forall i :: 0 <= i < |entities| ==> r.value[i] == entities[i].entries["id"]
  {
    if entities == [] then Some([])
    else
      var rest := EntityIds(entities[1..]);
      var e := entities[0];
      assert forall i :: 1 <= i < |entities| ==> entities[i] == entities[1..][i - 1];
      if !e.Obj? || "id" !in e.entries || rest.None? then None
      else Some([e.entries["id"]] + rest.value)
  }

  /** `[id for id in ids if ids.count(id) > 1]`: every occurrence of every repeated id. */
  function Duplicates(ids: seq<Value>): (r: seq<Value>)
    ensures |r| <= |ids|
    ensures forall x :: x in r <==> multiset(ids)[x] > 1
  {
    RepeatedInCount(ids, ids);
    RepeatedIn(ids, ids)
  }

  /** The elements of `xs`, in order, that occur more than once in `whole`. */
  function RepeatedIn(xs: seq<Value>, whole: seq<Value>): (r: seq<Value>)
    ensures |r| <= |xs|
  {
    if xs == [] then []
    else RepeatedIn(xs[..|xs| - 1], whole) + (if multiset(whole)[xs[|xs| - 1]] > 1 then [xs[|xs| - 1]] else [])
  }

  lemma {:induction false} RepeatedInCount(xs: seq<Value>, whole: seq<Value>)
    ensures forall x :: multiset(RepeatedIn(xs, whole))[x] == if multiset(whole)[x] > 1 then multiset(xs)[x] else 0
  {
    if xs != [] {
      var init := xs[..|xs| - 1];
      assert xs == init + [xs[|xs| - 1]];
      RepeatedInCount(init, whole);
    }
  }

  /** The duplicates keep exactly the ids that occur more than once, each as often as it
      occurs; so they are empty exactly when the ids are distinct. */
  lemma DuplicatesExact(ids: seq<Value>)
    ensures forall x :: multiset(Duplicates(ids))[x] == if multiset(ids)[x] > 1 then multiset(ids)[x] else 0
    ensures Duplicates(ids) == [] <==> forall i, j :: 0 <= i < j < |ids| ==> ids[i] != ids[j]
  {
    RepeatedInCount(ids, ids);
    var d := Duplicates(ids);
    if d == [] {
      forall i, j | 0 <= i < j < |ids| ensures ids[i] != ids[j] {
        if ids[i] == ids[j] {
          TwoOccurrences(ids, i, j);
          assert false;
        }
      }
    } else {
      var x := d[0];
      assert multiset(d)[x] > 0;
      assert multiset(ids)[x] > 1;
      var i, j := RepeatWitness(ids, x);
    }
  }

  lemma {:induction false} TwoOccurrences(ids: seq<Value>, i: nat, j: nat)
    requires i < j < |ids| && ids[i] == ids[j]
    ensures multiset(ids)[ids[i]] > 1
  {
    var x := ids[i];
    assert ids == ids[..i] + [x] + ids[i + 1..j] + [x] + ids[j + 1..];
  }

  lemma {:induction false} RepeatWitness(ids: seq<Value>, x: Value) returns (i: nat, j: nat)
    requires multiset(ids)[x] > 1
    ensures i < j < |ids| && ids[i] == x && ids[j] == x
  {
    assert x in ids;
    i :| 0 <= i < |ids| && ids[i] == x;
    var rest := ids[..i] + ids[i + 1..];
    assert ids == ids[..i] + [x] + ids[i + 1..];
    assert multiset(rest)[x] > 0;
    assert x in rest;
    var k :| 0 <= k < |rest| && rest[k] == x;
    if k < i {
      j := i;
      i := k;
      assert ids[i] == rest[k];
    } else {
      j := k + 1;
      assert ids[j] == rest[k];
    }
  }

  /** `_check_entity_consistency`: 1.0 without duplicate ids, 0.5 with any. */
  function EntityCheck(kg: Dict): (r: Option<ConsistencyCheck>)
    ensures r.Some? ==> r.value.checkType == "entity_consistency"
    ensures r.Some? ==> (r.value.score == 1.0 <==> r.value.issues == []) && (r.value.score == 1.0 || r.value.score == 0.5)
  {
    var entities := ItemsOf(Get(kg, "entities", List([])));
    if entities.None? then None
    else
      var ids := EntityIds(entities.value);
      if ids.None? then None
      else
        var dups := Duplicates(ids.value);
        Some(ConsistencyCheck("entity_consistency", if dups == [] then 1.0 else 0.5, dups,
                              if dups != [] then "Found " + Strings.NatText(|dups|) + " duplicate entities"
                              else "No entity issues"))
  }

  /** A relation whose domain or range is not an entity id. */
  predicate Dangling(rel: Value, ids: set<Value>)
    requires rel.Obj?
  {
    Get(rel.entries, "domain", Null) !in ids || Get(rel.entries, "range", Null) !in ids
  }

  /** Whether checking the relation can raise: it is not a dict, a looked-up end is
      unhashable, or a dangling relation has no id. */
  predicate RelationRaises(rel: Value, ids: set<Value>) {
    !rel.Obj?
    || !Hashable(Get(rel.entries, "domain", Null))
    || (Get(rel.entries, "domain", Null) in ids && !Hashable(Get(rel.entries, "range", Null)))
    || (Dangling(rel, ids) && "id" !in rel.entries)
  }

  /** The ids of the dangling relations, in order; `None` where checking one raises. */
  function RelationIssues(rels: seq<Value>, ids: set<Value>): (r: Option<seq<Value>>)
    ensures r.Some? ==> |r.value| <= |rels|
  {
    if rels == [] then Some([])
    else
      var prev := RelationIssues(rels[..|rels| - 1], ids);
      var rel := rels[|rels| - 1];
      if prev.None? || RelationRaises(rel, ids) then None
      else if Dangling(rel, ids) then Some(prev.value + [rel.entries["id"]])
      else prev
  }

  /** No issue is reported exactly when no relation dangles. */
  lemma {:induction false} RelationIssuesEmptyIff(rels: seq<Value>, ids: set<Value>)
    requires RelationIssues(rels, ids).Some?
    ensures forall i :: 0 <= i < |rels| ==> rels[i].Obj?
    ensures RelationIssues(rels, ids).value == [] <==> forall i :: 0 <= i < |rels| ==> !Dangling(rels[i], ids)
  {
    if rels != [] {
      var init := rels[..|rels| - 1];
      RelationIssuesEmptyIff(init, ids);
      assert forall i :: 0 <= i < |init| ==> init[i] == rels[i];
    }
  }

  /** `_check_relation_consistency`: the share of relations that do not dangle, or 1.0
      when none does. */
  function RelationCheck(kg: Dict): (r: Option<ConsistencyCheck>)
    ensures r.Some? ==> r.value.checkType == "relation_consistency" && 0.0 <= r.value.score <= 1.0
    ensures r.Some? ==> (r.value.score == 1.0 <==> r.value.issues == [])
  {
    var entities := ItemsOf(Get(kg, "entities", List([])));
    var rels := ItemsOf(Get(kg, "relations", List([])));
    if entities.None? then None
    else
      var ids := EntityIds(entities.value);
      if ids.None? || exists i :: 0 <= i < |ids.value| && !Hashable(ids.value[i]) then None
      else if rels.None? then None
      else
        var issues := RelationIssues(rels.value, set i | 0 <= i < |ids.value| :: ids.value[i]);
        if issues.None? then None
        else RelationResult(|rels.value|, issues.value)
  }

  function RelationResult(total: nat, issues: seq<Value>): (r: Option<ConsistencyCheck>)
    requires |issues| <= total
    ensures r.Some? && r.value.checkType == "relation_consistency" && 0.0 <= r.value.score <= 1.0
    ensures r.value.score == 1.0 <==> issues == []
    ensures r.value.issues == issues
  {
    if issues == [] then Some(ConsistencyCheck("relation_consistency", 1.0, [], "No relation issues"))
    else
      var c := Consistency(total, |issues|);
      assert c < 1.0 by {
        DivBelowOne((total - |issues|) as real, total as real);
      }
      Some(ConsistencyCheck("relation_consistency", c, issues,
                            "Found " + Strings.NatText(|issues|) + " invalid relations"))
  }

  /** `_check_axiom_consistency` and `_check_ontology_consistency` find nothing. */
  const AxiomCheck := ConsistencyCheck("axiom_consistency", 1.0, [], "Axiom consistency check completed")
  const OntologyCheck := ConsistencyCheck("ontology_consistency", 1.0, [], "Ontology consistency check completed")

  /** The three recommendations `_generate_consistency_recommendations` can give. */
  const EntityAdvice := "Remove duplicate entities and standardize naming"
  const RelationAdvice := "Fix relation references to valid entities"
  const AxiomAdvice := "Resolve axiom contradictions using belief revision"

  /** The advice for one check scoring below 0.8; the ontology check has none. */
  function Advice(c: ConsistencyCheck): (r: seq<string>)
    ensures |r| <= 1
    ensures r != [] ==> c.score < 0.8
    ensures c.checkType == "ontology_consistency" ==> r == []
  {
    if c.score >= 0.8 then []
    else if c.checkType == "entity_consistency" then [EntityAdvice]
    else if c.checkType == "relation_consistency" then [RelationAdvice]
    else if c.checkType == "axiom_consistency" then [AxiomAdvice]
    else []
  }

  /** `_generate_consistency_recommendations`, as a value. */
  function Recommendations(checks: seq<ConsistencyCheck>): (r: seq<string>)
    ensures |r| <= |checks|
  {
    if checks == [] then [] else Recommendations(checks[..|checks| - 1]) + Advice(checks[|checks| - 1])
  }

  /** `_generate_consistency_recommendations`: the loop over the checks. */
  method GenerateRecommendations(checks: seq<ConsistencyCheck>) returns (r: seq<string>)
    ensures r == Recommendations(checks)
  {
    r := [];
    for i := 0 to |checks|
      invariant r == Recommendations(checks[..i])
    {
      assert checks[..i + 1][..i] == checks[..i];
      var c := checks[i];
      if c.score < 0.8 {
        if c.checkType == "entity_consistency" {
          r := r + [EntityAdvice];
        } else if c.checkType == "relation_consistency" {
          r := r + [RelationAdvice];
        } else if c.checkType == "axiom_consistency" {
          r := r + [AxiomAdvice];
        }
      }
    }
    assert checks[..|checks|] == checks;
  }

  /** `verify_knowledge_consistency`: the mean of the four check scores, consistent above
      0.8, with the recommendations of the low-scoring checks. */
  function KnowledgeVerdict(kg: Dict): (r: Option<ConsistencyReport>)
    ensures r.Some? <==> EntityCheck(kg).Some? && RelationCheck(kg).Some?
    ensures r.Some? ==> |r.value.checks| == 4 && (r.value.consistent <==> r.value.overall > 0.8)
    ensures r.Some? ==> |r.value.recommendations| <= 4
  {
    var e := EntityCheck(kg);
    var rel := RelationCheck(kg);
    if e.None? || rel.None? then None
    else
      var checks := [e.value, rel.value, AxiomCheck, OntologyCheck];
      var overall := (e.value.score + rel.value.score + AxiomCheck.score + OntologyCheck.score) / 4.0;
      Some(ConsistencyReport(overall, overall > 0.8, checks, Recommendations(checks)))
  }

  /** The graph is consistent exactly when the entity and relation scores add up to more
      than 1.2; a duplicate entity therefore needs more than 70% sound relations. */
  lemma ConsistentIff(kg: Dict)
    requires KnowledgeVerdict(kg).Some?
    ensures var r := KnowledgeVerdict(kg).value;
      r.consistent <==> r.checks[0].score + r.checks[1].score > 1.2
    ensures var r := KnowledgeVerdict(kg).value;
      r.checks[0].issues != [] ==> (r.consistent <==> r.checks[1].score > 0.7)
  {
  }

  /** One recommendation per low-scoring check: the entity advice exactly when there are
      duplicates, the relation advice exactly when under 80% of the relations are sound. */
  lemma RecommendationsExact(kg: Dict)
    requires KnowledgeVerdict(kg).Some?
    ensures var r := KnowledgeVerdict(kg).value;
      r.recommendations == (if r.checks[0].issues != [] then [EntityAdvice] else [])
                           + (if r.checks[1].score < 0.8 then [RelationAdvice] else [])
  {
    var e := EntityCheck(kg).value;
    var rel := RelationCheck(kg).value;
    var cs := [e, rel, AxiomCheck, OntologyCheck];
    assert KnowledgeVerdict(kg).value.checks == cs;
    assert KnowledgeVerdict(kg).value.recommendations == Recommendations(cs);
    RecommendationsOfFour(e, rel, AxiomCheck, OntologyCheck);
    assert Advice(AxiomCheck) == [] && Advice(OntologyCheck) == [];
    assert Advice(e) == if e.issues != [] then [EntityAdvice] else [];
    assert Advice(rel) == if rel.score < 0.8 then [RelationAdvice] else [];
    assert Recommendations(cs) == Advice(e) + Advice(rel);
  }

  lemma RecommendationsOfFour(a: ConsistencyCheck, b: ConsistencyCheck, c: ConsistencyCheck, d: ConsistencyCheck)
    ensures Recommendations([a, b, c, d]) == Advice(a) + Advice(b) + Advice(c) + Advice(d)
  {
    assert Recommendations([a]) == Advice(a) by {
      RecommendationsSnoc([], a);
      assert [] + [a] == [a];
    }
    assert Recommendations([a, b]) == Advice(a) + Advice(b) by {
      RecommendationsSnoc([a], b);
      assert [a] + [b] == [a, b];
    }
    assert Recommendations([a, b, c]) == Advice(a) + Advice(b) + Advice(c) by {
      RecommendationsSnoc([a, b], c);
      assert [a, b] + [c] == [a, b, c];
    }
    RecommendationsSnoc([a, b, c], d);
    assert [a, b, c] + [d] == [a, b, c, d];
  }

  lemma RecommendationsSnoc(checks: seq<ConsistencyCheck>, c: ConsistencyCheck)
    ensures Recommendations(checks + [c]) == Recommendations(checks) + Advice(c)
  {
    assert (checks + [c])[..|checks|] == checks;
  }

  /** `verify_knowledge_consistency` as the agent runs it. */
  method VerifyKnowledgeConsistency(kg: Dict) returns (r: Option<ConsistencyReport>)
    ensures r == KnowledgeVerdict(kg)
  {
    var e := EntityCheck(kg);
    var rel := CheckRelations(kg);
    if e.None? || rel.None? {
      return None;
    }
    var checks := [e.value, rel.value, AxiomCheck, OntologyCheck];
    var overall := (e.value.score + rel.value.score + AxiomCheck.score + OntologyCheck.score) / 4.0;
    var recs := GenerateRecommendations(checks);
    r := Some(ConsistencyReport(overall, overall > 0.8, checks, recs));
  }

  /** `_check_relation_consistency`: the loop over the relations. */
  method CheckRelations(kg: Dict) returns (r: Option<ConsistencyCheck>)
    ensures r == RelationCheck(kg)
  {
    var entities := ItemsOf(Get(kg, "entities", List([])));
    var rels := ItemsOf(Get(kg, "relations", List([])));
    if entities.None? {
      return None;
    }
    var ids := EntityIds(entities.value);
    if ids.None? || exists i :: 0 <= i < |ids.value| && !Hashable(ids.value[i]) {
      return None;
    }
    if rels.None? {
      return None;
    }
    var known := set i | 0 <= i < |ids.value| :: ids.value[i];
    var rs := rels.value;
    var invalid: seq<Value> := [];
    for i := 0 to |rs|
      invariant RelationIssues(rs[..i], known) == Some(invalid)
    {
      assert rs[..i + 1][..i] == rs[..i];
      var rel := rs[i];
      if RelationRaises(rel, known) {
        RelationRaisesSticks(rs, i, known);
        return None;
      }
      if Dangling(rel, known) {
        invalid := invalid + [rel.entries["id"]];
      }
    }
    assert rs[..|rs|] == rs;
    r := RelationResult(|rs|, invalid);
  }

  lemma {:induction false} RelationRaisesSticks(rels: seq<Value>, i: nat, ids: set<Value>)
    requires i < |rels| && RelationRaises(rels[i], ids)
    ensures RelationIssues(rels, ids).None?
  {
    if i < |rels| - 1 {
      assert rels[..|rels| - 1][i] == rels[i];
      RelationRaisesSticks(rels[..|rels| - 1], i, ids);
    }
  }

  /** A graph without duplicate ids or dangling relations scores 1.0, is consistent, and
      draws no recommendation. */
  lemma CleanGraph(kg: Dict)
    requires KnowledgeVerdict(kg).Some?
    requires var r := KnowledgeVerdict(kg).value; r.checks[0].issues == [] && r.checks[1].issues == []
    ensures var r := KnowledgeVerdict(kg).value; r.overall == 1.0 && r.consistent && r.recommendations == []
  {
    RecommendationsExact(kg);
  }
}
