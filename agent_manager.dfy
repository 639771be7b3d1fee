/** The registry of running agents: creation and removal, lookup by id and by type, the
    standard hierarchy wiring and its cache, the three-level classification, broadcast,
    emergency halt and task counts by status. */
module AgentManagement {
  import opened Wrappers
  import opened Domain
  import opened EventBus
  import opened Repositories
  import opened BaseAgents
  import Strings
  import opened Uuids

  /** The argument given to `create_agent`: a member of `AgentType`, or any other value
      (such as the string "logos"), shown by its text. */
  datatype TypeArg = Member(t: AgentType) | Other(text: string)

  /** `str(agent.type)`: "AgentType.<NAME>", or "None" for an agent without a type. */
  function TypeText(t: Option<AgentType>): (s: string)
    ensures s == "None" <==> t.None?
  {
    if t.Some? then TypeStr(t.value) else "None"
  }

  /** `str(agent.type).lower()`, written out: "agenttype.<name>" or "none" (the ASCII
      lower-casing of `TypeText`, one literal per member). */
  function TypeKey(t: Option<AgentType>): (k: string)
    ensures t.None? ==> k == "none"
    ensures t.Some? ==> k == "agenttype." + t.value.Value()
  {
    match t
    case None => "none"
    case Some(Prometheus) => "agenttype.prometheus"
    case Some(Daedalus) => "agenttype.daedalus"
    case Some(Logos) => "agenttype.logos"
    case Some(Odysseus) => "agenttype.odysseus"
    case Some(Themis) => "agenttype.themis"
  }

  /** `str.lower()` works character by character, so it distributes over concatenation. */
  lemma LowerAppend(a: string, b: string)
    ensures Strings.Lower(a + b) == Strings.Lower(a) + Strings.Lower(b)
  {
    var l, r := Strings.Lower(a + b), Strings.Lower(a) + Strings.Lower(b);
    assert forall i | 0 <= i < |a| + |b| :: l[i] == r[i] by {
      forall i | 0 <= i < |a| + |b| ensures l[i] == r[i] {
        if i < |a| {
          assert (a + b)[i] == a[i];
        } else {
          assert (a + b)[i] == b[i - |a|];
        }
      }
    }
  }

  /** The lower-cased member name is the member's value. */
  lemma LowerName(t: AgentType)
    ensures Strings.Lower(t.Name()) == t.Value()
  {
    var n, v := t.Name(), t.Value();
    assert forall i | 0 <= i < |n| :: Strings.LowerChar(n[i]) == v[i];
  }

  lemma LowerPrefix()
    ensures Strings.Lower("AgentType.") == "agenttype."
  {
    var p := "AgentType.";
    assert forall i | 0 <= i < |p| :: Strings.LowerChar(p[i]) == "agenttype."[i];
  }

  lemma LowerNone()
    ensures Strings.Lower("None") == "none"
  {
    var n := "None";
    assert forall i | 0 <= i < |n| :: Strings.LowerChar(n[i]) == "none"[i];
  }

  /** The literal table `TypeKey` is the lower-cased `TypeText`. */
  lemma TypeKeyIsLowerText(t: Option<AgentType>)
    ensures TypeKey(t) == Strings.Lower(TypeText(t))
  {
    if t.None? {
      LowerNone();
    } else {
      LowerPrefix();
      LowerAppend("AgentType.", t.value.Name());
      LowerName(t.value);
    }
  }

  /** The type whose key is `k`, if any: `Some(t)` exactly when `TypeKey(t) == k`. */
  function KeyType(k: string): Option<Option<AgentType>> {
    if k == "none" then Some(None)
    else if k == "agenttype.prometheus" then Some(Some(Prometheus))
    else if k == "agenttype.daedalus" then Some(Some(Daedalus))
    else if k == "agenttype.logos" then Some(Some(Logos))
    else if k == "agenttype.odysseus" then Some(Some(Odysseus))
    else if k == "agenttype.themis" then Some(Some(Themis))
    else None
  }

  /** Decoding a key finds the one type that has it. */
  lemma KeyTypeFinds(t: Option<AgentType>, k: string)
    ensures KeyType(k) == Some(t) <==> TypeKey(t) == k
  {
    var d := "agenttype.daedalus";
    var o := "agenttype.odysseus";
    assert d[10] != o[10];
  }

  /** The comparison `get_agent_by_type` makes: `str(agent.type).lower() == arg.lower()`. */
  predicate TypeMatches(t: Option<AgentType>, arg: string) {
    TypeKey(t) == Strings.Lower(arg)
  }

  /** A type's value ("prometheus", "logos", ...) never matches any agent: the text it is
      compared with is "agenttype.<name>" (or "none"), and the lengths already differ. */
  lemma ValueNeverMatches(t: Option<AgentType>, u: AgentType)
    ensures !TypeMatches(t, u.Value())
  {
    assert |u.Value()| >= 5 && |u.Value()| <= 10;
    assert |TypeKey(t)| == 4 || |TypeKey(t)| >= 15;
    assert |Strings.Lower(u.Value())| == |u.Value()|;
  }

  /** One entry of the structure `get_hierarchy_structure` reports. */
  datatype AgentInfo = AgentInfo(id: AgentId, typ: string, active: bool,
                                 subordinates: seq<AgentId>, supervisor: Option<AgentId>)

  /** The text the structure shows for a type: lower-cased `str(type)`, or "unknown". */
  function InfoType(t: Option<AgentType>): string {
    if t.Some? then Strings.Lower(TypeStr(t.value)) else "unknown"
  }

  function Info(a: BaseAgent): AgentInfo
    reads a
  {
    AgentInfo(a.id, InfoType(a.agentType), a.active, a.subordinates, a.supervisor)
  }

  /** The three levels: no supervisor is the master level; otherwise an agent with
      subordinates is at the middle level; the rest are leaves. */
  datatype Level = Master | Middle | Leaf

  function LevelOf(i: AgentInfo): (l: Level)
    ensures l == Master <==> i.supervisor.None?
    ensures l == Middle <==> i.supervisor.Some? && i.subordinates != []
  {
    if i.supervisor.None? then Master
    else if i.subordinates != [] then Middle
    else Leaf
  }

  /** The infos of `infos` at level `l`, in order. */
  function AtLevel(infos: seq<AgentInfo>, l: Level): (r: seq<AgentInfo>)
    ensures |r| <= |infos|
    ensures forall i | i in r :: LevelOf(i) == l
  {
    if infos == [] then []
    else (if LevelOf(infos[0]) == l then [infos[0]] else []) + AtLevel(infos[1..], l)
  }

  /** A level's list holds exactly the entries at that level. */
  lemma {:induction false} AtLevelMembers(infos: seq<AgentInfo>, l: Level, x: AgentInfo)
    ensures x in AtLevel(infos, l) <==> x in infos && LevelOf(x) == l
  {
    if infos != [] {
      AtLevelMembers(infos[1..], l, x);
    }
  }

  lemma {:induction false} AtLevelSnoc(infos: seq<AgentInfo>, x: AgentInfo, l: Level)
    ensures AtLevel(infos + [x], l) == AtLevel(infos, l) + (if LevelOf(x) == l then [x] else [])
  {
    var whole := infos + [x];
    if infos == [] {
      assert whole[0] == x && whole[1..] == [];
    } else {
      assert whole[0] == infos[0] && whole[1..] == infos[1..] + [x];
      var head := if LevelOf(infos[0]) == l then [infos[0]] else [];
      var last := if LevelOf(x) == l then [x] else [];
      assert AtLevel(whole, l) == head + AtLevel(infos[1..] + [x], l);
      AtLevelSnoc(infos[1..], x, l);
      assert head + (AtLevel(infos[1..], l) + last) == (head + AtLevel(infos[1..], l)) + last;
    }
  }

  /** Each agent is at exactly one level, so the three lists together have one entry per agent. */
  lemma {:induction false} LevelsPartition(infos: seq<AgentInfo>)
    ensures |AtLevel(infos, Master)| + |AtLevel(infos, Middle)| + |AtLevel(infos, Leaf)| == |infos|
  {
    if infos != [] {
      LevelsPartition(infos[1..]);
    }
  }

  /** The payload of the emergency-halt notice. */
  function HaltContent(reason: string): (d: Dict)
    ensures "type" in d && d["type"] == Str("emergency_halt") && "reason" in d && d["reason"] == Str(reason)
  {
    map["type" := Str("emergency_halt"), "reason" := Str(reason), "timestamp" := Str("2024-01-01T00:00:00Z")]
  }

  /** The number of leading ids of `ids` that are not in `raising`: how many publishes
      happen before the first one that raises. */
  function PublishedBefore(ids: seq<AgentId>, raising: set<AgentId>): (n: nat)
    ensures n <= |ids|
    ensures forall i :: 0 <= i < n ==> ids[i] !in raising
    ensures n < |ids| ==> ids[n] in raising
  {
    if ids == [] || ids[0] in raising then 0 else 1 + PublishedBefore(ids[1..], raising)
  }

  /** The halt notices sent to `receivers`, the i-th from the fresh system id `senders[i]`. */
  function HaltMessages(senders: seq<AgentId>, receivers: seq<AgentId>, reason: string): (ms: seq<Message>)
    requires |senders| >= |receivers|
    ensures |ms| == |receivers|
    ensures forall i :: 0 <= i < |receivers| ==>
              ms[i] == Message(senders[i], receivers[i], HaltContent(reason), "emergency_halt")
  {
    if receivers == [] then []
    else [Message(senders[0], receivers[0], HaltContent(reason), "emergency_halt")]
         + HaltMessages(senders[1..], receivers[1..], reason)
  }

  /** Task counts by status value, as `get_task_statistics` reports them. */
  datatype StatusCounts = StatusCounts(pending: nat, inProgress: nat, completed: nat, failed: nat, cancelled: nat) {
    function Total(): nat { pending + inProgress + completed + failed + cancelled }

    function Get(s: TaskStatus): nat {
      match s
      case Pending => pending
      case InProgress => inProgress
      case Completed => completed
      case Failed => failed
      case Cancelled => cancelled
    }

    function Bump(s: TaskStatus): (c: StatusCounts)
      ensures c.Get(s) == Get(s) + 1 && c.Total() == Total() + 1
      ensures forall o :: o != s ==> c.Get(o) == Get(o)
    {
      match s
      case Pending => this.(pending := pending + 1)
      case InProgress => this.(inProgress := inProgress + 1)
      case Completed => this.(completed := completed + 1)
      case Failed => this.(failed := failed + 1)
      case Cancelled => this.(cancelled := cancelled + 1)
    }
  }

  /** The number of tasks in `ts` with status `s`. */
  function CountStatus(ts: seq<TaskRecord>, s: TaskStatus): (n: nat)
    ensures n <= |ts|
  {
    if ts == [] then 0 else (if ts[0].status == s then 1 else 0) + CountStatus(ts[1..], s)
  }

  lemma {:induction false} CountStatusSnoc(ts: seq<TaskRecord>, t: TaskRecord, s: TaskStatus)
    ensures CountStatus(ts + [t], s) == CountStatus(ts, s) + (if t.status == s then 1 else 0)
  {
    if ts == [] {
      assert ts + [t] == [t];
      assert [t][1..] == [];
    } else {
      assert (ts + [t])[1..] == ts[1..] + [t];
      CountStatusSnoc(ts[1..], t, s);
    }
  }

  /** Every task has exactly one status, so the five counts add up to the number of tasks. */
  lemma {:induction false} CountStatusSum(ts: seq<TaskRecord>)
    ensures CountStatus(ts, Pending) + CountStatus(ts, InProgress) + CountStatus(ts, Completed)
      + CountStatus(ts, Failed) + CountStatus(ts, Cancelled) == |ts|
  {
    if ts != [] {
      CountStatusSum(ts[1..]);
    }
  }

  /** The counting loop of `get_task_statistics`. */
  method CountByStatus(all: seq<TaskRecord>) returns (c: StatusCounts)
    ensures forall s :: c.Get(s) == CountStatus(all, s)
    ensures c.Total() == |all|
  {
    c := StatusCounts(0, 0, 0, 0, 0);
    for i := 0 to |all|
      invariant forall s :: c.Get(s) == CountStatus(all[..i], s)
    {
      assert all[..i + 1] == all[..i] + [all[i]];
      forall s ensures CountStatus(all[..i + 1], s) == CountStatus(all[..i], s) + (if all[i].status == s then 1 else 0) {
        CountStatusSnoc(all[..i], all[i], s);
      }
      c := c.Bump(all[i].status);
    }
    assert all[..|all|] == all;
    CountStatusSum(all);
    assert c.Get(Pending) == CountStatus(all, Pending);
    assert c.Get(InProgress) == CountStatus(all, InProgress);
    assert c.Get(Completed) == CountStatus(all, Completed);
    assert c.Get(Failed) == CountStatus(all, Failed);
    assert c.Get(Cancelled) == CountStatus(all, Cancelled);
  }


  lemma {:induction false} WithoutSnoc(keys: seq<AgentId>, k: AgentId, x: AgentId)
    ensures Without(keys + [k], x) == Without(keys, x) + (if k == x then [] else [k])
  {
    if keys == [] {
      assert keys + [k] == [k];
      assert [k][1..] == [];
    } else {
      assert (keys + [k])[1..] == keys[1..] + [k];
      WithoutSnoc(keys[1..], k, x);
    }
  }

  /** Removing a key present once from a duplicate-free list shortens it by one. */
  lemma {:induction false} WithoutLength(keys: seq<AgentId>, x: AgentId)
    requires Distinct(keys) && x in keys
    ensures |Without(keys, x)| == |keys| - 1
  {
    if keys[0] != x {
      assert Distinct(keys[1..]);
      WithoutLength(keys[1..], x);
    } else {
      assert Distinct(keys[1..]) && x !in keys[1..];
    }
  }

  /** One entry of the `created_agents` list `setup_agent_hierarchy` reports. */
  datatype CreatedAgent = CreatedAgent(id: AgentId, typ: string, role: string)

  /** The subordinate types `setup_agent_hierarchy` goes through, in order, with their roles. */
  const SubordinateRoles: seq<(AgentType, string)> :=
    [(Daedalus, "cognitive_architect"), (Odysseus, "embodied_explorer"), (Themis, "safety_overseer")]

  /** The `created_agents` entries after the master and the first `i - 1` subordinates. */
  function SetupCreated(ids: seq<AgentId>, i: nat): (r: seq<CreatedAgent>)
    requires |ids| == 4 && 1 <= i <= 4
    ensures |r| == i
  {
    if i == 1 then [CreatedAgent(ids[0], "prometheus", "master")]
    else SetupCreated(ids, i - 1)
         + [CreatedAgent(ids[i - 1], SubordinateRoles[i - 2].0.Value(), SubordinateRoles[i - 2].1)]
  }

  /** `relationships[parent].append(child)`, creating the list when absent. */
  function Relate(rels: map<AgentId, seq<AgentId>>, parent: AgentId, child: AgentId): (r: map<AgentId, seq<AgentId>>)
    ensures r.Keys == rels.Keys + {parent}
    ensures r[parent] == (if parent in rels then rels[parent] else []) + [child]
    ensures forall k | k in rels && k != parent :: r[k] == rels[k]
  {
    rels[parent := (if parent in rels then rels[parent] else []) + [child]]
  }

  /** The `relationships` report after the master and the first `i - 1` subordinates. */
  function SetupRels(ids: seq<AgentId>, i: nat): (r: map<AgentId, seq<AgentId>>)
    requires |ids| == 4 && 1 <= i <= 4
    ensures r == map[] <==> i == 1
    ensures i > 1 ==> r.Keys == {ids[0]} && |r[ids[0]]| == i - 1
  {
    if i == 1 then map[] else map[ids[0] := ids[1..i]]
  }

  /** Recording subordinate `i` under the master extends the report by one pass. */
  lemma SetupRelsAdvance(ids: seq<AgentId>, i: nat)
    requires |ids| == 4 && 1 <= i < 4
    ensures Relate(SetupRels(ids, i), ids[0], ids[i]) == SetupRels(ids, i + 1)
  {
    assert ids[1..i + 1] == ids[1..i] + [ids[i]];
    if i == 1 {
      assert ids[1..2] == [ids[1]];
    }
  }

  /** The `created_agents` list `setup_agent_hierarchy` returns: the four agents it
      created, in order, with their types and roles. */
  lemma SetupCreatedAll(ids: seq<AgentId>)
    requires |ids| == 4
    ensures SetupCreated(ids, 4)
            == [CreatedAgent(ids[0], "prometheus", "master"), CreatedAgent(ids[1], "daedalus", "cognitive_architect"),
                CreatedAgent(ids[2], "odysseus", "embodied_explorer"), CreatedAgent(ids[3], "themis", "safety_overseer")]
  {
    assert SubordinateRoles[0] == (Daedalus, "cognitive_architect");
    assert SubordinateRoles[1] == (Odysseus, "embodied_explorer");
    assert SubordinateRoles[2] == (Themis, "safety_overseer");
    assert Daedalus.Value() == "daedalus" && Odysseus.Value() == "odysseus" && Themis.Value() == "themis";
    var c1 := SetupCreated(ids, 1);
    assert c1 == [CreatedAgent(ids[0], "prometheus", "master")];
    var c2 := SetupCreated(ids, 2);
    assert c2 == c1 + [CreatedAgent(ids[1], "daedalus", "cognitive_architect")];
    assert c2 == [CreatedAgent(ids[0], "prometheus", "master"), CreatedAgent(ids[1], "daedalus", "cognitive_architect")];
    var c3 := SetupCreated(ids, 3);
    assert c3 == c2 + [CreatedAgent(ids[2], "odysseus", "embodied_explorer")];
    assert SetupCreated(ids, 4) == c3 + [CreatedAgent(ids[3], "themis", "safety_overseer")];
  }

  /** The registry's shape: each key once in creation order, and every agent stored under
      its own id (so distinct keys hold distinct agent objects). */
  ghost predicate Keyed(agents: map<AgentId, BaseAgent>, order: seq<AgentId>) {
    Distinct(order)
    && (forall k :: k in order <==> k in agents)
    && (forall k | k in agents :: agents[k].id == k)
  }

  /** The loop of `get_agent_by_type`: the first agent named in `ids` whose type is the
      one `target` names (`None` when the argument names no type). */
  method FirstMatching(agents: map<AgentId, BaseAgent>, ids: seq<AgentId>, target: Option<Option<AgentType>>)
    returns (r: Option<BaseAgent>)
    requires forall k :: k in ids <==> k in agents
    ensures r.None? <==> forall k | k in agents :: target != Some(agents[k].agentType)
    ensures r.Some? ==> exists i :: 0 <= i < |ids| && agents[ids[i]] == r.value
                          && target == Some(r.value.agentType)
                          && forall j :: 0 <= j < i ==> target != Some(agents[ids[j]].agentType)
  {
    for i := 0 to |ids|
      invariant forall j :: 0 <= j < i ==> target != Some(agents[ids[j]].agentType)
    {
      var agent := agents[ids[i]];
      if target == Some(agent.agentType) {
        r := Some(agent);
        assert agents[ids[i]] == r.value;
        return;
      }
    }
    forall k | k in agents ensures target != Some(agents[k].agentType) {
      var j :| 0 <= j < |ids| && ids[j] == k;
    }
    return None;
  }

  /** The loop of `_remove_from_hierarchy`: every agent drops `id` from its subordinates. */
  method SeverAll(agents: map<AgentId, BaseAgent>, order: seq<AgentId>, id: AgentId)
    requires Keyed(agents, order)
    modifies agents.Values
    ensures forall k | k in agents ::
              agents[k].subordinates == RemoveFirst(old(agents[k].subordinates), id)
              && agents[k].active == old(agents[k].active) && agents[k].supervisor == old(agents[k].supervisor)
  {
    ghost var done: set<AgentId> := {};
    for i := 0 to |order|
      invariant forall k | k in agents ::
                  agents[k].subordinates == (if k in done then RemoveFirst(old(agents[k].subordinates), id)
                                             else old(agents[k].subordinates))
                  && agents[k].active == old(agents[k].active) && agents[k].supervisor == old(agents[k].supervisor)
      invariant forall j :: 0 <= j < i ==> order[j] in done
      invariant forall j :: i <= j < |order| ==> order[j] !in done
    {
      var agent := agents[order[i]];
      if id in agent.subordinates {
        agent.RemoveSubordinate(id);
      }
      assert agent.subordinates == RemoveFirst(old(agent.subordinates), id);
      done := done + {order[i]};
    }
    forall k | k in agents ensures k in done {
      var j :| 0 <= j < |order| && order[j] == k;
    }
  }

  /** The stop loop of `emergency_halt`: every agent is stopped; for the agents in
      `stopRaises` the bus's `unsubscribe` raises, so they end inactive but still
      subscribed, and the loop goes on with the next agent. */
  method StopEach(agents: map<AgentId, BaseAgent>, order: seq<AgentId>, bus: InMemoryEventBus,
                  stopRaises: set<AgentId>)
    requires Keyed(agents, order)
    requires forall k | k in agents :: agents[k].bus == bus
    modifies bus, agents.Values
    ensures forall k | k in agents ::
              !agents[k].active
              && agents[k].subordinates == old(agents[k].subordinates)
              && agents[k].supervisor == old(agents[k].supervisor)
    ensures bus.subscribers == old(bus.subscribers) - (agents.Keys - stopRaises)
    ensures bus.queue == old(bus.queue) && bus.running == old(bus.running) && bus.delivered == old(bus.delivered)
  {
    ghost var done: set<AgentId> := {};
    for i := 0 to |order|
      invariant forall k | k in agents ::
                  agents[k].active == (if k in done then false else old(agents[k].active))
                  && agents[k].subordinates == old(agents[k].subordinates)
                  && agents[k].supervisor == old(agents[k].supervisor)
      invariant forall j :: 0 <= j < i ==> order[j] in done
      invariant done <= agents.Keys
      invariant bus.subscribers == old(bus.subscribers) - (done - stopRaises)
      invariant bus.queue == old(bus.queue) && bus.running == old(bus.running) && bus.delivered == old(bus.delivered)
    {
      var agent := agents[order[i]];
      if order[i] in stopRaises {
        agent.StopUnsubscribeRaising();
      } else {
        agent.Stop();
      }
      done := done + {order[i]};
    }
    forall k | k in agents ensures k in done {
      var j :| 0 <= j < |order| && order[j] == k;
    }
    assert done == agents.Keys;
  }

  /** The structure entries of the agents named by `ids`, in order. */
  ghost function InfosOf(agents: map<AgentId, BaseAgent>, ids: seq<AgentId>): (r: seq<AgentInfo>)
    reads agents.Values
    requires forall k | k in ids :: k in agents
    ensures |r| == |ids|
    ensures forall i :: 0 <= i < |ids| ==> r[i] == Info(agents[ids[i]])
  {
    if ids == [] then [] else [Info(agents[ids[0]])] + InfosOf(agents, ids[1..])
  }

  /** One more entry extends exactly the list of its own level. */
  lemma ClassifyStep(all: seq<AgentInfo>, i: nat)
    requires i < |all|
    ensures forall l: Level :: AtLevel(all[..i + 1], l) == AtLevel(all[..i], l) + (if LevelOf(all[i]) == l then [all[i]] else [])
  {
    assert all[..i + 1] == all[..i] + [all[i]];
    forall l: Level
      ensures AtLevel(all[..i + 1], l) == AtLevel(all[..i], l) + (if LevelOf(all[i]) == l then [all[i]] else [])
    {
      AtLevelSnoc(all[..i], all[i], l);
    }
  }

  /** The loop of `get_hierarchy_structure`: each agent of `ids`, in order, goes to the one
      list its level names. */
  method Classify(agents: map<AgentId, BaseAgent>, ids: seq<AgentId>)
    returns (master: seq<AgentInfo>, middle: seq<AgentInfo>, leaves: seq<AgentInfo>)
    requires forall k | k in ids :: k in agents
    ensures master == AtLevel(InfosOf(agents, ids), Master)
    ensures middle == AtLevel(InfosOf(agents, ids), Middle)
    ensures leaves == AtLevel(InfosOf(agents, ids), Leaf)
    ensures |master| + |middle| + |leaves| == |ids|
  {
    ghost var all := InfosOf(agents, ids);
    master, middle, leaves := [], [], [];
    for i := 0 to |ids|
      invariant master == AtLevel(all[..i], Master)
      invariant middle == AtLevel(all[..i], Middle)
      invariant leaves == AtLevel(all[..i], Leaf)
    {
      var agent := agents[ids[i]];
      var info := AgentInfo(agent.id, InfoType(agent.agentType), agent.active, agent.subordinates, agent.supervisor);
      assert info == all[i];
      ClassifyStep(all, i);
      if agent.supervisor.None? {
        assert LevelOf(all[i]) == Master;
        master := master + [info];
      } else if agent.subordinates != [] {
        assert LevelOf(all[i]) == Middle;
        middle := middle + [info];
      } else {
        assert LevelOf(all[i]) == Leaf;
        leaves := leaves + [info];
      }
    }
    assert all[..|ids|] == all;
    LevelsPartition(all);
  }

  /** The loop of `broadcast_message`: for each id of `ids` other than the sender's, the
      sender publishes one message (each such send succeeds, so each is counted). */
  method SendToOthers(sender: BaseAgent, ids: seq<AgentId>, content: Dict, kind: string) returns (count: nat)
    requires sender.bus != null
    modifies sender.bus
    ensures count == |Without(ids, sender.id)|
    ensures sender.bus.queue == old(sender.bus.queue) + Fanout(sender.id, Without(ids, sender.id), content, kind)
    ensures sender.bus.subscribers == old(sender.bus.subscribers) && sender.bus.delivered == old(sender.bus.delivered)
  {
    var bus := sender.bus;
    ghost var q0 := bus.queue;
    ghost var sent: seq<AgentId> := [];
    count := 0;
    for i := 0 to |ids|
      invariant sent == Without(ids[..i], sender.id)
      invariant bus.queue == q0 + Fanout(sender.id, sent, content, kind)
      invariant count == |sent|
      invariant bus.subscribers == old(bus.subscribers) && bus.delivered == old(bus.delivered)
    {
      SendStep(q0, ids, i, sender.id, content, kind);
      if ids[i] != sender.id {
        sender.SendMessage(ids[i], content, kind);
        sent := sent + [ids[i]];
        count := count + 1;
      }
    }
    assert ids[..|ids|] == ids;
  }

  /** One step of the `broadcast_message` loop: the id is sent to, and appended to the
      ids sent to so far, exactly when it is not the sender's. */
  lemma SendStep(q0: seq<Message>, ids: seq<AgentId>, i: nat, x: AgentId, content: Dict, kind: string)
    requires i < |ids|
    ensures ids[i] == x ==> Without(ids[..i + 1], x) == Without(ids[..i], x)
    ensures ids[i] != x ==> Without(ids[..i + 1], x) == Without(ids[..i], x) + [ids[i]]
    ensures ids[i] != x ==>
              q0 + Fanout(x, Without(ids[..i], x), content, kind) + [Message(x, ids[i], content, kind)]
              == q0 + Fanout(x, Without(ids[..i], x) + [ids[i]], content, kind)
  {
    assert ids[..i + 1] == ids[..i] + [ids[i]];
    WithoutSnoc(ids[..i], ids[i], x);
    if ids[i] != x {
      var sent := Without(ids[..i], x);
      FanoutSnoc(x, sent, ids[i], content, kind);
      assert (q0 + Fanout(x, sent, content, kind)) + [Message(x, ids[i], content, kind)]
             == q0 + (Fanout(x, sent, content, kind) + [Message(x, ids[i], content, kind)]);
    }
  }

  /** Registering `ids[i]` during the subordinate loop keeps the registry's bookkeeping:
      the ids so far appended in order, the agents that were there before untouched, and
      each new id holding the agent created for it. */
  lemma RegistryAdvance(ids: seq<AgentId>, i: nat, made: seq<BaseAgent>, agent: BaseAgent,
                        agents0: map<AgentId, BaseAgent>, order0: seq<AgentId>,
                        agents: map<AgentId, BaseAgent>, order: seq<AgentId>)
    requires |ids| == 4 && Distinct(ids) && 1 <= i < 4 && forall k | k in ids :: k !in agents0
    requires order == order0 + ids[..i]
    requires forall k :: k in agents <==> k in agents0 || k in ids[..i]
    requires forall k | k in agents0 :: agents[k] == agents0[k]
    requires |made| == i && forall j | 0 <= j < i :: ids[j] in agents && agents[ids[j]] == made[j]
    ensures order + [ids[i]] == order0 + ids[..i + 1]
    ensures forall k :: k in agents[ids[i] := agent] <==> k in agents0 || k in ids[..i + 1]
    ensures forall k | k in agents0 :: agents[ids[i] := agent][k] == agents0[k]
    ensures forall j | 0 <= j < i + 1 :: ids[j] in agents[ids[i] := agent] && agents[ids[i] := agent][ids[j]] == (made + [agent])[j]
  {
    assert ids[i] !in ids[..i];
    assert ids[..i + 1] == ids[..i] + [ids[i]];
    forall j | 0 <= j < i ensures ids[j] != ids[i] {
    }
  }

  /** The master `setup_agent_hierarchy` creates: an active Prometheus agent with no
      supervisor, holding `subs`. */
  ghost predicate MasterOf(a: BaseAgent, subs: seq<AgentId>)
    reads a
  {
    a.agentType == Some(Prometheus) && a.active && a.subordinates == subs && a.supervisor == None
  }

  /** A subordinate `setup_agent_hierarchy` creates: an active agent of type `t` with no
      subordinates, supervised by `sup`. */
  ghost predicate SubordinateOf(a: BaseAgent, t: AgentType, sup: AgentId)
    reads a
  {
    a.agentType == Some(t) && a.active && a.subordinates == [] && a.supervisor == Some(sup)
  }

  class AgentManager {
    const bus: InMemoryEventBus
    const repo: InMemoryRepository
    /** `_agents`, keyed by `str(agent.id)`. */
    var agents: map<AgentId, BaseAgent>
    /** The dict's key order: creation order. */
    var order: seq<AgentId>
    /** `_agent_hierarchy`: agent id to its subordinate ids, as of the last rebuild. */
    var hierarchy: map<AgentId, seq<AgentId>>

    ghost predicate Valid()
      reads this, agents.Values
    {
      Keyed(agents, order)
      && (forall k | k in agents ::
            agents[k].bus == bus && agents[k].repo == repo && agents[k].agentType.Some?)
    }

    /** Every registered agent's current subordinate list. */
    ghost function Cache(): map<AgentId, seq<AgentId>>
      reads this, agents.Values
    {
      map k | k in agents :: agents[k].subordinates
    }

    constructor (bus: InMemoryEventBus, repo: InMemoryRepository)
      requires repo.Valid()
      ensures Valid()
      ensures this.bus == bus && this.repo == repo
      ensures agents == map[] && order == [] && hierarchy == map[]
    {
      this.bus, this.repo := bus, repo;
      agents, order, hierarchy := map[], [], map[];
    }

    /** `create_agent`: a value outside the five-member table raises ValueError; otherwise
        a new agent of that type is registered under its id and started. The registry holds
        the base part of each agent, so the role class's own `start` is not run here. */
    method CreateAgent(arg: TypeArg, newId: AgentId) returns (r: Result<BaseAgent, string>)
      requires Valid()
      modifies this`agents, this`order, bus
      ensures Valid()
      ensures r.Failure? <==> arg.Other?
      ensures r.Failure? ==> agents == old(agents) && order == old(order)
                             && bus.subscribers == old(bus.subscribers)
      ensures r.Success? ==>
                fresh(r.value) && r.value.id == newId && r.value.agentType == Some(arg.t)
                && r.value.active && r.value.subordinates == [] && r.value.supervisor == None
                && agents == old(agents)[newId := r.value]
                && order == (if newId in old(agents) then old(order) else old(order) + [newId])
                && bus.subscribers == old(bus.subscribers)[newId := HandlerOf(newId)]
      ensures hierarchy == old(hierarchy)
      ensures bus.queue == old(bus.queue) && bus.running == old(bus.running) && bus.delivered == old(bus.delivered)
    {
      if arg.Other? {
        return Failure("Unknown agent type: " + arg.text);
      }
      var agent := new BaseAgent(newId, Some(arg.t), bus, repo);
      if newId !in agents {
        order := order + [newId];
      }
      agents := agents[newId := agent];
      agent.Start();
      r := Success(agent);
    }

    method GetAgent(id: AgentId) returns (r: Option<BaseAgent>)
      requires Valid()
      ensures r.Some? <==> id in agents
      ensures r.Some? ==> r.value == agents[id] && r.value.id == id
    {
      r := if id in agents then Some(agents[id]) else None;
    }

    /** `get_agent_by_type`: the first agent, in creation order, whose lower-cased type
        text equals the lower-cased argument. */
    method GetAgentByType(arg: string) returns (r: Option<BaseAgent>)
      requires Valid()
      ensures r.None? <==> forall k | k in agents :: !TypeMatches(agents[k].agentType, arg)
      ensures r.Some? ==> exists i :: 0 <= i < |order| && agents[order[i]] == r.value
                            && TypeMatches(r.value.agentType, arg)
                            && forall j :: 0 <= j < i ==> !TypeMatches(agents[order[j]].agentType, arg)
    {
      // Every key is the key of at most one type, so comparing keys is comparing the types
      // they name.
      var target := KeyType(Strings.Lower(arg));
      forall t ensures TypeMatches(t, arg) <==> target == Some(t) {
        KeyTypeFinds(t, Strings.Lower(arg));
      }
      r := FirstMatching(agents, order, target);
    }

    /** `_remove_from_hierarchy`: drops `id` from every remaining agent's subordinate list
        and deletes its own cache entry. Supervisor pointers and the other cache entries
        are left as they are. */
    method RemoveFromHierarchy(id: AgentId)
      requires Valid()
      modifies this`hierarchy, agents.Values
      ensures Valid()
      ensures forall k | k in agents ::
                agents[k].subordinates == RemoveFirst(old(agents[k].subordinates), id)
                && agents[k].active == old(agents[k].active) && agents[k].supervisor == old(agents[k].supervisor)
      ensures hierarchy == old(hierarchy) - {id}
    {
      SeverAll(agents, order, id);
      if id in hierarchy {
        hierarchy := hierarchy - {id};
      }
    }

    /** `remove_agent`: an unknown id answers false and changes nothing; otherwise the agent
        is stopped and deregistered and its id is severed from the hierarchy. */
    method RemoveAgent(id: AgentId) returns (removed: bool)
      requires Valid()
      modifies this, bus, agents.Values
      ensures Valid()
      ensures removed == (id in old(agents))
      ensures !removed ==> agents == old(agents) && order == old(order) && hierarchy == old(hierarchy)
                           && bus.subscribers == old(bus.subscribers)
                           && forall k | k in agents :: agents[k].subordinates == old(agents[k].subordinates)
                                                        && agents[k].active == old(agents[k].active)
      ensures removed ==> agents == old(agents) - {id} && order == Without(old(order), id)
                          && !old(agents)[id].active
                          && bus.subscribers == old(bus.subscribers) - {id}
                          && hierarchy == old(hierarchy) - {id}
      ensures removed ==> forall k | k in agents ::
                agents[k].subordinates == RemoveFirst(old(agents[k].subordinates), id)
                && agents[k].active == old(agents[k].active) && agents[k].supervisor == old(agents[k].supervisor)
      ensures bus.queue == old(bus.queue) && bus.running == old(bus.running) && bus.delivered == old(bus.delivered)
    {
      if id !in agents {
        return false;
      }
      var agent := agents[id];
      agent.Stop();
      agents := agents - {id};
      order := Without(order, id);
      RemoveFromHierarchy(id);
      removed := true;
    }

    /** `_build_hierarchy_cache`: every registered agent's current subordinate list. */
    method BuildHierarchyCache()
      requires Valid()
      modifies this`hierarchy
      ensures hierarchy == Cache()
    {
      hierarchy := map[];
      for i := 0 to |order|
        invariant hierarchy.Keys == set j | 0 <= j < i :: order[j]
        invariant forall k | k in hierarchy :: k in agents && hierarchy[k] == agents[k].subordinates
      {
        hierarchy := hierarchy[order[i] := agents[order[i]].subordinates];
      }
      assert forall k | k in agents :: k in hierarchy by {
        forall k | k in agents ensures k in hierarchy {
          var j :| 0 <= j < |order| && order[j] == k;
        }
      }
    }

    /** One pass of the subordinate loop of `setup_agent_hierarchy`: a lookup by the type's
        value (which never finds an agent), then a new agent of that type, recorded, added
        under `master` and given `master` as its supervisor. */
    method SetupSubordinate(master: BaseAgent, t: AgentType, role: string, newId: AgentId,
                            created: seq<CreatedAgent>, rels: map<AgentId, seq<AgentId>>)
      returns (agent: BaseAgent, created': seq<CreatedAgent>, rels': map<AgentId, seq<AgentId>>)
      requires Valid() && master.id in agents && agents[master.id] == master && newId !in agents
      modifies this`agents, this`order, bus, master
      ensures Valid() && fresh(agent)
      ensures agents == old(agents)[newId := agent] && order == old(order) + [newId]
      ensures agent.id == newId && SubordinateOf(agent, t, master.id)
      ensures master.subordinates == AddedOnce(old(master.subordinates), newId)
      ensures master.active == old(master.active) && master.supervisor == old(master.supervisor)
      ensures created' == created + [CreatedAgent(newId, t.Value(), role)]
      ensures rels' == Relate(rels, master.id, newId)
      ensures hierarchy == old(hierarchy)
    {
      forall k | k in agents ensures !TypeMatches(agents[k].agentType, t.Value()) {
        ValueNeverMatches(agents[k].agentType, t);
      }
      var existing := GetAgentByType(t.Value());
      created', rels' := created, rels;
      if existing.None? {
        var r := CreateAgent(Member(t), newId);
        agent := r.value;
        created' := created' + [CreatedAgent(newId, t.Value(), role)];
        master.AddSubordinate(agent.id);
        agent.SetSupervisor(master.id);
        rels' := Relate(rels', master.id, agent.id);
      }
    }

    /** The first step of `setup_agent_hierarchy`: a lookup of "prometheus" (which never
        finds an agent), then a new Prometheus agent, recorded as the master. */
    method SetupMaster(newId: AgentId) returns (master: BaseAgent, created: seq<CreatedAgent>)
      requires Valid() && newId !in agents
      modifies this`agents, this`order, bus
      ensures Valid()
      ensures fresh(master) && master.id == newId
      ensures agents == old(agents)[newId := master] && order == old(order) + [newId]
      ensures master.agentType == Some(Prometheus) && master.active
              && master.subordinates == [] && master.supervisor == None
      ensures created == [CreatedAgent(newId, "prometheus", "master")]
      ensures hierarchy == old(hierarchy)
    {
      forall k | k in agents ensures !TypeMatches(agents[k].agentType, Prometheus.Value()) {
        ValueNeverMatches(agents[k].agentType, Prometheus);
      }
      var found := GetAgentByType("prometheus");
      created := [];
      match found {
        case Some(a) =>
          master := a;
        case None =>
          var r := CreateAgent(Member(Prometheus), newId);
          master := r.value;
          created := created + [CreatedAgent(newId, "prometheus", "master")];
      }
    }

    /** Pass `i` of the subordinate loop of `setup_agent_hierarchy`, from the registry after
        the master and the first `i - 1` subordinates (`made`, created over `agents0` and
        `order0`) to the registry after `i`. */
    method SetupPass(master: BaseAgent, ids: seq<AgentId>, i: nat, ghost made: seq<BaseAgent>,
                     ghost agents0: map<AgentId, BaseAgent>, ghost order0: seq<AgentId>,
                     created: seq<CreatedAgent>, rels: map<AgentId, seq<AgentId>>)
      returns (agent: BaseAgent, created': seq<CreatedAgent>, rels': map<AgentId, seq<AgentId>>)
      requires |ids| == 4 && Distinct(ids) && 1 <= i < 4 && forall k | k in ids :: k !in agents0
      requires Valid() && master.id == ids[0]
      requires order == order0 + ids[..i]
      requires forall k :: k in agents <==> k in agents0 || k in ids[..i]
      requires forall k | k in agents0 :: agents[k] == agents0[k]
      requires |made| == i && made[0] == master
      requires forall j | 0 <= j < i :: ids[j] in agents && agents[ids[j]] == made[j]
      requires forall j | 1 <= j < i :: made[j] != master
      requires MasterOf(master, ids[1..i])
      requires forall j | 1 <= j < i :: SubordinateOf(made[j], SubordinateRoles[j - 1].0, ids[0])
      requires created == SetupCreated(ids, i) && rels == SetupRels(ids, i)
      modifies this`agents, this`order, bus, master
      ensures fresh(agent)
      ensures Valid()
      ensures order == order0 + ids[..i + 1]
      ensures forall k :: k in agents <==> k in agents0 || k in ids[..i + 1]
      ensures forall k | k in agents0 :: agents[k] == agents0[k]
      ensures forall j | 0 <= j < i + 1 :: ids[j] in agents && agents[ids[j]] == (made + [agent])[j]
      ensures forall j | 1 <= j < i + 1 :: (made + [agent])[j] != master
      ensures MasterOf(master, ids[1..i + 1])
      ensures forall j | 1 <= j < i + 1 :: SubordinateOf((made + [agent])[j], SubordinateRoles[j - 1].0, ids[0])
      ensures created' == SetupCreated(ids, i + 1) && rels' == SetupRels(ids, i + 1)
      ensures hierarchy == old(hierarchy)
    {
      assert ids[i] !in agents by {
        assert ids[i] !in agents0 && ids[i] !in ids[..i];
      }
      assert ids[i] !in ids[1..i];
      var (t, role) := SubordinateRoles[i - 1];
      agent, created', rels' := SetupSubordinate(master, t, role, ids[i], created, rels);
      RegistryAdvance(ids, i, made, agent, agents0, order0, old(agents), old(order));
      SetupRelsAdvance(ids, i);
      assert ids[1..i + 1] == ids[1..i] + [ids[i]];
      ghost var made' := made + [agent];
      forall j | 1 <= j < i + 1
        ensures made'[j] != master && SubordinateOf(made'[j], SubordinateRoles[j - 1].0, ids[0])
      {
        if j < i {
          assert made'[j] == made[j];
        }
      }
    }

    /** `setup_agent_hierarchy`, with the fresh ids the four `create_agent` calls draw.
        Every lookup in it is by a type's value, which never matches, so each call creates
        a new Prometheus agent and, under it, a new Daedalus, Odysseus and Themis agent, and
        never creates a Logos agent; the cache is then rebuilt. */
    method SetupAgentHierarchy(ids: seq<AgentId>) returns (created: seq<CreatedAgent>, rels: map<AgentId, seq<AgentId>>)
      requires Valid() && |ids| == 4 && Distinct(ids) && forall k | k in ids :: k !in agents
      modifies this, bus
      ensures Valid() && order == old(order) + ids
      ensures forall k :: k in agents <==> k in old(agents) || k in ids
      ensures forall k | k in old(agents) :: agents[k] == old(agents[k])
      ensures MasterOf(agents[ids[0]], ids[1..])
      ensures forall j | 1 <= j < 4 :: SubordinateOf(agents[ids[j]], SubordinateRoles[j - 1].0, ids[0])
      ensures created == SetupCreated(ids, 4) && rels == SetupRels(ids, 4)
      ensures hierarchy == Cache()
    {
      var master;
      master, created := SetupMaster(ids[0]);
      rels := map[];
      ghost var made := [master];
      assert ids[..1] == [ids[0]];
      for i := 1 to 4
        invariant Valid() && fresh(master) && master.id == ids[0]
        invariant order == old(order) + ids[..i]
        invariant forall k :: k in agents <==> k in old(agents) || k in ids[..i]
        invariant forall k | k in old(agents) :: agents[k] == old(agents[k])
        invariant |made| == i && made[0] == master
        invariant forall j | 0 <= j < i :: ids[j] in agents && agents[ids[j]] == made[j]
        invariant forall j | 1 <= j < i :: made[j] != master
        invariant MasterOf(master, ids[1..i])
        invariant forall j | 1 <= j < i :: SubordinateOf(made[j], SubordinateRoles[j - 1].0, ids[0])
        invariant created == SetupCreated(ids, i) && rels == SetupRels(ids, i)
      {
        var agent;
        agent, created, rels := SetupPass(master, ids, i, made, old(agents), old(order), created, rels);
        made := made + [agent];
      }
      assert ids[..4] == ids;
      FinishSetup();
    }

    /** The end of `setup_agent_hierarchy`: Logos would be created only when no Logos agent
        is found and a Daedalus agent is, and the lookup of "daedalus" never finds one; the
        cache is then rebuilt. */
    method FinishSetup()
      requires Valid()
      modifies this`hierarchy
      ensures hierarchy == Cache()
    {
      forall k | k in agents ensures !TypeMatches(agents[k].agentType, Daedalus.Value()) {
        ValueNeverMatches(agents[k].agentType, Daedalus);
      }
      var logos := GetAgentByType("logos");
      var daedalus := GetAgentByType("daedalus");
      if logos.None? && daedalus.Some? {
        assert false;
      }
      BuildHierarchyCache();
    }

    /** `get_hierarchy_structure`: every agent, in creation order, in the one list its
        level names. */
    method GetHierarchyStructure() returns (master: seq<AgentInfo>, middle: seq<AgentInfo>, leaves: seq<AgentInfo>)
      requires Valid()
      ensures master == AtLevel(InfosOf(agents, order), Master)
      ensures middle == AtLevel(InfosOf(agents, order), Middle)
      ensures leaves == AtLevel(InfosOf(agents, order), Leaf)
      ensures |master| + |middle| + |leaves| == |order|
    {
      master, middle, leaves := Classify(agents, order);
    }

    /** `send_message`: false for an unknown sender, and false with nothing sent when the
        receiver's text is not a UUID; otherwise the sender publishes one message to the
        printed UUID. */
    method SendMessage(senderId: AgentId, receiverText: string, content: Dict, kind: string) returns (ok: bool)
      requires Valid()
      modifies bus
      ensures ok == (senderId in agents && ParseUuid(receiverText).Some?)
      ensures ok ==> bus.queue == old(bus.queue) + [Message(senderId, ParseUuid(receiverText).value, content, kind)]
                     && bus.running
      ensures !ok ==> bus.queue == old(bus.queue) && bus.running == old(bus.running)
      ensures bus.subscribers == old(bus.subscribers) && bus.delivered == old(bus.delivered)
    {
      if senderId !in agents {
        return false;
      }
      var receiver := ParseUuid(receiverText);
      if receiver.None? {
        return false;
      }
      var sender := agents[senderId];
      sender.SendMessage(receiver.value, content, kind);
      ok := true;
    }

    /** `broadcast_message`: 0 for an unknown sender; otherwise one message to every other
        agent, in creation order, and the count of those sends. */
    method BroadcastMessage(senderId: AgentId, content: Dict, kind: string) returns (count: nat)
      requires Valid()
      modifies bus
      ensures senderId !in agents ==> count == 0 && bus.queue == old(bus.queue)
      ensures senderId in agents ==> count == |order| - 1
      ensures senderId in agents ==>
                bus.queue == old(bus.queue) + Fanout(senderId, Without(order, senderId), content, kind)
      ensures bus.subscribers == old(bus.subscribers) && bus.delivered == old(bus.delivered)
    {
      if senderId !in agents {
        return 0;
      }
      var sender := agents[senderId];
      count := SendToOthers(sender, order, content, kind);
      WithoutLength(order, senderId);
    }

    /** The notice loop of `emergency_halt`: one halt notice per agent, in creation order,
        each from a fresh system id, until the first publish that raises (to a receiver in
        `publishRaises`), which abandons the rest. */
    method PublishHalts(reason: string, publishRaises: set<AgentId>, systemIds: seq<AgentId>)
      requires |systemIds| >= |order|
      modifies bus
      ensures bus.queue == old(bus.queue)
                + HaltMessages(systemIds, order[..PublishedBefore(order, publishRaises)], reason)
      ensures bus.subscribers == old(bus.subscribers) && bus.delivered == old(bus.delivered)
    {
      ghost var n := PublishedBefore(order, publishRaises);
      var i := 0;
      while i < |order|
        invariant 0 <= i <= n
        invariant bus.queue == old(bus.queue) + HaltMessages(systemIds, order[..i], reason)
        invariant bus.subscribers == old(bus.subscribers) && bus.delivered == old(bus.delivered)
      {
        if order[i] in publishRaises {
          break;
        }
        bus.Publish(Message(systemIds[i], order[i], HaltContent(reason), "emergency_halt"));
        assert HaltMessages(systemIds, order[..i + 1], reason)
               == HaltMessages(systemIds, order[..i], reason)
                  + [Message(systemIds[i], order[i], HaltContent(reason), "emergency_halt")];
        i := i + 1;
      }
      assert i == n;
    }

    /** `emergency_halt`: stops every agent it can, then publishes the halt notices. */
    method EmergencyHalt(reason: string, stopRaises: set<AgentId>, publishRaises: set<AgentId>,
                         systemIds: seq<AgentId>)
      requires Valid() && |systemIds| >= |order|
      modifies bus, agents.Values
      ensures Valid()
      ensures forall k | k in agents ::
                !agents[k].active
                && agents[k].subordinates == old(agents[k].subordinates)
                && agents[k].supervisor == old(agents[k].supervisor)
      ensures bus.subscribers == old(bus.subscribers) - (agents.Keys - stopRaises)
      ensures bus.queue == old(bus.queue)
                + HaltMessages(systemIds, order[..PublishedBefore(order, publishRaises)], reason)
    {
      StopEach(agents, order, bus, stopRaises);
      PublishHalts(reason, publishRaises, systemIds);
    }

    /** `get_task_statistics` of the manager: how many stored tasks have each status. */
    method GetTaskStatistics() returns (c: StatusCounts)
      requires repo.Valid()
      ensures forall s :: c.Get(s) == CountStatus(repo.Values(), s)
      ensures c.Total() == |repo.storage|
    {
      var all := repo.ListAll();
      c := CountByStatus(all);
    }
  }
}
