/** Task persistence: the in-memory repository (a dict keyed by `str(task.id)`, kept in
    insertion order), its conjunctive attribute search, and the Task <-> dict mapping and
    key format the Redis repository uses. The store keeps a snapshot of each saved task. */
module Repositories {
  import opened Wrappers
  import opened Domain
  import Strings
  import opened Uuids

  /** The value of a task attribute, typed as Python sees it: a `TaskStatus` member is not
      the string of its value, an `AgentId` is not the string of its UUID. */
  datatype AttrValue =
    | AStr(s: string)
    | AInt(i: int)
    | ANone
    | ATaskId(tid: TaskId)
    | AAgentId(aid: AgentId)
    | APriority(p: Priority)
    | AStatus(st: TaskStatus)
    | ATime(t: Time)
    | ADict(d: Dict)

  /** `getattr(task, key)` for the twelve dataclass fields; `None` where `hasattr` is false.
      Other attribute names (methods and dunders such as `__module__`) are treated as
      absent: the model gives them no value, so a criterion on one never matches, where
      Python compares the attribute's own value. */
  function Attr(t: TaskRecord, key: string): (r: Option<AttrValue>)
    ensures key == "status" ==> r == Some(AStatus(t.status))
    ensures key == "agent_id" ==> r == Some(AAgentId(t.agentId))
    ensures key == "priority" ==> r == Some(APriority(t.priority))
  {
    match key
    case "id" => Some(ATaskId(t.id))
    case "agent_id" => Some(AAgentId(t.agentId))
    case "name" => Some(AStr(t.name))
    case "description" => Some(AStr(t.description))
    case "priority" => Some(APriority(t.priority))
    case "status" => Some(AStatus(t.status))
    case "created_at" => Some(ATime(t.createdAt))
    case "updated_at" => Some(ATime(t.updatedAt))
    case "completed_at" => Some(if t.completedAt.Some? then ATime(t.completedAt.value) else ANone)
    case "result" => Some(if t.result.Some? then ADict(t.result.value) else ANone)
    case "error" => Some(if t.error.Some? then AStr(t.error.value) else ANone)
    case "metadata" => Some(ADict(t.metadata))
    case _ => None
  }

  /** The criteria dict's items, in order. */
  type Criteria = seq<(string, AttrValue)>

  /** The task has every criterion attribute, with an equal value. */
  predicate Matches(t: TaskRecord, criteria: Criteria) {
    forall i :: 0 <= i < |criteria| ==> Attr(t, criteria[i].0) == Some(criteria[i].1)
  }

  /** The matching tasks, in their original order. */
  function Select(ts: seq<TaskRecord>, criteria: Criteria): (r: seq<TaskRecord>)
    ensures |r| <= |ts|
    ensures forall t :: t in r <==> t in ts && Matches(t, criteria)
  {
    if ts == [] then []
    else (if Matches(ts[0], criteria) then [ts[0]] else []) + Select(ts[1..], criteria)
  }

  lemma {:induction false} SelectSnoc(ts: seq<TaskRecord>, t: TaskRecord, criteria: Criteria)
    ensures Select(ts + [t], criteria) == Select(ts, criteria) + (if Matches(t, criteria) then [t] else [])
  {
    if ts == [] {
      assert ts + [t] == [t];
      assert [t][1..] == [];
    } else {
      assert (ts + [t])[1..] == ts[1..] + [t];
      SelectSnoc(ts[1..], t, criteria);
    }
  }

  /** Empty criteria select everything. */
  lemma {:induction false} SelectNoCriteria(ts: seq<TaskRecord>)
    ensures Select(ts, []) == ts
  {
    if ts != [] {
      SelectNoCriteria(ts[1..]);
    }
  }

  /** A status criterion given as its string value (`{"status": "pending"}`) never
      matches: a plain `Enum` member is never equal to a string. */
  lemma {:induction false} StatusStringNeverMatches(ts: seq<TaskRecord>, s: string)
    ensures Select(ts, [("status", AStr(s))]) == []
  {
    if ts != [] {
      var c: Criteria := [("status", AStr(s))];
      assert c[0].0 == "status" && c[0].1 == AStr(s);
      assert Attr(ts[0], c[0].0) != Some(c[0].1);
      StatusStringNeverMatches(ts[1..], s);
    }
  }

  /** Likewise an agent id given as its string never matches the `AgentId` attribute. */
  lemma {:induction false} AgentIdStringNeverMatches(ts: seq<TaskRecord>, s: string)
    ensures Select(ts, [("agent_id", AStr(s))]) == []
  {
    if ts != [] {
      var c: Criteria := [("agent_id", AStr(s))];
      assert c[0].0 == "agent_id" && c[0].1 == AStr(s);
      assert Attr(ts[0], c[0].0) != Some(c[0].1);
      AgentIdStringNeverMatches(ts[1..], s);
    }
  }

  /** The inner loop of `find_by_criteria`: stops at the first criterion the task lacks
      or disagrees with. */
  method MatchesAll(entity: TaskRecord, criteria: Criteria) returns (matched: bool)
    ensures matched <==> Matches(entity, criteria)
  {
    matched := true;
    var j := 0;
    while j < |criteria|
      invariant 0 <= j <= |criteria|
      invariant forall k :: 0 <= k < j ==> Attr(entity, criteria[k].0) == Some(criteria[k].1)
    {
      if Attr(entity, criteria[j].0) != Some(criteria[j].1) {
        matched := false;
        break;
      }
      j := j + 1;
    }
  }

  /** The outer loop of `find_by_criteria`: keeps, in order, the entities every criterion
      matches. */
  method FilterMatching(vs: seq<TaskRecord>, criteria: Criteria) returns (rs: seq<TaskRecord>)
    ensures rs == Select(vs, criteria)
  {
    rs := [];
    for i := 0 to |vs|
      invariant rs == Select(vs[..i], criteria)
    {
      var entity := vs[i];
      var matched := MatchesAll(entity, criteria);
      assert vs[..i + 1] == vs[..i] + [entity];
      SelectSnoc(vs[..i], entity, criteria);
      if matched {
        rs := rs + [entity];
      }
    }
    assert vs[..|vs|] == vs;
  }

  predicate Distinct(keys: seq<string>) {
    forall i, j :: 0 <= i < j < |keys| ==> keys[i] != keys[j]
  }

  /** `keys` with `k` removed. */
  function Without(keys: seq<string>, k: string): (r: seq<string>)
    ensures forall x :: x in r <==> x in keys && x != k
    ensures Distinct(keys) ==> Distinct(r)
    ensures k !in keys ==> r == keys
    ensures |r| <= |keys|
  {
    if keys == [] then []
    else if keys[0] == k then Without(keys[1..], k)
    else
      var rest := Without(keys[1..], k);
      assert keys[0] !in rest ==> Distinct(keys) ==> Distinct([keys[0]] + rest);
      [keys[0]] + rest
  }

  /** The values stored under `keys`, in that order. */
  function Project(keys: seq<string>, st: map<string, TaskRecord>): (r: seq<TaskRecord>)
    requires forall k | k in keys :: k in st
    ensures |r| == |keys|
    ensures forall i :: 0 <= i < |keys| ==> r[i] == st[keys[i]]
  {
    if keys == [] then [] else [st[keys[0]]] + Project(keys[1..], st)
  }

  /** A duplicate-free key list has as many elements as its set of keys. */
  lemma {:induction false} DistinctCard(keys: seq<string>)
    requires Distinct(keys)
    ensures |set k | k in keys| == |keys|
  {
    if keys != [] {
      var rest := keys[1..];
      assert Distinct(rest);
      DistinctCard(rest);
      assert (set k | k in keys) == (set k | k in rest) + {keys[0]};
      assert keys[0] !in rest;
    }
  }

  class InMemoryRepository {
    var storage: map<string, TaskRecord>
    /** The dict's key order: insertion order, kept when a key is overwritten. */
    var order: seq<string>

    ghost predicate Valid()
      reads this
    {
      Distinct(order)
      && (forall k :: k in order <==> k in storage)
      && (forall k | k in storage :: storage[k].id == k)
    }

    /** `self._storage.values()`. */
    function Values(): (vs: seq<TaskRecord>)
      reads this
      requires Valid()
      ensures |vs| == |order|
    {
      Project(order, storage)
    }

    constructor ()
      ensures Valid() && storage == map[] && order == []
    {
      storage, order := map[], [];
    }

    /** Stores `t` under its id, replacing any earlier task there. */
    method Save(t: TaskRecord)
      requires Valid()
      modifies this
      ensures Valid()
      ensures storage == old(storage)[t.id := t]
      ensures order == if t.id in old(storage) then old(order) else old(order) + [t.id]
    {
      if t.id !in storage {
        order := order + [t.id];
      }
      storage := storage[t.id := t];
    }

    /** The task saved under `key`, if any. */
    method GetById(key: string) returns (r: Option<TaskRecord>)
      requires Valid()
      ensures r.Some? <==> key in storage
      ensures r.Some? ==> r.value == storage[key] && r.value.id == key
    {
      r := if key in storage then Some(storage[key]) else None;
    }

    /** Every stored task exactly once, in insertion order. */
    method ListAll() returns (rs: seq<TaskRecord>)
      requires Valid()
      ensures rs == Values()
      ensures |rs| == |storage|
      ensures forall k | k in storage :: storage[k] in rs
    {
      rs := Values();
      DistinctCard(order);
      assert (set k | k in order) == storage.Keys;
      forall k | k in storage ensures storage[k] in rs {
        var i :| 0 <= i < |order| && order[i] == k;
        assert rs[i] == storage[k];
      }
    }

    /** Removes the key and answers true exactly when it was present. */
    method Delete(key: string) returns (removed: bool)
      requires Valid()
      modifies this
      ensures Valid()
      ensures removed == (key in old(storage))
      ensures storage == old(storage) - {key}
      ensures order == Without(old(order), key)
    {
      removed := key in storage;
      if removed {
        storage := storage - {key};
      }
      order := Without(order, key);
    }

    /** The stored tasks, in storage order, that match every criterion. */
    method FindByCriteria(criteria: Criteria) returns (rs: seq<TaskRecord>)
      requires Valid()
      ensures rs == Select(Values(), criteria)
    {
      var vs := Values();
      rs := FilterMatching(vs, criteria);
    }
  }

  /** `_serialize_entity` for a Task: identifiers as text, priority as its number, status
      as its string, datetimes as stamps, a missing completion time as null. */
  function Serialize(t: TaskRecord): (d: Dict)
    ensures "_type" in d && d["_type"] == Str("Task")
    ensures "id" in d && d["id"] == Str(t.id)
    ensures "priority" in d && d["priority"] == Int(t.priority.Value())
    ensures "status" in d && d["status"] == Str(t.status.Value())
  {
    map[
      "id" := Str(t.id),
      "agent_id" := Str(t.agentId),
      "name" := Str(t.name),
      "description" := Str(t.description),
      "priority" := Int(t.priority.Value()),
      "status" := Str(t.status.Value()),
      "created_at" := Stamp(t.createdAt),
      "updated_at" := Stamp(t.updatedAt),
      "completed_at" := (if t.completedAt.Some? then Stamp(t.completedAt.value) else Null),
      "result" := (if t.result.Some? then Obj(t.result.value) else Null),
      "error" := (if t.error.Some? then Str(t.error.value) else Null),
      "metadata" := Obj(t.metadata),
      "_type" := Str("Task")
    ]
  }

  function StrField(d: Dict, key: string): Option<string> {
    if key in d && d[key].Str? then Some(d[key].s) else None
  }

  function StampField(d: Dict, key: string): Option<Time> {
    if key in d && d[key].Stamp? then Some(d[key].t) else None
  }

  /** `UUID(d[key])` printed back, for a text field that reads as a UUID. */
  function UuidField(d: Dict, key: string): (r: Option<string>)
    ensures r.Some? <==> StrField(d, key).Some? && ParseUuid(StrField(d, key).value).Some?
    ensures r.Some? ==> IsCanonical(r.value)
  {
    var text := StrField(d, key);
    if text.None? then None else ParseUuid(text.value)
  }

  /** `Priority(v)`: the enum finds the member by an equal value, so `True` is LOW and an
      integral float such as `2.0` is MEDIUM; anything else raises ValueError. */
  function PriorityOf(v: Value): (r: Option<Priority>)
    ensures v.Int? ==> r == PriorityFromValue(v.i)
    ensures r.Some? ==> v.Int? || v.Bool? || v.Real?
    ensures v == Bool(true) ==> r == Some(Low)
    ensures v == Bool(false) ==> r == None
    ensures v.Real? && r.Some? ==> v.x == r.value.Value() as real
  {
    match v
    case Int(i) => PriorityFromValue(i)
    case Bool(b) => PriorityFromValue(if b then 1 else 0)
    case Real(x) => if x == x.Floor as real then PriorityFromValue(x.Floor) else None
    case _ => None
  }

  /** A missing key, an id text `UUID()` refuses, or a value the field cannot hold is the
      exception `_deserialize_entity` catches: the whole result is `None`. */
  function Deserialize(d: Dict): (r: Option<TaskRecord>)
    ensures !("_type" in d && d["_type"] == Str("Task")) ==> r == None
    ensures r.Some? ==> UuidField(d, "id") == Some(r.value.id) && UuidField(d, "agent_id") == Some(r.value.agentId)
    ensures r.Some? ==> "priority" in d && PriorityOf(d["priority"]) == Some(r.value.priority)
    ensures r.Some? ==> "status" in d && d["status"] == Str(r.value.status.Value())
  {
    if !("_type" in d && d["_type"] == Str("Task")) then None
    else if !("priority" in d && "completed_at" in d && "result" in d && "error" in d && "metadata" in d) then None
    else
      var id := UuidField(d, "id");
      var agentId := UuidField(d, "agent_id");
      var name := StrField(d, "name");
      var description := StrField(d, "description");
      var priority := PriorityOf(d["priority"]);
      var status := if StrField(d, "status").Some? then StatusFromValue(StrField(d, "status").value) else None;
      var createdAt := StampField(d, "created_at");
      var updatedAt := StampField(d, "updated_at");
      var completedRaw := d["completed_at"];
      var resultRaw := d["result"];
      var errorRaw := d["error"];
      var metadataRaw := d["metadata"];
      if id.None? || agentId.None? || name.None? || description.None? || priority.None?
         || status.None? || createdAt.None? || updatedAt.None? then None
      else if completedRaw.Truthy() && !completedRaw.Stamp? then None
      else if !(resultRaw.Null? || resultRaw.Obj?) || !(errorRaw.Null? || errorRaw.Str?) then None
      else if !metadataRaw.Obj? then None
      else
        Some(TaskRecord(
          id.value, agentId.value, name.value, description.value, priority.value, status.value,
          createdAt.value, updatedAt.value,
          if completedRaw.Truthy() then Some(completedRaw.t) else None,
          if resultRaw.Obj? then Some(resultRaw.entries) else None,
          if errorRaw.Str? then Some(errorRaw.s) else None,
          metadataRaw.entries))
  }

  /** Deserialising a serialised task gives back a task with equal fields; its ids are
      printed UUIDs, as every `TaskId` and `AgentId` prints. */
  lemma SerializeRoundTrip(t: TaskRecord)
    requires IsCanonical(t.id) && IsCanonical(t.agentId)
    ensures Deserialize(Serialize(t)) == Some(t)
  {
    SerializedText(t);
    SerializedRest(t);
    DeserializeFields(Serialize(t), t);
  }

  /** The text fields `Serialize` writes. */
  lemma SerializedText(t: TaskRecord)
    ensures var d := Serialize(t);
            StrField(d, "id") == Some(t.id) && StrField(d, "agent_id") == Some(t.agentId)
            && StrField(d, "name") == Some(t.name) && StrField(d, "description") == Some(t.description)
            && StrField(d, "status") == Some(t.status.Value())
  {
  }

  /** The other fields `Serialize` writes. */
  lemma SerializedRest(t: TaskRecord)
    ensures var d := Serialize(t);
            StampField(d, "created_at") == Some(t.createdAt) && StampField(d, "updated_at") == Some(t.updatedAt)
            && "priority" in d && d["priority"] == Int(t.priority.Value())
            && "completed_at" in d && d["completed_at"] == (if t.completedAt.Some? then Stamp(t.completedAt.value) else Null)
            && "result" in d && d["result"] == (if t.result.Some? then Obj(t.result.value) else Null)
            && "error" in d && d["error"] == (if t.error.Some? then Str(t.error.value) else Null)
            && "metadata" in d && d["metadata"] == Obj(t.metadata)
  {
  }

  /** A dict holding every field of `t` in the form `Serialize` writes deserialises to `t`. */
  lemma DeserializeFields(d: Dict, t: TaskRecord)
    requires "_type" in d && d["_type"] == Str("Task")
    requires IsCanonical(t.id) && IsCanonical(t.agentId)
    requires StrField(d, "id") == Some(t.id) && StrField(d, "agent_id") == Some(t.agentId)
    requires StrField(d, "name") == Some(t.name) && StrField(d, "description") == Some(t.description)
    requires StrField(d, "status") == Some(t.status.Value())
    requires StampField(d, "created_at") == Some(t.createdAt) && StampField(d, "updated_at") == Some(t.updatedAt)
    requires "priority" in d && d["priority"] == Int(t.priority.Value())
    requires "completed_at" in d && d["completed_at"] == (if t.completedAt.Some? then Stamp(t.completedAt.value) else Null)
    requires "result" in d && d["result"] == (if t.result.Some? then Obj(t.result.value) else Null)
    requires "error" in d && d["error"] == (if t.error.Some? then Str(t.error.value) else Null)
    requires "metadata" in d && d["metadata"] == Obj(t.metadata)
    ensures Deserialize(d) == Some(t)
  {
    CanonicalParses(t.id);
    CanonicalParses(t.agentId);
    PriorityOrder(t.priority, t.priority);
    StatusRoundTrip(t.status);
    assert d["completed_at"].Truthy() <==> t.completedAt.Some?;
  }

  /** `f"{prefix}:{type(entity).__name__.lower()}:{entity.id}"`. */
  function SaveKey(prefix: string, typeName: string, id: string): string {
    prefix + ":" + Strings.Lower(typeName) + ":" + id
  }

  /** The keys `get_by_id` tries, in order. */
  function ProbeKeys(prefix: string, id: string): (ks: seq<string>)
    ensures |ks| == 3
  {
    [prefix + ":task:" + id, prefix + ":agent:" + id, prefix + ":message:" + id]
  }

  /** A task is saved under the first key that a lookup of its id probes. */
  lemma TaskKeyProbedFirst(prefix: string, id: string)
    ensures SaveKey(prefix, "Task", id) == ProbeKeys(prefix, id)[0]
  {
    var lowered := Strings.Lower("Task");
    assert lowered[0] == 't' && lowered[1] == 'a' && lowered[2] == 's' && lowered[3] == 'k';
    assert lowered == "task";
  }
}
