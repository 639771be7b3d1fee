/** Core entities of the coordination runtime: agent and task identifiers, the three
    enumerations, the dynamically typed payloads carried in messages and task results,
    the task entity with its in-place transitions, safety-check results and messages. */
module Domain {
  import opened Wrappers
  import Strings

  /** `str(AgentId)` / `str(TaskId)`: the text of the wrapped UUID. */
  type AgentId = string
  type TaskId = string
  /** A caller-supplied clock reading standing for `datetime.utcnow()`. */
  type Time = int

  datatype AgentType = Prometheus | Daedalus | Logos | Odysseus | Themis {
    /** The member's value, e.g. `AgentType.LOGOS.value == "logos"`. */
    function Value(): string {
      match this
      case Prometheus => "prometheus"
      case Daedalus => "daedalus"
      case Logos => "logos"
      case Odysseus => "odysseus"
      case Themis => "themis"
    }

    /** The member's name, e.g. `AgentType.LOGOS.name == "LOGOS"`. */
    function Name(): string {
      match this
      case Prometheus => "PROMETHEUS"
      case Daedalus => "DAEDALUS"
      case Logos => "LOGOS"
      case Odysseus => "ODYSSEUS"
      case Themis => "THEMIS"
    }
  }

  /** `str(t)` for a plain `Enum` member: the class name, a dot and the member name. */
  function TypeStr(t: AgentType): (s: string)
    ensures |s| > |"AgentType."| && s[..|"AgentType."|] == "AgentType."
    ensures s[|"AgentType."|..] == t.Name()
  {
    "AgentType." + t.Name()
  }

  /** Distinct members print differently, so the text `str(t)` identifies the member. */
  lemma TypeStrInjective(a: AgentType, b: AgentType)
    ensures TypeStr(a) == TypeStr(b) <==> a == b
  {
    if TypeStr(a) == TypeStr(b) {
      assert a.Name() == TypeStr(a)[10..] == TypeStr(b)[10..] == b.Name();
      assert a.Name()[0] == b.Name()[0] && |a.Name()| == |b.Name()|;
    }
  }

  datatype TaskStatus = Pending | InProgress | Completed | Failed | Cancelled {
    function Value(): string {
      match this
      case Pending => "pending"
      case InProgress => "in_progress"
      case Completed => "completed"
      case Failed => "failed"
      case Cancelled => "cancelled"
    }
  }

  /** `TaskStatus(s)`: the member whose value is `s`; `None` where Python raises ValueError. */
  function StatusFromValue(s: string): (r: Option<TaskStatus>)
    ensures r.Some? ==> r.value.Value() == s
    ensures r.None? ==> forall t: TaskStatus :: t.Value() != s
  {
    if s == "pending" then Some(Pending)
    else if s == "in_progress" then Some(InProgress)
    else if s == "completed" then Some(Completed)
    else if s == "failed" then Some(Failed)
    else if s == "cancelled" then Some(Cancelled)
    else None
  }

  datatype Priority = Low | Medium | High | Critical {
    /** The member's value: LOW=1 < MEDIUM=2 < HIGH=3 < CRITICAL=4. */
    function Value(): (v: int)
      ensures 1 <= v <= 4
    {
      match this
      case Low => 1
      case Medium => 2
      case High => 3
      case Critical => 4
    }

    function Name(): string {
      match this
      case Low => "LOW"
      case Medium => "MEDIUM"
      case High => "HIGH"
      case Critical => "CRITICAL"
    }
  }

  /** `Priority(n)`: the member whose value is `n`; `None` where Python raises ValueError. */
  function PriorityFromValue(n: int): (r: Option<Priority>)
    ensures r.Some? ==> r.value.Value() == n
    ensures r.None? <==> !(1 <= n <= 4)
  {
    if n == 1 then Some(Low)
    else if n == 2 then Some(Medium)
    else if n == 3 then Some(High)
    else if n == 4 then Some(Critical)
    else None
  }

  /** The value identifies the member, so priorities are totally ordered by value, and
      `Priority(p.value)` gives back `p`. */
  lemma PriorityOrder(p: Priority, q: Priority)
    ensures p.Value() == q.Value() <==> p == q
    ensures PriorityFromValue(p.Value()) == Some(p)
  {
  }

  /** `TaskStatus(t.value)` gives back `t`. */
  lemma StatusRoundTrip(t: TaskStatus)
    ensures StatusFromValue(t.Value()) == Some(t)
  {
  }

  /** A JSON-like value: the `Any` held by message contents, task results and metadata.
      `Stamp(t)` stands for the ISO text of the datetime `t`. */
  datatype Value =
    | Null
    | Bool(b: bool)
    | Int(i: int)
    | Real(x: real)
    | Str(s: string)
    | Stamp(t: Time)
    | List(items: seq<Value>)
    | Obj(entries: map<string, Value>)
  {
    /** Python truthiness. */
    predicate Truthy() {
      match this
      case Null => false
      case Bool(b) => b
      case Int(i) => i != 0
      case Real(x) => x != 0.0
      case Str(s) => s != ""
      case Stamp(_) => true
      case List(items) => items != []
      case Obj(entries) => entries != map[]
    }
  }

  type Dict = map<string, Value>

  /** `d.get(k, default)`. */
  function Get(d: Dict, k: string, default: Value): Value {
    if k in d then d[k] else default
  }

  /** The text an f-string gives a value: exact for text, None, booleans and integers.
      Floats, datetimes, lists and dicts print as "<value>", since the model has no text
      for a float, a datetime or an unordered dict. */
  function Render(v: Value): string {
    match v
    case Str(s) => s
    case Null => "None"
    case Bool(b) => if b then "True" else "False"
    case Int(i) => if i < 0 then "-" + Strings.NatText(-i) else Strings.NatText(i)
    case _ => "<value>"
  }

  /** Values Python can use as dict keys: anything but a list or a dict. */
  predicate Hashable(v: Value) {
    !v.List? && !v.Obj?
  }

  /** `type(v).__name__`, as Python words it in a TypeError or an AttributeError. */
  function TypeName(v: Value): string {
    match v
    case Null => "NoneType"
    case Bool(_) => "bool"
    case Int(_) => "int"
    case Real(_) => "float"
    case Str(_) => "str"
    case Stamp(_) => "str"
    case List(_) => "list"
    case Obj(_) => "dict"
  }

  /** The TypeError iterating over a value that cannot be iterated raises. */
  function NotIterable(v: Value): string {
    "'" + TypeName(v) + "' object is not iterable"
  }

  /** The AttributeError `.get` on a value that is not a dict raises. */
  function NoGet(v: Value): string {
    "'" + TypeName(v) + "' object has no attribute 'get'"
  }

  /** A list of strings as a value. */
  function TextList(xs: seq<string>): (v: Value)
    ensures v.List? && |v.items| == |xs|
  {
    List(seq(|xs|, i requires 0 <= i < |xs| => Str(xs[i])))
  }

  /** The value of every field of a `Task`. */
  datatype TaskRecord = TaskRecord(
    id: TaskId,
    agentId: AgentId,
    name: string,
    description: string,
    priority: Priority,
    status: TaskStatus,
    createdAt: Time,
    updatedAt: Time,
    completedAt: Option<Time>,
    result: Option<Dict>,
    error: Option<string>,
    metadata: Dict)

  /** The record of `Task(id=.., agent_id=.., name=.., description=.., priority=.., metadata=..)`
      built at time `now`: every other field takes its dataclass default. */
  function NewRecord(id: TaskId, agentId: AgentId, name: string, description: string,
                     priority: Priority, metadata: Dict, now: Time): (r: TaskRecord)
    ensures r.id == id && r.agentId == agentId && r.priority == priority && r.metadata == metadata
    ensures r.status == Pending && r.completedAt == None && r.result == None && r.error == None
    ensures r.createdAt == now && r.updatedAt == now
  {
    TaskRecord(id, agentId, name, description, priority, Pending, now, now, None, None, None, metadata)
  }

  /** The task entity; its `Mark*` transitions update it in place and apply from any status. */
  class Task {
    const id: TaskId
    var agentId: AgentId
    var name: string
    var description: string
    var priority: Priority
    var status: TaskStatus
    var createdAt: Time
    var updatedAt: Time
    var completedAt: Option<Time>
    var result: Option<Dict>
    var error: Option<string>
    var metadata: Dict

    function Snapshot(): TaskRecord
      reads this
    {
      TaskRecord(id, agentId, name, description, priority, status, createdAt, updatedAt,
                 completedAt, result, error, metadata)
    }

    /** `Task()` with only the identifiers given: empty name and description, MEDIUM,
        PENDING, nothing completed, empty metadata. */
    constructor (id: TaskId, agentId: AgentId, now: Time)
      ensures Snapshot() == NewRecord(id, agentId, "", "", Medium, map[], now)
    {
      this.id := id;
      this.agentId := agentId;
      name, description, priority, status := "", "", Medium, Pending;
      createdAt, updatedAt := now, now;
      completedAt, result, error, metadata := None, None, None, map[];
    }

    /** A task object carrying the fields of `r`. */
    constructor FromRecord(r: TaskRecord)
      ensures Snapshot() == r
    {
      id, agentId, name, description := r.id, r.agentId, r.name, r.description;
      priority, status, createdAt, updatedAt := r.priority, r.status, r.createdAt, r.updatedAt;
      completedAt, result, error, metadata := r.completedAt, r.result, r.error, r.metadata;
    }

    method MarkInProgress(now: Time)
      modifies this
      ensures Snapshot() == old(Snapshot()).(status := InProgress, updatedAt := now)
    {
      status := InProgress;
      updatedAt := now;
    }

    method MarkCompleted(res: Dict, now: Time)
      modifies this
      ensures Snapshot() == old(Snapshot()).(status := Completed, result := Some(res),
                                             completedAt := Some(now), updatedAt := now)
    {
      status := Completed;
      result := Some(res);
      completedAt := Some(now);
      updatedAt := now;
    }

    /** Leaves `completedAt` and `result` as they were. */
    method MarkFailed(err: string, now: Time)
      modifies this
      ensures Snapshot() == old(Snapshot()).(status := Failed, error := Some(err), updatedAt := now)
    {
      status := Failed;
      error := Some(err);
      updatedAt := now;
    }
  }

  /** The outcome of one safety check; `status` is "passed", "warning" or "failed" and
      `severity` is "low", "medium", "high" or "critical". */
  datatype SafetyCheck = SafetyCheck(checkType: string, status: string, message: string,
                                     severity: string, metadata: Dict)

  /** `SafetyCheck(check_type=..)` with every other field defaulted. */
  function DefaultSafetyCheck(checkType: string): (c: SafetyCheck)
    ensures c.status == "passed" && c.severity == "low"
    ensures c.checkType == checkType && c.message == "" && c.metadata == map[]
  {
    SafetyCheck(checkType, "passed", "", "low", map[])
  }

  /** An inter-agent message; its UUID and timestamp are not modelled. */
  datatype Message = Message(sender: AgentId, receiver: AgentId, content: Dict, kind: string)

  /** `Message(sender_id=.., receiver_id=.., content=..)`: the kind defaults to "general". */
  function DefaultMessage(sender: AgentId, receiver: AgentId, content: Dict): (m: Message)
    ensures m.kind == "general" && m.sender == sender && m.receiver == receiver
  {
    Message(sender, receiver, content, "general")
  }
}
