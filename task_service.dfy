/** The task service: task creation against the agent registry, field updates with
    metadata merging, cancellation of live tasks, execution through the owning agent,
    reassignment, filtered and paginated listing, and the per-status, per-priority and
    per-agent statistics. */
module TaskServices {
  import opened Wrappers
  import opened Domain
  import opened Repositories
  import opened BaseAgents
  import opened AgentManagement
  import Strings
  import opened Uuids

  // ---------------------------------------------------------------------------------
  // Record-level effects of the mutating operations

  /** `cancel_task` on a task with fields `r`: only a PENDING or IN_PROGRESS task is
      cancelled; `None` stands for the refusal. */
  function CancelRecord(r: TaskRecord): (c: Option<TaskRecord>)
    ensures c.Some? <==> r.status == Pending || r.status == InProgress
    ensures c.Some? ==> c.value.status == Cancelled && c.value.(status := r.status) == r
  {
    if r.status == Pending || r.status == InProgress then Some(r.(status := Cancelled)) else None
  }

  /** A cancelled task cannot be cancelled again, and neither can a completed or failed one. */
  lemma CancelOnce(r: TaskRecord)
    ensures CancelRecord(r).Some? ==> CancelRecord(CancelRecord(r).value) == None
    ensures r.status in {Completed, Failed, Cancelled} ==> CancelRecord(r) == None
  {
  }

  /** `update_task` on a task with fields `r`: each field given as non-None replaces the
      old one, and the metadata dict is updated in place with the given entries. */
  function UpdatedRecord(r: TaskRecord, name: Option<string>, description: Option<string>,
                         priority: Option<Priority>, metadata: Option<Dict>): (u: TaskRecord)
    ensures u.(name := r.name, description := r.description, priority := r.priority, metadata := r.metadata) == r
  {
    r.(name := if name.Some? then name.value else r.name,
       description := if description.Some? then description.value else r.description,
       priority := if priority.Some? then priority.value else r.priority,
       metadata := if metadata.Some? then r.metadata + metadata.value else r.metadata)
  }

  /** An update never touches the lifecycle: identity, owner, status, timestamps, result
      and error stay as they were. The metadata keeps every old key, and each key given
      takes the new value. */
  lemma UpdateKeepsLifecycle(r: TaskRecord, name: Option<string>, description: Option<string>,
                             priority: Option<Priority>, metadata: Option<Dict>)
    ensures var u := UpdatedRecord(r, name, description, priority, metadata);
      u.id == r.id && u.agentId == r.agentId && u.status == r.status
      && u.createdAt == r.createdAt && u.updatedAt == r.updatedAt && u.completedAt == r.completedAt
      && u.result == r.result && u.error == r.error
      && (name.Some? ==> u.name == name.value) && (name.None? ==> u.name == r.name)
      && (priority.Some? ==> u.priority == priority.value) && (priority.None? ==> u.priority == r.priority)
      && r.metadata.Keys <= u.metadata.Keys
      && (metadata.Some? ==> forall k | k in metadata.value :: u.metadata[k] == metadata.value[k])
      && (forall k | k in r.metadata && (metadata.None? || k !in metadata.value) ::
            u.metadata[k] == r.metadata[k])
  {
  }

  /** Repeating the same update changes nothing more. */
  lemma UpdateIdempotent(r: TaskRecord, name: Option<string>, description: Option<string>,
                         priority: Option<Priority>, metadata: Option<Dict>)
    ensures var u := UpdatedRecord(r, name, description, priority, metadata);
      UpdatedRecord(u, name, description, priority, metadata) == u
  {
    var u := UpdatedRecord(r, name, description, priority, metadata);
    if metadata.Some? {
      assert u.metadata + metadata.value == u.metadata;
    }
  }

  // ---------------------------------------------------------------------------------
  // The fallback filter of `list_tasks`

  /** What one filter item does to a task in the fallback loop: let it through, exclude
      it, or raise (`.lower()` on a value that has no such method). */
  datatype Verdict = Keep | Exclude | Raise

  /** The three keys the fallback loop handles; a mismatch on any other key is ignored. */
  predicate SpecialKey(key: string) {
    key == "agent_id" || key == "status" || key == "priority"
  }

  /** One pass of the inner loop: a value equal to the attribute passes; otherwise the
      agent id is compared by its text, the status by its value and the priority by its
      lower-cased name. */
  function ItemVerdict(t: TaskRecord, key: string, value: AttrValue): (v: Verdict)
    ensures v == Raise <==> key == "priority" && value != APriority(t.priority) && !value.AStr?
    ensures !SpecialKey(key) ==> v == Keep
  {
    if key == "agent_id" then
      (if value == AAgentId(t.agentId) || value == AStr(t.agentId) then Keep else Exclude)
    else if key == "status" then
      (if value == AStatus(t.status) || value == AStr(t.status.Value()) then Keep else Exclude)
    else if key == "priority" then
      (if value == APriority(t.priority) then Keep
       else if value.AStr? then
         (if Strings.Lower(t.priority.Name()) == Strings.Lower(value.s) then Keep else Exclude)
       else Raise)
    else Keep
  }

  /** The inner loop over the filter items: the first item that does not let the task
      through decides. */
  function FallbackVerdict(t: TaskRecord, filters: Criteria): (v: Verdict)
    ensures v == Keep <==> forall i | 0 <= i < |filters| :: ItemVerdict(t, filters[i].0, filters[i].1) == Keep
  {
    if filters == [] then Keep
    else
      var v := ItemVerdict(t, filters[0].0, filters[0].1);
      if v == Keep then FallbackVerdict(t, filters[1..]) else v
  }

  /** The outer loop over all tasks: the kept tasks in order, or `None` when some task
      makes the inner loop raise. */
  function FallbackFilter(ts: seq<TaskRecord>, filters: Criteria): (r: Option<seq<TaskRecord>>)
    ensures r.None? <==> exists i :: 0 <= i < |ts| && FallbackVerdict(ts[i], filters) == Raise
    ensures r.Some? ==> |r.value| <= |ts|
    ensures r.Some? ==> forall t :: t in r.value <==> t in ts && FallbackVerdict(t, filters) == Keep
  {
    if ts == [] then Some([])
    else
      var init := ts[..|ts| - 1];
      var last := ts[|ts| - 1];
      assert ts == init + [last];
      var prefix := FallbackFilter(init, filters);
      if prefix.None? then
        assert exists i :: 0 <= i < |init| && FallbackVerdict(init[i], filters) == Raise;
        None
      else
        var v := FallbackVerdict(last, filters);
        if v == Raise then None
        else if v == Keep then Some(prefix.value + [last])
        else Some(prefix.value)
  }

  /** A filter item holding exactly the attribute's value always lets the task through,
      so whatever the repository's own search returns, the fallback keeps too. */
  lemma {:induction false} ExactMatchKept(t: TaskRecord, filters: Criteria)
    requires Matches(t, filters)
    ensures FallbackVerdict(t, filters) == Keep
  {
    if filters != [] {
      assert Attr(t, filters[0].0) == Some(filters[0].1);
      assert ItemVerdict(t, filters[0].0, filters[0].1) == Keep;
      assert Matches(t, filters[1..]) by {
        forall i | 0 <= i < |filters[1..]|
          ensures Attr(t, filters[1..][i].0) == Some(filters[1..][i].1)
        {
          assert filters[1..][i] == filters[i + 1];
        }
      }
      ExactMatchKept(t, filters[1..]);
    }
  }

  lemma SelectKeptByFallback(ts: seq<TaskRecord>, filters: Criteria)
    requires FallbackFilter(ts, filters).Some?
    ensures forall t | t in Select(ts, filters) :: t in FallbackFilter(ts, filters).value
  {
    forall t | t in Select(ts, filters) ensures t in FallbackFilter(ts, filters).value {
      ExactMatchKept(t, filters);
    }
  }

  /** Items whose keys are not among the three special ones never exclude a task. */
  lemma {:induction false} OtherKeysKeep(t: TaskRecord, filters: Criteria)
    requires forall i :: 0 <= i < |filters| ==> !SpecialKey(filters[i].0)
    ensures FallbackVerdict(t, filters) == Keep
  {
    if filters != [] {
      assert !SpecialKey(filters[0].0);
      assert forall i :: 0 <= i < |filters[1..]| ==> filters[1..][i] == filters[i + 1];
      OtherKeysKeep(t, filters[1..]);
    }
  }

  /** The fallback compares a status given as text with the status's value, an agent id
      given as text with the id's text, and a priority given as text with the member's
      name, ignoring case; a priority given as anything but text or the member itself
      makes the loop raise. */
  lemma TextFilters(t: TaskRecord, s: string)
    ensures FallbackVerdict(t, [("status", AStr(s))]) == Keep <==> t.status.Value() == s
    ensures FallbackVerdict(t, [("agent_id", AStr(s))]) == Keep <==> t.agentId == s
    ensures FallbackVerdict(t, [("priority", AStr(s))]) == Keep
            <==> Strings.Lower(t.priority.Name()) == Strings.Lower(s)
    ensures forall v: AttrValue :: !v.AStr? && v != APriority(t.priority) ==>
              FallbackVerdict(t, [("priority", v)]) == Raise
  {
    var st: Criteria := [("status", AStr(s))];
    var ag: Criteria := [("agent_id", AStr(s))];
    var pr: Criteria := [("priority", AStr(s))];
    assert st[1..] == [] && ag[1..] == [] && pr[1..] == [];
    forall v: AttrValue | !v.AStr? && v != APriority(t.priority)
      ensures FallbackVerdict(t, [("priority", v)]) == Raise
    {
      var c: Criteria := [("priority", v)];
      assert c[0] == ("priority", v);
    }
  }

  /** The fallback loop of `list_tasks`, item by item with the early `break`. */
  method FallbackTask(t: TaskRecord, filters: Criteria) returns (v: Verdict)
    ensures v == FallbackVerdict(t, filters)
  {
    v := Keep;
    var j := 0;
    while j < |filters|
      invariant 0 <= j <= |filters|
      invariant FallbackVerdict(t, filters) == FallbackVerdict(t, filters[j..])
    {
      assert filters[j..][1..] == filters[j + 1..];
      var w := ItemVerdict(t, filters[j].0, filters[j].1);
      if w != Keep {
        v := w;
        return;
      }
      j := j + 1;
    }
  }

  /** The fallback's outer loop; a raise leaves `None`. */
  method FallbackLoop(all: seq<TaskRecord>, filters: Criteria) returns (r: Option<seq<TaskRecord>>)
    ensures r == FallbackFilter(all, filters)
  {
    var tasks: seq<TaskRecord> := [];
    for i := 0 to |all|
      invariant FallbackFilter(all[..i], filters) == Some(tasks)
    {
      var task := all[i];
      var v := FallbackTask(task, filters);
      FallbackStep(all, i, filters);
      if v == Raise {
        return None;
      }
      if v == Keep {
        tasks := tasks + [task];
      }
    }
    assert all[..|all|] == all;
    r := Some(tasks);
  }

  /** One step of the outer loop: the next task either makes the whole run raise or
      extends the kept prefix by itself or by nothing. */
  lemma FallbackStep(all: seq<TaskRecord>, i: nat, filters: Criteria)
    requires i < |all| && FallbackFilter(all[..i], filters).Some?
    ensures var v := FallbackVerdict(all[i], filters);
      var kept := FallbackFilter(all[..i], filters).value;
      (v == Raise ==> FallbackFilter(all, filters) == None)
      && (v != Raise ==> FallbackFilter(all[..i + 1], filters) == Some(if v == Keep then kept + [all[i]] else kept))
  {
    var pre := all[..i + 1];
    assert pre[..i] == all[..i] && pre[i] == all[i];
    if FallbackVerdict(all[i], filters) == Raise {
      assert FallbackFilter(pre, filters) == None;
      assert pre + all[i + 1..] == all;
      FallbackRaiseSticks(pre, all[i + 1..], filters);
    }
  }

  /** Once a prefix raises, the whole run raises. */
  lemma FallbackRaiseSticks(pre: seq<TaskRecord>, post: seq<TaskRecord>, filters: Criteria)
    requires FallbackFilter(pre, filters) == None
    ensures FallbackFilter(pre + post, filters) == None
  {
    var i :| 0 <= i < |pre| && FallbackVerdict(pre[i], filters) == Raise;
    assert (pre + post)[i] == pre[i];
  }

  // ---------------------------------------------------------------------------------
  // Pagination

  /** How a Python slice bound `i` reads against a length `n`: a negative bound counts
      from the end, and the result is clamped to `0..n`. */
  function SliceBound(i: int, n: nat): (k: nat)
    ensures k <= n
    ensures 0 <= i ==> k == if i <= n then i else n
    ensures i < 0 ==> k == if 0 <= i + n then i + n else 0
  {
    if i < 0 then (if 0 <= i + n then i + n else 0) else if i <= n then i else n
  }

  /** `xs[lo:hi]` with Python's slice rules. */
  function PySlice<T>(xs: seq<T>, lo: int, hi: int): (r: seq<T>)
    ensures |r| <= |xs|
  {
    var a := SliceBound(lo, |xs|);
    var b := SliceBound(hi, |xs|);
    if a <= b then xs[a..b] else []
  }

  function Min(a: int, b: int): int { if a <= b then a else b }

  /** `tasks[offset:min(offset + limit, len(tasks))]`. */
  function Paginate(ts: seq<TaskRecord>, offset: int, limit: int): (r: seq<TaskRecord>)
    ensures |r| <= |ts|
  {
    PySlice(ts, offset, Min(offset + limit, |ts|))
  }

  /** A page never holds more than `limit` tasks, whatever the offset, even a negative
      one; for non-negative arguments it is the window starting at `offset`. */
  lemma PaginateBounds(ts: seq<TaskRecord>, offset: int, limit: int)
    ensures 0 <= limit ==> |Paginate(ts, offset, limit)| <= limit
    ensures 0 <= offset && 0 <= limit ==>
              Paginate(ts, offset, limit)
              == ts[Min(offset, |ts|)..Min(offset + limit, |ts|)]
  {
  }

  /** A negative limit is read as a count from the end: `limit=-1` drops only the last task. */
  lemma NegativeLimit(ts: seq<TaskRecord>)
    requires |ts| >= 1
    ensures Paginate(ts, 0, -1) == ts[..|ts| - 1]
  {
  }

  /** The page `list_tasks` returns for a store whose tasks are `vs` in order: no filter
      lists everything, a repository with its own search uses it, and any other falls
      back to the item-by-item loop; a raise inside it yields an empty list. */
  function Listed(vs: seq<TaskRecord>, filters: Criteria, limit: int, offset: int, hasFind: bool): (r: seq<TaskRecord>)
    ensures |r| <= |vs|
    ensures 0 <= limit ==> |r| <= limit
    ensures filters == [] ==> r == Paginate(vs, offset, limit)
    ensures filters != [] && hasFind ==> r == Paginate(Select(vs, filters), offset, limit)
    ensures filters != [] && !hasFind && FallbackFilter(vs, filters).None? ==> r == []
    ensures filters != [] && !hasFind && FallbackFilter(vs, filters).Some? ==>
              r == Paginate(FallbackFilter(vs, filters).value, offset, limit)
  {
    var tasks :=
      if filters == [] then Some(vs)
      else if hasFind then Some(Select(vs, filters))
      else FallbackFilter(vs, filters);
    if tasks.None? then []
    else
      PaginateBounds(tasks.value, offset, limit);
      Paginate(tasks.value, offset, limit)
  }

  /** On a repository with its own search, asking for the tasks of one status by its
      text, or of one agent by its id text, finds nothing: the search compares the enum
      member and the `AgentId` with a string. */
  lemma TextQueriesFindNothing(vs: seq<TaskRecord>, s: string, limit: int, offset: int)
    ensures Listed(vs, [("status", AStr(s))], limit, offset, true) == []
    ensures Listed(vs, [("agent_id", AStr(s))], limit, offset, true) == []
  {
    StatusStringNeverMatches(vs, s);
    AgentIdStringNeverMatches(vs, s);
  }

  // ---------------------------------------------------------------------------------
  // Statistics

  /** A count dict built with `d[k] = d.get(k, 0) + 1`: its entries in insertion order. */
  type Tally = seq<(string, nat)>

  function Keys(d: Tally): (ks: seq<string>)
    ensures |ks| == |d| && forall i :: 0 <= i < |d| ==> ks[i] == d[i].0
  {
    if d == [] then [] else [d[0].0] + Keys(d[1..])
  }

  /** `d.get(k, 0)`. */
  function Count(d: Tally, k: string): nat {
    if d == [] then 0 else if d[0].0 == k then d[0].1 else Count(d[1..], k)
  }

  /** `sum(d.values())`. */
  function Sum(d: Tally): nat {
    if d == [] then 0 else d[0].1 + Sum(d[1..])
  }

  /** `d[k] = d.get(k, 0) + 1`: a new key goes last, an existing one keeps its place. */
  function Bump(d: Tally, k: string): (r: Tally)
    ensures Count(r, k) == Count(d, k) + 1
    ensures forall o :: o != k ==> Count(r, o) == Count(d, o)
    ensures Sum(r) == Sum(d) + 1
    ensures Keys(r) == if k in Keys(d) then Keys(d) else Keys(d) + [k]
  {
    if d == [] then [(k, 1)]
    else if d[0].0 == k then
      var r := [(k, d[0].1 + 1)] + d[1..];
      assert r[1..] == d[1..];
      r
    else
      var rest := Bump(d[1..], k);
      var r := [d[0]] + rest;
      assert r[1..] == rest;
      assert k in Keys(d) <==> k in Keys(d[1..]);
      r
  }

  /** The dict the counting loop builds from the keys `ks`, in order. Its keys are those
      of `ks`, once each; each count is the number of occurrences; the counts add up to
      the number of keys. */
  function TallyOf(ks: seq<string>): (r: Tally)
    ensures Sum(r) == |ks|
    ensures forall k :: Count(r, k) == multiset(ks)[k]
    ensures forall k :: k in Keys(r) <==> k in ks
    ensures Distinct(Keys(r))
  {
    if ks == [] then []
    else
      var init := ks[..|ks| - 1];
      var k := ks[|ks| - 1];
      assert ks == init + [k];
      Bump(TallyOf(init), k)
  }

  function StatusValues(ts: seq<TaskRecord>): (ks: seq<string>)
    ensures |ks| == |ts| && forall i :: 0 <= i < |ts| ==> ks[i] == ts[i].status.Value()
  {
    seq(|ts|, i requires 0 <= i < |ts| => ts[i].status.Value())
  }

  function PriorityNames(ts: seq<TaskRecord>): (ks: seq<string>)
    ensures |ks| == |ts| && forall i :: 0 <= i < |ts| ==> ks[i] == ts[i].priority.Name()
  {
    seq(|ts|, i requires 0 <= i < |ts| => ts[i].priority.Name())
  }

  function AgentIds(ts: seq<TaskRecord>): (ks: seq<string>)
    ensures |ks| == |ts| && forall i :: 0 <= i < |ts| ==> ks[i] == ts[i].agentId
  {
    seq(|ts|, i requires 0 <= i < |ts| => ts[i].agentId)
  }

  /** What `get_task_statistics` reports; the two rates are exact quotients. */
  datatype Statistics = Statistics(total: nat, byStatus: Tally, byPriority: Tally, byAgent: Tally,
                                   completionRate: real, failureRate: real)

  /** `n / total` when there are tasks, else 0.0. */
  function Rate(n: nat, total: nat): real {
    if total > 0 then n as real / total as real else 0.0
  }

  /** The statistics of the tasks `ts`, listed in store order. */
  function StatisticsOf(ts: seq<TaskRecord>): (s: Statistics)
    ensures s.total == |ts|
    ensures ts == [] ==> s.completionRate == 0.0 && s.failureRate == 0.0
  {
    Statistics(|ts|, TallyOf(StatusValues(ts)), TallyOf(PriorityNames(ts)), TallyOf(AgentIds(ts)),
               Rate(CountStatus(ts, Completed), |ts|), Rate(CountStatus(ts, Failed), |ts|))
  }

  /** Two statuses with the same value are the same status. */
  lemma StatusValueInjective(a: TaskStatus, b: TaskStatus)
    ensures a.Value() == b.Value() ==> a == b
  {
    if a != b {
      assert a.Value() != b.Value() by {
        if |a.Value()| == |b.Value()| {
          assert a.Value()[1] != b.Value()[1];
        }
      }
    }
  }

  /** The status tally counts each status value as many times as tasks have that status. */
  lemma {:induction false} StatusTallyCounts(ts: seq<TaskRecord>, s: TaskStatus)
    ensures multiset(StatusValues(ts))[s.Value()] == CountStatus(ts, s)
  {
    if ts != [] {
      assert StatusValues(ts) == [ts[0].status.Value()] + StatusValues(ts[1..]);
      StatusValueInjective(ts[0].status, s);
      StatusTallyCounts(ts[1..], s);
    }
  }

  /** The status dict counts each status exactly. */
  lemma StatusTallyExact(ts: seq<TaskRecord>)
    ensures forall st: TaskStatus :: Count(TallyOf(StatusValues(ts)), st.Value()) == CountStatus(ts, st)
  {
    forall st: TaskStatus ensures Count(TallyOf(StatusValues(ts)), st.Value()) == CountStatus(ts, st) {
      StatusTallyCounts(ts, st);
    }
  }

  /** Two counts that together do not exceed the total give rates that add up to at most 1. */
  lemma RateSum(c: nat, f: nat, n: nat)
    requires c + f <= n
    ensures 0.0 <= Rate(c, n) && 0.0 <= Rate(f, n) && Rate(c, n) + Rate(f, n) <= 1.0
  {
    if n > 0 {
      var m := n as real;
      assert Rate(c, n) + Rate(f, n) == (c + f) as real / m;
      assert (c + f) as real / m <= m / m;
    }
  }

  /** Each of the three dicts counts every task once, the status dict counts each status
      exactly, and the completion and failure rates are fractions that add up to at most 1. */
  lemma StatisticsFacts(ts: seq<TaskRecord>)
    ensures var s := StatisticsOf(ts);
      s.total == |ts| && Sum(s.byStatus) == |ts| && Sum(s.byPriority) == |ts| && Sum(s.byAgent) == |ts|
      && (forall st: TaskStatus :: Count(s.byStatus, st.Value()) == CountStatus(ts, st))
      && 0.0 <= s.completionRate && 0.0 <= s.failureRate
      && s.completionRate + s.failureRate <= 1.0
  {
    StatusTallyExact(ts);
    CountStatusSum(ts);
    RateSum(CountStatus(ts, Completed), CountStatus(ts, Failed), |ts|);
  }

  /** One step of the counting loop. */
  lemma StatisticsStep(all: seq<TaskRecord>, i: nat)
    requires i < |all|
    ensures StatusValues(all[..i + 1]) == StatusValues(all[..i]) + [all[i].status.Value()]
    ensures PriorityNames(all[..i + 1]) == PriorityNames(all[..i]) + [all[i].priority.Name()]
    ensures AgentIds(all[..i + 1]) == AgentIds(all[..i]) + [all[i].agentId]
    ensures CountStatus(all[..i + 1], Completed) == CountStatus(all[..i], Completed) + (if all[i].status == Completed then 1 else 0)
    ensures CountStatus(all[..i + 1], Failed) == CountStatus(all[..i], Failed) + (if all[i].status == Failed then 1 else 0)
  {
    assert all[..i + 1] == all[..i] + [all[i]];
    CountStatusSnoc(all[..i], all[i], Completed);
    CountStatusSnoc(all[..i], all[i], Failed);
    var ks := StatusValues(all[..i + 1]);
    assert ks[..i] == StatusValues(all[..i]);
  }

  /** `TallyOf` grows by one key at a time. */
  lemma TallySnoc(ks: seq<string>, k: string)
    ensures TallyOf(ks + [k]) == Bump(TallyOf(ks), k)
  {
    assert (ks + [k])[..|ks|] == ks;
  }

  // ---------------------------------------------------------------------------------
  // The service

  /** The text of the ValueError `UUID()` raises on a text that is not a UUID. */
  const BadUuid := "badly formed hexadecimal UUID string"

  /** `get_task` finds a task for the id text: it reads as a UUID and a task is stored
      under the printed UUID. */
  predicate Stored(taskText: string, storage: map<TaskId, TaskRecord>) {
    ParseUuid(taskText).Some? && ParseUuid(taskText).value in storage
  }

  /** Every way of writing a stored task's id that `UUID()` accepts finds it: the printed
      form itself, its upper-case form and its braced form. */
  lemma StoredUnderAnySpelling(key: TaskId, storage: map<TaskId, TaskRecord>)
    requires IsCanonical(key) && key in storage
    ensures Stored(key, storage) && Stored(UpperHex(key), storage) && Stored("{" + key + "}", storage)
    ensures ParseUuid(UpperHex(key)).value == key && ParseUuid("{" + key + "}").value == key
  {
    CanonicalParses(key);
    UpperCaseParses(key);
    BracedParses(key);
  }

  class TaskService {
    const manager: AgentManager
    /** The manager's task repository. */
    const repo: InMemoryRepository

    ghost predicate Valid()
      reads this, manager, manager.agents.Values, repo
    {
      repo == manager.repo && manager.Valid() && repo.Valid()
    }

    constructor (manager: AgentManager)
      ensures this.manager == manager && repo == manager.repo
    {
      this.manager := manager;
      repo := manager.repo;
    }

    /** `get_task`: the text is read as a UUID (`None` where `UUID()` raises) and the task
        stored under the printed UUID comes back as a fresh object. */
    method GetTask(taskText: string) returns (r: Option<Task>)
      requires Valid()
      ensures r.Some? <==> Stored(taskText, repo.storage)
      ensures r.Some? ==> fresh(r.value) && r.value.Snapshot() == repo.storage[ParseUuid(taskText).value]
    {
      var key := ParseUuid(taskText);
      if key.None? {
        return None;
      }
      var found := repo.GetById(key.value);
      if found.None? {
        return None;
      }
      var task := new Task.FromRecord(found.value);
      r := Some(task);
    }

    /** `create_task`: an unknown agent is refused with "Agent <id> not found" and a known
        one whose id text is not a UUID with the ValueError of `UUID()`; otherwise a PENDING
        task with the given fields (metadata `{}` when none is given) is saved under the
        fresh id, which stands for `uuid4()` and so is a printed UUID. */
    method CreateTask(agentId: AgentId, name: string, description: string, priority: Priority,
                      metadata: Option<Dict>, newId: TaskId, now: Time) returns (r: Result<Task, string>)
      requires Valid() && IsCanonical(newId)
      modifies repo
      ensures Valid()
      ensures r.Failure? <==> agentId !in manager.agents || ParseUuid(agentId).None?
      ensures agentId !in manager.agents ==> r == Failure("Agent " + agentId + " not found")
      ensures agentId in manager.agents && ParseUuid(agentId).None? ==> r == Failure(BadUuid)
      ensures r.Failure? ==> repo.storage == old(repo.storage)
      ensures r.Success? ==>
                fresh(r.value)
                && r.value.Snapshot() == NewRecord(newId, ParseUuid(agentId).value, name, description, priority,
                                                   if metadata.Some? then metadata.value else map[], now)
                && repo.storage == old(repo.storage)[newId := r.value.Snapshot()]
    {
      var agent := manager.GetAgent(agentId);
      if agent.None? {
        return Failure("Agent " + agentId + " not found");
      }
      var owner := ParseUuid(agentId);
      if owner.None? {
        return Failure(BadUuid);
      }
      var task := new Task(newId, owner.value, now);
      task.name, task.description, task.priority := name, description, priority;
      task.metadata := if metadata.Some? then metadata.value else map[];
      repo.Save(task.Snapshot());
      r := Success(task);
    }

    /** `update_task`: `None` for a missing task; otherwise the given fields are set and
        the task saved. */
    method UpdateTask(taskText: string, name: Option<string>, description: Option<string>,
                      priority: Option<Priority>, metadata: Option<Dict>) returns (r: Option<Task>)
      requires Valid()
      modifies repo
      ensures Valid()
      ensures r.Some? <==> Stored(taskText, old(repo.storage))
      ensures r.None? ==> repo.storage == old(repo.storage)
      ensures r.Some? ==>
                var key := ParseUuid(taskText).value;
                var u := UpdatedRecord(old(repo.storage)[key], name, description, priority, metadata);
                r.value.Snapshot() == u && repo.storage == old(repo.storage)[key := u]
    {
      r := GetTask(taskText);
      if r.None? {
        return;
      }
      var task := r.value;
      ghost var before := task.Snapshot();
      if name.Some? { task.name := name.value; }
      if description.Some? { task.description := description.value; }
      if priority.Some? { task.priority := priority.value; }
      if metadata.Some? { task.metadata := task.metadata + metadata.value; }
      assert task.Snapshot() == UpdatedRecord(before, name, description, priority, metadata);
      repo.Save(task.Snapshot());
    }

    /** `delete_task`: false, with nothing removed, for a text that is not a UUID. */
    method DeleteTask(taskText: string) returns (removed: bool)
      requires Valid()
      modifies repo
      ensures Valid()
      ensures removed <==> Stored(taskText, old(repo.storage))
      ensures ParseUuid(taskText).None? ==> repo.storage == old(repo.storage)
      ensures ParseUuid(taskText).Some? ==> repo.storage == old(repo.storage) - {ParseUuid(taskText).value}
    {
      var key := ParseUuid(taskText);
      if key.None? {
        return false;
      }
      removed := repo.Delete(key.value);
    }

    /** `execute_task`: `None` for a missing task; a task whose agent is gone is failed
        with "Agent not found" at `finished`; any other is run by its agent, which applies
        no safety checks, and the outcome is saved. */
    method ExecuteTask(taskText: string, outcome: Outcome, started: Time, finished: Time) returns (r: Option<Task>)
      requires Valid()
      modifies repo
      ensures Valid()
      ensures r.Some? <==> Stored(taskText, old(repo.storage))
      ensures r.None? ==> repo.storage == old(repo.storage)
      ensures r.Some? ==>
                var key := ParseUuid(taskText).value;
                var before := old(repo.storage)[key];
                var after := if before.agentId in manager.agents
                             then Executed(before, DefaultSafetyChecks(before), outcome, started, finished)
                             else before.(status := Failed, error := Some("Agent not found"), updatedAt := finished);
                r.value.Snapshot() == after && repo.storage == old(repo.storage)[key := after]
    {
      r := GetTask(taskText);
      if r.None? {
        return;
      }
      var task := r.value;
      var agent := manager.GetAgent(task.agentId);
      if agent.None? {
        task.MarkFailed("Agent not found", finished);
        repo.Save(task.Snapshot());
        return;
      }
      var executed := agent.value.ExecuteTask(task, DefaultSafetyChecks(task.Snapshot()), outcome, started, finished);
      repo.Save(executed.Snapshot());
    }

    /** `cancel_task`: true, with the task saved as CANCELLED, exactly for a stored PENDING
        or IN_PROGRESS task; otherwise false and nothing saved. */
    method CancelTask(taskText: string) returns (cancelled: bool)
      requires Valid()
      modifies repo
      ensures Valid()
      ensures cancelled <==> Stored(taskText, old(repo.storage))
                             && CancelRecord(old(repo.storage)[ParseUuid(taskText).value]).Some?
      ensures cancelled ==>
                var key := ParseUuid(taskText).value;
                repo.storage == old(repo.storage)[key := CancelRecord(old(repo.storage)[key]).value]
      ensures !cancelled ==> repo.storage == old(repo.storage)
    {
      var found := GetTask(taskText);
      if found.None? {
        return false;
      }
      var task := found.value;
      if !(task.status == Pending || task.status == InProgress) {
        return false;
      }
      task.status := Cancelled;
      repo.Save(task.Snapshot());
      cancelled := true;
    }

    /** `assign_task_to_agent`: false when the task or the new agent is unknown, or when
        the agent's id text is not a UUID; otherwise only the task's agent id changes, to
        the printed UUID. */
    method AssignTaskToAgent(taskText: string, agentId: AgentId) returns (reassigned: bool)
      requires Valid()
      modifies repo
      ensures Valid()
      ensures reassigned <==> Stored(taskText, old(repo.storage)) && agentId in manager.agents
                              && ParseUuid(agentId).Some?
      ensures reassigned ==>
                var key := ParseUuid(taskText).value;
                repo.storage == old(repo.storage)[key := old(repo.storage)[key].(agentId := ParseUuid(agentId).value)]
      ensures !reassigned ==> repo.storage == old(repo.storage)
    {
      var found := GetTask(taskText);
      if found.None? {
        return false;
      }
      var agent := manager.GetAgent(agentId);
      if agent.None? {
        return false;
      }
      var owner := ParseUuid(agentId);
      if owner.None? {
        return false;
      }
      var task := found.value;
      task.agentId := owner.value;
      repo.Save(task.Snapshot());
      reassigned := true;
    }

    /** `list_tasks`; `hasFind` says whether the repository has `find_by_criteria`. */
    method ListTasks(filters: Criteria, limit: int, offset: int, hasFind: bool) returns (r: seq<TaskRecord>)
      requires Valid()
      ensures r == Listed(repo.Values(), filters, limit, offset, hasFind)
    {
      var tasks: seq<TaskRecord>;
      if filters != [] {
        if hasFind {
          tasks := repo.FindByCriteria(filters);
        } else {
          var all := repo.ListAll();
          var kept := FallbackLoop(all, filters);
          if kept.None? {
            return [];
          }
          tasks := kept.value;
        }
      } else {
        tasks := repo.ListAll();
      }
      r := PySlice(tasks, offset, Min(offset + limit, |tasks|));
    }

    /** `get_pending_tasks` (and likewise `get_active_tasks`, `get_completed_tasks`) on
        the in-memory repository, which has its own search: always empty. */
    method GetTasksByStatus(s: TaskStatus) returns (r: seq<TaskRecord>)
      requires Valid()
      ensures r == []
    {
      r := ListTasks([("status", AStr(s.Value()))], 100, 0, true);
      TextQueriesFindNothing(repo.Values(), s.Value(), 100, 0);
    }

    /** `get_tasks_by_agent` on the in-memory repository: always empty. */
    method GetTasksByAgent(agentId: AgentId) returns (r: seq<TaskRecord>)
      requires Valid()
      ensures r == []
    {
      r := ListTasks([("agent_id", AStr(agentId))], 100, 0, true);
      TextQueriesFindNothing(repo.Values(), agentId, 100, 0);
    }

    /** `get_task_statistics`. */
    method GetTaskStatistics() returns (s: Statistics)
      requires Valid()
      ensures s == StatisticsOf(repo.Values())
    {
      var all := repo.ListAll();
      var byStatus: Tally, byPriority: Tally, byAgent: Tally := [], [], [];
      var completed: nat, failed: nat := 0, 0;
      for i := 0 to |all|
        invariant byStatus == TallyOf(StatusValues(all[..i]))
        invariant byPriority == TallyOf(PriorityNames(all[..i]))
        invariant byAgent == TallyOf(AgentIds(all[..i]))
        invariant completed == CountStatus(all[..i], Completed) && failed == CountStatus(all[..i], Failed)
      {
        var task := all[i];
        StatisticsStep(all, i);
        TallySnoc(StatusValues(all[..i]), task.status.Value());
        TallySnoc(PriorityNames(all[..i]), task.priority.Name());
        TallySnoc(AgentIds(all[..i]), task.agentId);
        byStatus := Bump(byStatus, task.status.Value());
        byPriority := Bump(byPriority, task.priority.Name());
        byAgent := Bump(byAgent, task.agentId);
        if task.status == Completed {
          completed := completed + 1;
        } else if task.status == Failed {
          failed := failed + 1;
        }
      }
      assert all[..|all|] == all;
      s := Statistics(|all|, byStatus, byPriority, byAgent, Rate(completed, |all|), Rate(failed, |all|));
    }

    /** `create_research_phase_tasks`: the guard asks for an agent that is absent and yet
        has `decompose_research_phase`, which never holds, so no task is ever created. */
    method CreateResearchPhaseTasks(phase: string) returns (tasks: seq<Task>)
      requires Valid()
      ensures tasks == []
    {
      tasks := [];
      var agent := manager.GetAgentByType("prometheus");
      var hasDecompose := agent.Some? && agent.value.agentType == Some(Prometheus);
      if agent.None? && hasDecompose {
        assert false;
      }
    }
  }
}
