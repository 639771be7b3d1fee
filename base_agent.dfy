/** The agent runtime every role shares: the active flag, the duplicate-free subordinate
    list, the supervisor pointer, message sends through the event bus, and the task
    execution driver with its safety gate. */
module BaseAgents {
  import opened Wrappers
  import opened Domain
  import opened EventBus
  import opened Repositories

  /** What a role's `_execute_task_internal` does with a task: returns a result dict, or
      raises an exception whose text is given. */
  type Outcome = Result<Dict, string>

  /** `any(check.status == "failed" for check in checks)`. */
  predicate AnyFailed(checks: seq<SafetyCheck>) {
    exists i :: 0 <= i < |checks| && checks[i].status == "failed"
  }

  /** The base `_perform_safety_checks`, which no role overrides: no checks at all, so the
      safety gate never stops a task. */
  function DefaultSafetyChecks(t: TaskRecord): (cs: seq<SafetyCheck>)
    ensures !AnyFailed(cs)
  {
    []
  }

  /** `add_subordinate` on a list: `s` appended unless it is already there. */
  function AddedOnce(subs: seq<AgentId>, s: AgentId): (r: seq<AgentId>)
    ensures s in r && forall y :: y in r <==> y in subs || y == s
  {
    if s in subs then subs else subs + [s]
  }

  /** `list.remove(x)`: drops the first occurrence of `x`, if any. */
  function RemoveFirst(xs: seq<AgentId>, x: AgentId): (r: seq<AgentId>)
    ensures x in xs ==> |r| == |xs| - 1
    ensures x !in xs ==> r == xs
    ensures Distinct(xs) ==> Distinct(r) && forall y :: y in r <==> y in xs && y != x
  {
    if xs == [] then []
    else if xs[0] == x then xs[1..]
    else
      var rest := RemoveFirst(xs[1..], x);
      assert Distinct(xs) ==> xs[0] !in rest && Distinct([xs[0]] + rest);
      [xs[0]] + rest
  }

  /** One message from `sender` to each receiver, in order. */
  function Fanout(sender: AgentId, receivers: seq<AgentId>, content: Dict, kind: string): (ms: seq<Message>)
    ensures |ms| == |receivers|
    ensures forall i | 0 <= i < |ms| :: ms[i].sender == sender
  {
    if receivers == [] then []
    else [Message(sender, receivers[0], content, kind)] + Fanout(sender, receivers[1..], content, kind)
  }

  /** The `i`-th message of a fan-out goes to the `i`-th receiver. */
  lemma {:induction false} FanoutAt(sender: AgentId, receivers: seq<AgentId>, content: Dict, kind: string, i: nat)
    requires i < |receivers|
    ensures Fanout(sender, receivers, content, kind)[i] == Message(sender, receivers[i], content, kind)
    decreases i
  {
    if i > 0 {
      FanoutAt(sender, receivers[1..], content, kind, i - 1);
    }
  }

  lemma {:induction false} FanoutSnoc(sender: AgentId, receivers: seq<AgentId>, r: AgentId, content: Dict, kind: string)
    ensures Fanout(sender, receivers + [r], content, kind)
            == Fanout(sender, receivers, content, kind) + [Message(sender, r, content, kind)]
  {
    var a := Fanout(sender, receivers + [r], content, kind);
    var b := Fanout(sender, receivers, content, kind) + [Message(sender, r, content, kind)];
    assert |a| == |b|;
    forall i | 0 <= i < |a| ensures a[i] == b[i] {
      FanoutAt(sender, receivers + [r], content, kind, i);
      if i < |receivers| {
        FanoutAt(sender, receivers, content, kind, i);
      }
    }
  }

  /** What `report_to_supervisor` sends: one "report" if a supervisor is set, else nothing. */
  function ToSupervisor(me: AgentId, supervisor: Option<AgentId>, content: Dict): (ms: seq<Message>)
    ensures |ms| <= 1 && (ms != [] <==> supervisor.Some?)
    ensures forall m | m in ms :: m.sender == me && m.receiver == supervisor.value && m.content == content && m.kind == "report"
  {
    if supervisor.Some? then [Message(me, supervisor.value, content, "report")] else []
  }

  /** The fields of the task after `execute_task`, from its fields `r` before: in progress
      at `started`, then failed on a failed safety check, completed with the action's
      result, or failed with the text of the action's exception, at `finished`. */
  function Executed(r: TaskRecord, checks: seq<SafetyCheck>, outcome: Outcome, started: Time, finished: Time): (e: TaskRecord)
    ensures e.status == Completed <==> !AnyFailed(checks) && outcome.Success?
    ensures e.status != Completed ==> e.status == Failed && e.completedAt == r.completedAt && e.result == r.result
    ensures AnyFailed(checks) ==> e.error == Some("Safety check failed")
    ensures !AnyFailed(checks) && outcome.Failure? ==> e.error == Some(outcome.error)
    ensures e.status == Completed ==> e.result == Some(outcome.value) && e.completedAt == Some(finished) && e.error == r.error
    ensures e.updatedAt == finished && e.createdAt == r.createdAt
    ensures e.(status := r.status, updatedAt := r.updatedAt, completedAt := r.completedAt,
               result := r.result, error := r.error) == r
  {
    var inProgress := r.(status := InProgress, updatedAt := started);
    if AnyFailed(checks) then inProgress.(status := Failed, error := Some("Safety check failed"), updatedAt := finished)
    else if outcome.Success? then
      inProgress.(status := Completed, result := Some(outcome.value), completedAt := Some(finished), updatedAt := finished)
    else inProgress.(status := Failed, error := Some(outcome.error), updatedAt := finished)
  }
  /** A second save under the same key replaces the first. */
  lemma UpdateTwice<K, V>(m: map<K, V>, k: K, a: V, b: V)
    ensures m[k := a][k := b] == m[k := b]
  {
  }

  /** Executing a task that is already in progress since `started` ends where executing
      it from its earlier state does. */
  lemma ExecutedFromInProgress(r: TaskRecord, checks: seq<SafetyCheck>, outcome: Outcome, started: Time, finished: Time)
    ensures Executed(r.(status := InProgress, updatedAt := started), checks, outcome, started, finished)
            == Executed(r, checks, outcome, started, finished)
  {
  }


  /** What `get_status` reports. */
  datatype AgentStatus = AgentStatus(id: AgentId, typ: Option<string>, active: bool,
                                     subordinates: seq<AgentId>, supervisor: Option<AgentId>)

  /** What `get_health` reports. */
  datatype Health = Health(status: string, uptime: string)

  class BaseAgent {
    const id: AgentId
    const agentType: Option<AgentType>
    const bus: InMemoryEventBus?
    const repo: InMemoryRepository?
    var active: bool
    var subordinates: seq<AgentId>
    var supervisor: Option<AgentId>

    /** The subordinate list never holds an id twice. */
    ghost predicate Valid()
      reads this
    {
      Distinct(subordinates)
    }

    constructor (id: AgentId, agentType: Option<AgentType>, bus: InMemoryEventBus?, repo: InMemoryRepository?)
      ensures Valid()
      ensures this.id == id && this.agentType == agentType && this.bus == bus && this.repo == repo
      ensures !active && subordinates == [] && supervisor == None
    {
      this.id, this.agentType, this.bus, this.repo := id, agentType, bus, repo;
      active, subordinates, supervisor := false, [], None;
    }

    /** Activates the agent and subscribes its handler under its own id. */
    method Start()
      modifies this, bus
      ensures active && subordinates == old(subordinates) && supervisor == old(supervisor)
      ensures bus != null ==> bus.subscribers == old(bus.subscribers)[id := HandlerOf(id)]
      ensures bus != null ==> bus.queue == old(bus.queue) && bus.running == old(bus.running)
                              && bus.delivered == old(bus.delivered)
    {
      active := true;
      if bus != null {
        bus.Subscribe(id, HandlerOf(id));
      }
    }

    /** Deactivates the agent and unsubscribes it. */
    method Stop()
      modifies this, bus
      ensures !active && subordinates == old(subordinates) && supervisor == old(supervisor)
      ensures bus != null ==> bus.subscribers == old(bus.subscribers) - {id}
      ensures bus != null ==> bus.queue == old(bus.queue) && bus.running == old(bus.running)
                              && bus.delivered == old(bus.delivered)
    {
      active := false;
      if bus != null {
        bus.Unsubscribe(id);
      }
    }

    /** `stop` when the bus's `unsubscribe` raises (as a networked bus can): the flag is
        cleared before the call, so the agent ends inactive and still subscribed, and the
        exception goes to the caller. */
    method StopUnsubscribeRaising()
      modifies this
      ensures !active && subordinates == old(subordinates) && supervisor == old(supervisor)
    {
      active := false;
    }

    /** Appends `s` unless it is already a subordinate. */
    method AddSubordinate(s: AgentId)
      modifies this
      ensures old(Valid()) ==> Valid()
      ensures subordinates == AddedOnce(old(subordinates), s)
      ensures active == old(active) && supervisor == old(supervisor)
    {
      if s !in subordinates {
        subordinates := subordinates + [s];
      }
    }

    /** Removes `s` if it is a subordinate; otherwise nothing changes. */
    method RemoveSubordinate(s: AgentId)
      modifies this
      ensures subordinates == RemoveFirst(old(subordinates), s)
      ensures old(Valid()) ==> Valid() && forall y :: y in subordinates <==> y in old(subordinates) && y != s
      ensures active == old(active) && supervisor == old(supervisor)
    {
      if s in subordinates {
        subordinates := RemoveFirst(subordinates, s);
      }
    }

    /** Overwrites the supervisor unconditionally. */
    method SetSupervisor(s: AgentId)
      modifies this
      ensures supervisor == Some(s)
      ensures active == old(active) && subordinates == old(subordinates)
    {
      supervisor := Some(s);
    }

    /** Publishes one message from this agent, or nothing without a bus. */
    method SendMessage(receiver: AgentId, content: Dict, kind: string)
      modifies bus
      ensures bus != null ==> bus.queue == old(bus.queue) + [Message(id, receiver, content, kind)] && bus.running
      ensures bus != null ==> bus.subscribers == old(bus.subscribers) && bus.delivered == old(bus.delivered)
    {
      if bus != null {
        bus.Publish(Message(id, receiver, content, kind));
      }
    }

    /** One message to each subordinate, in list order (the default kind is "broadcast"). */
    method BroadcastToSubordinates(content: Dict, kind: string)
      modifies bus
      ensures bus != null ==> bus.queue == old(bus.queue) + Fanout(id, subordinates, content, kind)
      ensures bus != null ==> bus.subscribers == old(bus.subscribers) && bus.delivered == old(bus.delivered)
      ensures bus != null && subordinates != [] ==> bus.running
      ensures bus != null && subordinates == [] ==> bus.running == old(bus.running)
    {
      for i := 0 to |subordinates|
        invariant bus != null ==> bus.queue == old(bus.queue) + Fanout(id, subordinates[..i], content, kind)
        invariant bus != null ==> bus.subscribers == old(bus.subscribers) && bus.delivered == old(bus.delivered)
        invariant bus != null && i > 0 ==> bus.running
        invariant bus != null && i == 0 ==> bus.running == old(bus.running)
      {
        SendMessage(subordinates[i], content, kind);
        FanoutSnoc(id, subordinates[..i], subordinates[i], content, kind);
        assert subordinates[..i + 1] == subordinates[..i] + [subordinates[i]];
      }
      assert subordinates[..|subordinates|] == subordinates;
    }

    /** Sends to the supervisor if one is set (the default kind is "report"). */
    method ReportToSupervisor(content: Dict, kind: string)
      modifies bus
      ensures bus != null && supervisor.Some? ==>
                bus.queue == old(bus.queue) + [Message(id, supervisor.value, content, kind)] && bus.running
      ensures supervisor.None? ==> bus != null ==> bus.queue == old(bus.queue) && bus.running == old(bus.running)
      ensures bus != null ==> bus.subscribers == old(bus.subscribers) && bus.delivered == old(bus.delivered)
    {
      if supervisor.Some? {
        SendMessage(supervisor.value, content, kind);
      }
    }

    /** `_handle_message`, given what `process_message` did with the message: a reply is
        published; no reply, an exception, or a missing bus publishes nothing. */
    method HandleMessage(reply: Result<Option<Message>, string>)
      modifies bus
      ensures bus != null && reply.Success? && reply.value.Some? ==>
                bus.queue == old(bus.queue) + [reply.value.value] && bus.running
      ensures !(reply.Success? && reply.value.Some?) ==> bus != null ==>
                bus.queue == old(bus.queue) && bus.running == old(bus.running)
      ensures bus != null ==> bus.subscribers == old(bus.subscribers) && bus.delivered == old(bus.delivered)
    {
      if reply.Success? && reply.value.Some? && bus != null {
        bus.Publish(reply.value.value);
      }
    }

    /** The end of `execute_task` after the in-progress save: the safety gate, then the
        action's outcome. */
    method Conclude(task: Task, checks: seq<SafetyCheck>, outcome: Outcome, finished: Time)
      modifies task
      ensures var r := old(task.Snapshot());
        task.Snapshot() == Executed(r, checks, outcome, r.updatedAt, finished)
    {
      if AnyFailed(checks) {
        task.MarkFailed("Safety check failed", finished);
      } else {
        match outcome {
          case Success(result) =>
            task.MarkCompleted(result, finished);
          case Failure(e) =>
            task.MarkFailed(e, finished);
        }
      }
    }

    /** `execute_task`: marks the task in progress and saves it, applies the safety gate,
        then completes or fails it. A failed safety check returns before the final save,
        so the store keeps the in-progress snapshot; every other path saves the end state. */
    method ExecuteTask(task: Task, checks: seq<SafetyCheck>, outcome: Outcome, started: Time, finished: Time)
      returns (t: Task)
      requires repo != null ==> repo.Valid()
      modifies task, repo
      ensures t == task
      ensures task.Snapshot() == Executed(old(task.Snapshot()), checks, outcome, started, finished)
      ensures repo != null ==> repo.Valid()
      ensures repo != null && AnyFailed(checks) ==>
                repo.storage == old(repo.storage)[task.id := old(task.Snapshot()).(status := InProgress, updatedAt := started)]
      ensures repo != null && !AnyFailed(checks) ==>
                repo.storage == old(repo.storage)[task.id := task.Snapshot()]
    {
      ghost var r0 := task.Snapshot();
      ghost var inProgress := r0.(status := InProgress, updatedAt := started);
      task.MarkInProgress(started);
      if repo != null {
        repo.Save(task.Snapshot());
      }
      assert task.Snapshot() == inProgress;
      Conclude(task, checks, outcome, finished);
      ExecutedFromInProgress(r0, checks, outcome, started, finished);
      if repo != null && !AnyFailed(checks) {
        repo.Save(task.Snapshot());
        UpdateTwice(old(repo.storage), task.id, inProgress, task.Snapshot());
      }
      t := task;
    }

    function GetStatus(): (s: AgentStatus)
      reads this
      ensures s.id == id && s.active == active && s.subordinates == subordinates && s.supervisor == supervisor
      ensures s.typ.Some? <==> agentType.Some?
      ensures agentType.Some? ==> s.typ == Some(TypeStr(agentType.value))
    {
      AgentStatus(id, if agentType.Some? then Some(TypeStr(agentType.value)) else None,
                  active, subordinates, supervisor)
    }

    function GetHealth(): (h: Health)
      reads this
      ensures h.status == "healthy" <==> active
      ensures !active ==> h.status == "inactive"
    {
      Health(if active then "healthy" else "inactive", "N/A")
    }
  }
}
