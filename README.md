# Prometheus coordination runtime in Dafny

This project models the coordination runtime of Project Prometheus. That runtime is a
fixed hierarchy of agents that talk through a publish/subscribe bus and execute tasks
under a safety overseer. The model covers:

- the task entity and its unguarded `mark_*` transitions (`domain.dfy`, module `Domain`);
- the in-memory event bus with its single FIFO queue, routed at dequeue time
  (`event_bus.dfy`, `EventBus`);
- the in-memory repository, its conjunctive `find_by_criteria`, and the Redis
  serialiser/deserialiser pair with its key format (`repositories.dfy`, `Repositories`);
- the base agent: active flag, duplicate-free subordinate list, supervisor pointer,
  fan-out sends and the `execute_task` driver with its safety gate (`base_agent.dfy`,
  `BaseAgents`);
- the agent manager: creation, lookup, lookup by type, removal, hierarchy set-up and
  classification, broadcast counting, emergency halt and statistics
  (`agent_manager.dfy`, `AgentManagement`);
- the task service: create, update, cancel, execute, reassign, listing with its fallback
  filter and pagination, and statistics (`task_service.dfy`, `TaskServices`);
- the role behaviour that follows stated rules:
  - the safety overseer Themis (`themis.dfy`, `SafetyOverseer`);
  - the coordinator Prometheus (`coordinator.dfy`, `Coordinator`);
  - the symbolic verifier Logos (`logos.dfy`, `LogicVerifier`);
  - the architect Daedalus (`daedalus.dfy`, `Architect`);
  - the embodied explorer Odysseus (`odysseus.dfy`, `EmbodiedExplorer`);
- the API's sliding-window rate limiter (`rate_limiter.dfy`, `RateLimiting`).

`wrappers.dfy` holds `Option`/`Result`, and `strings.dfy` holds ASCII lower-casing and
decimal rendering.

Conventions:

- Python exceptions are `Failure` results. A method that raises returns `Failure` with
  the exception's text, and its contract says which state changes happened before the
  raise.
- `async` code is read as ordinary sequential calls.
- Agent subclasses hold their `BaseAgent` as a `base` field instead of inheriting from it.
- Role-specific actions and the replies of `process_message` are parameters: an opaque
  result or a failure.
- The wall clock (`datetime.utcnow()`, `time.time()`) is a caller-supplied time or a
  function from call number to time.
- Fresh ids are caller-supplied too.
- Scores, confidences and rates are exact `real`s.

The repository keeps value semantics. `save` stores a snapshot of the task (a
`TaskRecord`), and `get_by_id` builds a fresh `Task` object from it, as the Redis
deserialiser does. `InMemoryRepository` in the source stores the object itself, so a
later in-place mutation would show in the store. The two behaviours differ in one place:
on the safety-failure path of `BaseAgent.execute_task`, the model's store still holds
the IN_PROGRESS snapshot, where the source's store would show FAILED through aliasing.
`TaskService.execute_task` saves the returned task anyway, so after a service-level
execution both agree.

## Model

| member | source | states |
|---|---|---|
| Domain.TypeStr | prometheus/core/domain.py:16-22 | `str()` of an `AgentType` member is `"AgentType."` followed by exactly the member's name, never its bare value |
| Domain.TypeStrInjective | prometheus/core/domain.py:16-22 | two members print the same text exactly when they are the same member |
| Domain.StatusFromValue | prometheus/core/domain.py:25-31 | `TaskStatus(s)` yields the member whose value is `s`, and fails exactly when no member has that value |
| Domain.StatusRoundTrip | prometheus/core/domain.py:25-31 | looking a status up by its own value gives the status back |
| Domain.Priority.Value | prometheus/core/domain.py:34-39 | priority values lie between 1 (LOW) and 4 (CRITICAL) |
| Domain.PriorityFromValue | prometheus/core/domain.py:34-39 | `Priority(n)` yields the member with value `n`, and fails exactly when `n` is outside 1..4 |
| Domain.PriorityOrder | prometheus/core/domain.py:34-39 | two priorities have the same value exactly when they are the same member, and `Priority(p.value)` is `p` |
| Domain.NewRecord | prometheus/core/domain.py:71-85 | a new task keeps its given identifiers, priority and metadata, is PENDING, has no completion time, result or error, and was created and updated at the construction time |
| Domain.Task.constructor | prometheus/core/domain.py:71-85 | a task built from identifiers alone holds exactly the dataclass defaults |
| Domain.Task.MarkInProgress | prometheus/core/domain.py:87-90 | the status becomes IN_PROGRESS and the update time is the current time; no other field changes |
| Domain.Task.MarkCompleted | prometheus/core/domain.py:92-97 | the status becomes COMPLETED, the result is stored, the completion and update times are set; no other field changes |
| Domain.Task.MarkFailed | prometheus/core/domain.py:99-103 | the status becomes FAILED, the error is stored and the update time set; completion time and result are kept |
| Domain.DefaultSafetyCheck | prometheus/core/domain.py:134-143 | a safety check built with only a type has passed, low severity, an empty message and empty metadata |
| Domain.DefaultMessage | prometheus/core/domain.py:60-68 | a message built without a kind has the kind "general" |
| EventBus.Routed | prometheus/infrastructure/event_bus.py:156-172 | the processor invokes, for each dequeued message whose receiver is subscribed, that receiver's callback, and invokes nothing else |
| EventBus.RoutedAppend | prometheus/infrastructure/event_bus.py:156-172 | callbacks run in publish order: routing two batches in turn is routing their concatenation |
| EventBus.RoutedDropsUnsubscribed | prometheus/infrastructure/event_bus.py:164-167 | a message for a receiver without a subscriber is dropped silently |
| EventBus.InMemoryEventBus.constructor | prometheus/infrastructure/event_bus.py:132-135 | a new bus has no subscribers, an empty queue and a stopped processor |
| EventBus.InMemoryEventBus.Publish | prometheus/infrastructure/event_bus.py:137-143 | the message is enqueued at the tail, nothing is rejected, and the processor is running afterwards |
| EventBus.InMemoryEventBus.Subscribe | prometheus/infrastructure/event_bus.py:145-148 | the callback replaces any earlier one for the same agent; other subscriptions are unchanged |
| EventBus.InMemoryEventBus.Unsubscribe | prometheus/infrastructure/event_bus.py:150-154 | the agent's subscription is removed if present, and nothing changes otherwise |
| EventBus.InMemoryEventBus.Stop | prometheus/infrastructure/event_bus.py:174-176 | the processor's running flag is cleared; queue and subscribers are kept |
| EventBus.InMemoryEventBus.Step | prometheus/infrastructure/event_bus.py:156-172 | one pass of a running processor removes the head message and records its delivery to the receiver's current callback, if any |
| EventBus.InMemoryEventBus.Drain | prometheus/infrastructure/event_bus.py:156-172 | a running processor empties the queue, recording a delivery to the current callback for every queued message in publish order; a stopped one leaves the queue alone |
| Repositories.Attr | prometheus/infrastructure/repositories.py:59-60 | `getattr` on a task gives its status as a `TaskStatus` member, its agent id as an `AgentId` and its priority as a `Priority`, not as their texts |
| Repositories.Select | prometheus/infrastructure/repositories.py:54-67 | the search result holds exactly the stored tasks that have every criterion attribute with an equal value, never more than were stored |
| Repositories.SelectSnoc | prometheus/infrastructure/repositories.py:57-64 | results keep storage order: one more stored task adds itself at the end exactly when it matches |
| Repositories.SelectNoCriteria | prometheus/infrastructure/repositories.py:54-67 | empty criteria return every stored task, in order |
| Repositories.StatusStringNeverMatches | prometheus/infrastructure/repositories.py:249-251 | searching by a status given as its string value finds nothing, since an enum member never equals a string |
| Repositories.AgentIdStringNeverMatches | prometheus/infrastructure/repositories.py:245-247 | searching by an agent id given as text finds nothing, since an `AgentId` never equals a string |
| Repositories.MatchesAll | prometheus/infrastructure/repositories.py:58-62 | the inner loop reports a match exactly when every criterion holds |
| Repositories.FilterMatching | prometheus/infrastructure/repositories.py:56-65 | the outer loop collects exactly the selection, in order |
| Repositories.Without | prometheus/infrastructure/repositories.py:48-49 | deleting a key from the dict's key order removes exactly that key and keeps the others distinct |
| Repositories.DistinctCard | prometheus/infrastructure/repositories.py:39-43 | a dict's key list has as many entries as the dict has keys |
| Repositories.InMemoryRepository.constructor | prometheus/infrastructure/repositories.py:19-20 | a new repository is empty |
| Repositories.InMemoryRepository.Save | prometheus/infrastructure/repositories.py:22-29 | the task is stored under its id, replacing any earlier one there; a new id goes last in the key order, an existing one keeps its place |
| Repositories.InMemoryRepository.GetById | prometheus/infrastructure/repositories.py:31-37 | the lookup finds a task exactly when one is stored under the key, and that task carries the key as its id |
| Repositories.InMemoryRepository.ListAll | prometheus/infrastructure/repositories.py:39-43 | listing returns every stored task exactly once, in insertion order |
| Repositories.InMemoryRepository.Delete | prometheus/infrastructure/repositories.py:45-52 | delete answers true exactly when the key was stored, and removes only that key |
| Repositories.InMemoryRepository.FindByCriteria | prometheus/infrastructure/repositories.py:54-67 | the search returns the selection of the stored tasks, in storage order |
| Uuids.ParseUuid | prometheus/services/task_service.py:72 | `UUID(text)` accepts a text exactly when dropping "urn:", "uuid:", the surrounding braces and the hyphens leaves 32 hex digits, and the id is then printed as lower-case 8-4-4-4-12 |
| Uuids.CanonicalParses | prometheus/services/task_service.py:72 | a printed UUID parses to itself |
| Uuids.ParseIdempotent | prometheus/services/task_service.py:72 | parsing the printed form of a parsed text gives the same id again |
| Uuids.UpperCaseParses | prometheus/services/task_service.py:72 | the upper-case form of a printed UUID names the same id |
| Uuids.BracedParses | prometheus/services/task_service.py:72 | the braced form of a printed UUID names the same id |
| Uuids.ShortTextRefused | prometheus/services/task_service.py:72 | a text shorter than 32 characters is always refused |
| Repositories.Serialize | prometheus/infrastructure/repositories.py:181-198 | a serialised task is tagged "Task", carries its id as text, its priority as a number and its status as its string value |
| Repositories.Deserialize | prometheus/infrastructure/repositories.py:207-236 | data not tagged "Task" deserialises to nothing; a result carries the printed form of the UUIDs its id and agent_id texts name, the priority its priority value selects, and the status its status text names |
| Repositories.UuidField | prometheus/infrastructure/repositories.py:215-216 | a field yields an id exactly when it is a text `UUID()` accepts, and the id is then in printed form |
| Repositories.PriorityOf | prometheus/infrastructure/repositories.py:219 | an int selects the priority with that value; `True` selects LOW and `False` nothing; a float selects only the priority of its own integral value; no other kind of value selects one |
| Repositories.SerializeRoundTrip | prometheus/infrastructure/repositories.py:181-228 | deserialising a serialised task whose ids are printed UUIDs gives back a task with equal fields |
| Repositories.DeserializeFields | prometheus/infrastructure/repositories.py:209-228 | any dict holding, in the serialised form, the fields of a task whose ids are printed UUIDs deserialises to that task |
| Repositories.ProbeKeys | prometheus/infrastructure/repositories.py:111-113 | a lookup by id probes three keys |
| Repositories.TaskKeyProbedFirst | prometheus/infrastructure/repositories.py:96-113 | a task is saved under the first key a lookup of its id probes |
| BaseAgents.DefaultSafetyChecks | prometheus/core/base_agent.py:187-190 | the base safety checks report no failure, so the gate never stops a task |
| BaseAgents.AddedOnce | prometheus/core/base_agent.py:90-94 | adding a subordinate makes it a member and keeps every earlier one, adding nothing else |
| BaseAgents.RemoveFirst | prometheus/core/base_agent.py:96-100 | removing a subordinate drops one entry if present and leaves the list alone otherwise; on a duplicate-free list exactly that id goes |
| BaseAgents.FanoutAt | prometheus/core/base_agent.py:122-125 | the `i`-th broadcast message goes from the sender to the `i`-th subordinate with the given content and kind |
| BaseAgents.FanoutSnoc | prometheus/core/base_agent.py:122-125 | one more subordinate adds one more broadcast message at the end |
| BaseAgents.ToSupervisor | prometheus/core/base_agent.py:127-130 | a report goes out exactly when a supervisor is set, from this agent to the supervisor, with kind "report" |
| BaseAgents.Executed | prometheus/core/base_agent.py:152-180 | an executed task is completed exactly when no safety check failed and the action returned; otherwise it failed with "Safety check failed" or the action's error text and keeps its earlier result and completion time; the identity fields never change |
| BaseAgents.ExecutedFromInProgress | prometheus/core/base_agent.py:156-169 | marking a task in progress first does not change where execution ends |
| BaseAgents.BaseAgent.constructor | prometheus/core/base_agent.py:27-41 | a new agent is inactive, with no subordinates and no supervisor |
| BaseAgents.BaseAgent.Start | prometheus/core/base_agent.py:76-81 | starting activates the agent and subscribes its handler under its own id |
| BaseAgents.BaseAgent.Stop | prometheus/core/base_agent.py:83-88 | stopping deactivates the agent and unsubscribes it |
| BaseAgents.BaseAgent.StopUnsubscribeRaising | prometheus/core/base_agent.py:83-88 | a stop whose unsubscribe raises has already cleared the active flag; the subordinates and supervisor are kept |
| BaseAgents.BaseAgent.AddSubordinate | prometheus/core/base_agent.py:90-94 | the subordinate is appended unless present, and the list stays duplicate-free |
| BaseAgents.BaseAgent.RemoveSubordinate | prometheus/core/base_agent.py:96-100 | the subordinate is removed if present, every other one is kept |
| BaseAgents.BaseAgent.SetSupervisor | prometheus/core/base_agent.py:102-105 | the supervisor is overwritten unconditionally |
| BaseAgents.BaseAgent.SendMessage | prometheus/core/base_agent.py:107-120 | one message from this agent is published, or nothing when there is no bus |
| BaseAgents.BaseAgent.BroadcastToSubordinates | prometheus/core/base_agent.py:122-125 | one message per subordinate is published, in list order |
| BaseAgents.BaseAgent.ReportToSupervisor | prometheus/core/base_agent.py:127-130 | one message to the supervisor is published when one is set, nothing otherwise |
| BaseAgents.BaseAgent.HandleMessage | prometheus/core/base_agent.py:132-140 | a reply is published; no reply or an exception publishes nothing |
| BaseAgents.BaseAgent.Conclude | prometheus/core/base_agent.py:161-175 | the safety gate fails the task, otherwise the action's result completes it or its exception fails it |
| BaseAgents.BaseAgent.ExecuteTask | prometheus/core/base_agent.py:152-180 | the task ends as `Executed` says; a failed safety check returns before the final save, so the store keeps the in-progress state; every other path stores the end state |
| BaseAgents.BaseAgent.GetStatus | prometheus/core/base_agent.py:192-200 | the status reports the agent's id, activity, subordinates and supervisor, and its type as `str()` of the member, or none |
| BaseAgents.BaseAgent.GetHealth | prometheus/core/base_agent.py:202-207 | health is "healthy" exactly when the agent is active, "inactive" otherwise |
| AgentManagement.KeyTypeFinds | prometheus/services/agent_manager.py:123-128 | decoding a lower-cased argument finds exactly the type whose lower-cased `str()` it is |
| AgentManagement.TypeText | prometheus/services/agent_manager.py:126 | `str(agent.type)` is "None" exactly for an agent without a type |
| AgentManagement.TypeKey | prometheus/services/agent_manager.py:126 | the lower-cased type text is "none" for no type and otherwise "agenttype." followed by the member's value |
| AgentManagement.TypeKeyIsLowerText | prometheus/services/agent_manager.py:126 | the type key is exactly the ASCII lower-casing of the type text |
| AgentManagement.ValueNeverMatches | prometheus/services/agent_manager.py:123-128 | a type's value such as "prometheus" never matches any agent, since `str(agent.type).lower()` is "agenttype.prometheus" or "none" |
| AgentManagement.LevelOf | prometheus/services/agent_manager.py:262-267 | an agent without a supervisor is at the master level; one with a supervisor and subordinates at the middle level; the rest are leaves |
| AgentManagement.AtLevelMembers | prometheus/services/agent_manager.py:253-267 | a level's list holds exactly the agents at that level |
| AgentManagement.AtLevelSnoc | prometheus/services/agent_manager.py:253-267 | each level's list keeps creation order |
| AgentManagement.LevelsPartition | prometheus/services/agent_manager.py:262-267 | every agent lands in exactly one of the three lists |
| AgentManagement.AtLevel | prometheus/services/agent_manager.py:253-267 | a level's list holds only agents at that level, and never more than there are agents |
| AgentManagement.HaltContent | prometheus/services/agent_manager.py:325-329 | the halt notice carries the type "emergency_halt" and the given reason |
| AgentManagement.PublishedBefore | prometheus/services/agent_manager.py:331-344 | the notices published are those before the first receiver whose publish raises |
| AgentManagement.HaltMessages | prometheus/services/agent_manager.py:335-342 | the `i`-th notice goes from a fresh system id to the `i`-th agent, with the halt content and kind "emergency_halt" |
| AgentManagement.StatusCounts.Bump | prometheus/services/agent_manager.py:373-378 | counting one task raises its status's count by one and leaves the other counts alone |
| AgentManagement.CountStatusSnoc | prometheus/services/agent_manager.py:373-378 | one more task raises exactly its own status's count |
| AgentManagement.CountStatusSum | prometheus/services/agent_manager.py:360-378 | the five counts add up to the number of tasks |
| AgentManagement.CountStatus | prometheus/services/agent_manager.py:373-378 | a status count never exceeds the number of tasks |
| AgentManagement.CountByStatus | prometheus/services/agent_manager.py:372-378 | the counting loop reports, per status, the number of tasks with it |
| AgentManagement.WithoutSnoc | prometheus/services/agent_manager.py:304-308 | the broadcast skips exactly the sender's own id, keeping creation order |
| AgentManagement.WithoutLength | prometheus/services/agent_manager.py:304-310 | with the sender registered once, the broadcast reaches one agent fewer than there are |
| AgentManagement.SetupCreated | prometheus/services/agent_manager.py:183-204 | the created-agents report has one entry per agent created so far |
| AgentManagement.Relate | prometheus/services/agent_manager.py:210-212 | recording a relationship appends the child to the parent's list, creating it if absent, and leaves other parents alone |
| AgentManagement.SetupRelsAdvance | prometheus/services/agent_manager.py:206-212 | each subordinate pass appends its id under the master in the relationships report |
| AgentManagement.SetupRels | prometheus/services/agent_manager.py:206-212 | the relationships report is empty before the first subordinate, then holds only the master, with one subordinate per pass |
| AgentManagement.SetupCreatedAll | prometheus/services/agent_manager.py:179-204 | setup reports the master and then the Daedalus, Odysseus and Themis agents, with their types and roles |
| AgentManagement.FirstMatching | prometheus/services/agent_manager.py:125-128 | the lookup loop returns the first agent in creation order whose type is the one named, and none exactly when no agent has it |
| AgentManagement.SeverAll | prometheus/services/agent_manager.py:396-398 | every agent drops the removed id from its subordinates and keeps everything else |
| AgentManagement.StopEach | prometheus/services/agent_manager.py:317-322 | every agent ends inactive; the ones whose stop does not raise are also unsubscribed, and a raising one stays subscribed |
| AgentManagement.Classify | prometheus/services/agent_manager.py:253-267 | the classification loop fills each list with the agents at its level, in creation order, one entry per agent |
| AgentManagement.SendToOthers | prometheus/services/agent_manager.py:303-310 | the broadcast loop publishes one message to every registered id but the sender's, in order, and counts them |
| AgentManagement.SendStep | prometheus/services/agent_manager.py:304-309 | a loop step sends to the id and records it exactly when it is not the sender's |
| AgentManagement.RegistryAdvance | prometheus/services/agent_manager.py:196-199 | registering a new subordinate during setup appends its id and keeps every earlier agent |
| AgentManagement.AgentManager.constructor | prometheus/services/agent_manager.py:37-51 | a new manager has no agents and an empty hierarchy cache |
| AgentManagement.AgentManager.CreateAgent | prometheus/services/agent_manager.py:84-117 | a value outside the type table fails with "Unknown agent type"; a member yields a fresh started base agent of that type, registered under its id and subscribed; the role's own start is not run (see "Left out") |
| AgentManagement.AgentManager.GetAgent | prometheus/services/agent_manager.py:119-121 | the lookup finds an agent exactly when one is registered under the id |
| AgentManagement.AgentManager.GetAgentByType | prometheus/services/agent_manager.py:123-128 | the first agent, in creation order, whose lower-cased type text equals the lower-cased argument, and none exactly when no agent's does |
| AgentManagement.AgentManager.RemoveFromHierarchy | prometheus/services/agent_manager.py:393-402 | the id is dropped from every subordinate list and its own cache entry is deleted; supervisors and other cache entries stay |
| AgentManagement.AgentManager.RemoveAgent | prometheus/services/agent_manager.py:130-143 | an unknown id answers false and changes nothing; otherwise the agent is stopped, deregistered and severed from the hierarchy |
| AgentManagement.AgentManager.BuildHierarchyCache | prometheus/services/agent_manager.py:384-391 | the cache maps every registered agent to its current subordinate list |
| AgentManagement.AgentManager.SetupSubordinate | prometheus/services/agent_manager.py:196-212 | a subordinate pass creates a new agent of the type, adds it under the master and sets the master as its supervisor |
| AgentManagement.AgentManager.SetupMaster | prometheus/services/agent_manager.py:179-187 | setup's first lookup finds nothing, so it creates a new active Prometheus master |
| AgentManagement.AgentManager.SetupPass | prometheus/services/agent_manager.py:196-212 | one pass of the subordinate loop keeps the registry and the hierarchy built so far, extended by one subordinate |
| AgentManagement.AgentManager.SetupAgentHierarchy | prometheus/services/agent_manager.py:175-239 | setup registers a new Prometheus master holding a new Daedalus, Odysseus and Themis agent, each supervised by it, reports them, never creates Logos, and rebuilds the cache |
| AgentManagement.AgentManager.FinishSetup | prometheus/services/agent_manager.py:214-234 | the Logos step never fires, because the lookup of "daedalus" finds no agent; the cache is rebuilt |
| AgentManagement.AgentManager.GetHierarchyStructure | prometheus/services/agent_manager.py:245-269 | every agent, in creation order, appears in the one list its level names |
| AgentManagement.AgentManager.SendMessage | prometheus/services/agent_manager.py:271-290 | the answer is true exactly when the sender is registered and `UUID()` accepts the receiver text; then one message to the printed receiver id is published, otherwise nothing is |
| AgentManagement.AgentManager.BroadcastMessage | prometheus/services/agent_manager.py:292-310 | an unknown sender gets 0; otherwise every other agent gets one message, in creation order, and the count is one less than the number of agents |
| AgentManagement.AgentManager.PublishHalts | prometheus/services/agent_manager.py:331-344 | one halt notice per agent in creation order, until the first publish that raises, which abandons the rest |
| AgentManagement.AgentManager.EmergencyHalt | prometheus/services/agent_manager.py:312-344 | every agent ends inactive, and every agent whose stop does not raise is unsubscribed; then the halt notices go out until a publish raises |
| AgentManagement.AgentManager.GetTaskStatistics | prometheus/services/agent_manager.py:358-382 | the statistics count, per status, the stored tasks with it, and add up to the number stored |
| TaskServices.CancelRecord | prometheus/services/task_service.py:174-177 | a task is cancelled exactly when it is PENDING or IN_PROGRESS, and then only its status changes, to CANCELLED |
| TaskServices.CancelOnce | prometheus/services/task_service.py:174-177 | a cancelled task cannot be cancelled again, nor can a completed or failed one |
| TaskServices.UpdateKeepsLifecycle | prometheus/services/task_service.py:93-102 | an update never touches id, owner, status, timestamps, result or error; a given field replaces the old one, an absent one keeps it; metadata keeps every old key and takes every given value |
| TaskServices.UpdateIdempotent | prometheus/services/task_service.py:93-100 | applying the same update twice gives the same task as applying it once |
| TaskServices.UpdatedRecord | prometheus/services/task_service.py:93-102 | an update changes at most the name, description, priority and metadata |
| TaskServices.FallbackFilter | prometheus/services/task_service.py:203-225 | the fallback loop raises exactly when some task makes a filter item raise; otherwise it keeps exactly the tasks every item lets through, and no more tasks than there were |
| TaskServices.ExactMatchKept | prometheus/services/task_service.py:207-209 | a task whose attributes equal every filter value passes the fallback loop |
| TaskServices.SelectKeptByFallback | prometheus/services/task_service.py:199-225 | every task the repository's own search returns is also kept by the fallback loop |
| TaskServices.OtherKeysKeep | prometheus/services/task_service.py:209-223 | a filter item on any key other than agent_id, status or priority never excludes a task |
| TaskServices.TextFilters | prometheus/services/task_service.py:211-223 | in the fallback, a status given as text matches the status's value, an agent id matches its text, a priority matches its name ignoring case, and a priority given as neither text nor the member raises |
| TaskServices.FallbackTask | prometheus/services/task_service.py:206-223 | the inner loop with its early break reaches the verdict of the first filter item that does not let the task through |
| TaskServices.ItemVerdict | prometheus/services/task_service.py:209-223 | a filter item raises exactly for a priority filter whose value is neither the task's priority nor a text; an item on any other key than agent_id, status or priority lets the task through |
| TaskServices.FallbackVerdict | prometheus/services/task_service.py:206-223 | the inner loop lets a task through exactly when every filter item does |
| TaskServices.FallbackLoop | prometheus/services/task_service.py:203-225 | the outer loop builds exactly the fallback filter's result, stopping with nothing at the first raise |
| TaskServices.FallbackRaiseSticks | prometheus/services/task_service.py:203-225 | once some task raises, the loop over any longer list raises too |
| TaskServices.SliceBound | prometheus/services/task_service.py:231 | a slice bound lies in 0..n, counts from the end when negative and is clamped to the list |
| TaskServices.PySlice | prometheus/services/task_service.py:231 | a slice is never longer than the list |
| TaskServices.Paginate | prometheus/services/task_service.py:230-231 | a page is never longer than the list |
| TaskServices.PaginateBounds | prometheus/services/task_service.py:230-231 | a page holds at most `limit` tasks for any offset, and for non-negative arguments is exactly the window starting at `offset` |
| TaskServices.NegativeLimit | prometheus/services/task_service.py:230-231 | `limit=-1` with offset 0 drops only the last task |
| TaskServices.Listed | prometheus/services/task_service.py:196-237 | without filters every task is paginated; with the repository's own search its result is paginated; a raise in the fallback gives an empty list; the page is never longer than the store or than a non-negative limit |
| TaskServices.TextQueriesFindNothing | prometheus/services/task_service.py:239-253 | with the in-memory repository's search, a query by status text or agent id text finds nothing |
| TaskServices.Keys | prometheus/services/task_service.py:275-283 | a count dict has one key per entry, in order |
| TaskServices.Bump | prometheus/services/task_service.py:275 | `d[k] = d.get(k, 0) + 1` raises k's count by one and leaves the others; a new key goes last and the total grows by one |
| TaskServices.TallyOf | prometheus/services/task_service.py:272-283 | the count dict built from a list of keys has exactly those keys, once each, each counted as often as it occurs, and its counts add up to the list's length |
| TaskServices.StatusValues | prometheus/services/task_service.py:274 | one status value per task, in order |
| TaskServices.PriorityNames | prometheus/services/task_service.py:278 | one priority name per task, in order |
| TaskServices.AgentIds | prometheus/services/task_service.py:282 | one agent id text per task, in order |
| TaskServices.StatusValueInjective | prometheus/core/domain.py:25-31 | distinct statuses have distinct values |
| TaskServices.StatusTallyCounts | prometheus/services/task_service.py:274-275 | a status value occurs as often as tasks have that status |
| TaskServices.StatusTallyExact | prometheus/services/task_service.py:272-275 | the by-status dict counts every status exactly |
| TaskServices.RateSum | prometheus/services/task_service.py:291-294 | the completion and failure rates are non-negative and add up to at most 1 |
| TaskServices.StatisticsFacts | prometheus/services/task_service.py:255-296 | the total and the sums of the three dicts all equal the number of tasks, statuses are counted exactly and the two rates are fractions adding up to at most 1 |
| TaskServices.StatisticsOf | prometheus/services/task_service.py:255-296 | the total is the number of tasks, and with no task both rates are 0.0 |
| TaskServices.StatisticsStep | prometheus/services/task_service.py:272-289 | one loop step appends the task's status value, priority name and agent id, and bumps the completed or failed count by its status |
| TaskServices.TallySnoc | prometheus/services/task_service.py:275-283 | the count dict of a longer key list is the shorter one's bumped by the new key |
| TaskServices.TaskService.constructor | prometheus/services/task_service.py:27-29 | the service shares its agent manager's task repository |
| TaskServices.TaskService.GetTask | prometheus/services/task_service.py:69-76 | a text `UUID()` accepts and whose id is stored yields a fresh task carrying the stored fields; an unparseable text or an unknown id yields None |
| TaskServices.TaskService.CreateTask | prometheus/services/task_service.py:40-63 | an unknown agent is refused with "Agent <id> not found", and an agent id `UUID()` refuses with its ValueError text, storing nothing; otherwise a PENDING task with the given fields, the printed agent id and `{}` metadata when none is given is stored under the new id |
| TaskServices.TaskService.UpdateTask | prometheus/services/task_service.py:88-108 | None and no change for an unparseable text or an unknown task; otherwise the stored task becomes the updated record and is returned |
| TaskServices.TaskService.DeleteTask | prometheus/services/task_service.py:114-127 | true exactly when the text parses to a stored id, and afterwards that id is not stored; an unparseable text changes nothing |
| TaskServices.TaskService.ExecuteTask | prometheus/services/task_service.py:129-153 | None for an unparseable text or an unknown task; a task whose agent is gone is stored FAILED with "Agent not found"; any other is stored as its agent executed it |
| TaskServices.TaskService.CancelTask | prometheus/services/task_service.py:166-187 | true, with the task stored as CANCELLED, exactly for a text naming a stored PENDING or IN_PROGRESS task; otherwise false and nothing changes |
| TaskServices.TaskService.AssignTaskToAgent | prometheus/services/task_service.py:309-332 | true exactly when the task text names a stored task and the new agent is registered with an id `UUID()` accepts; then only the task's agent id changes, to the printed id |
| TaskServices.StoredUnderAnySpelling | prometheus/services/task_service.py:69-76 | a stored task is found under its printed id, the upper-case form of it and its braced form, all naming the same key |
| TaskServices.TaskService.ListTasks | prometheus/services/task_service.py:189-237 | the returned page is the listing of the store's tasks under the filters, limit and offset |
| TaskServices.TaskService.GetTasksByStatus | prometheus/services/task_service.py:243-253 | the pending, active and completed listings are always empty on the in-memory repository |
| TaskServices.TaskService.GetTasksByAgent | prometheus/services/task_service.py:239-241 | the by-agent listing is always empty on the in-memory repository |
| TaskServices.TaskService.GetTaskStatistics | prometheus/services/task_service.py:255-296 | the counting loop returns exactly the statistics of the stored tasks |
| TaskServices.TaskService.CreateResearchPhaseTasks | prometheus/services/task_service.py:341-366 | the guard can never hold, so no task is ever created |
| Coordinator.FirstIndex | prometheus/agents/agent_prometheus.py:160-162 | `list.index` finds the first position holding the phase, and fails exactly when the phase is not in the list |
| Coordinator.NextPhase | prometheus/agents/agent_prometheus.py:158-178 | the advance fails exactly when the current phase is not in the list; otherwise it names the phase after its first occurrence, or nothing at the last one |
| Coordinator.AdvanceAfterInitialize | prometheus/agents/agent_prometheus.py:58-62 | right after initialisation the advance succeeds exactly when the phase list is non-empty |
| Coordinator.InitialPhase | prometheus/agents/agent_prometheus.py:58-62 | initialisation starts at the first listed phase, or at "initialization" when no phase is listed |
| Coordinator.AdvanceMovesForward | prometheus/agents/agent_prometheus.py:158-166 | with distinct phase names each advance moves exactly one place down the list |
| Coordinator.AdvanceCyclesOnRepeat | prometheus/agents/agent_prometheus.py:158-166 | with a repeated phase name the advance goes back to its first occurrence, so the project cycles |
| Coordinator.Targeted | prometheus/agents/agent_prometheus.py:82-87 | a decomposed task carries its priority and exactly the target_agent and phase metadata |
| Coordinator.PhaseTaskMetadata | prometheus/agents/agent_prometheus.py:76-116 | every decomposed task names its phase and one of the four role names as its target |
| Coordinator.ArchitectureDesignTasks | prometheus/agents/agent_prometheus.py:80-95 | architecture design yields a CRITICAL task for daedalus followed by a HIGH task for logos |
| Coordinator.EmbodiedLearningTasks | prometheus/agents/agent_prometheus.py:97-104 | embodied learning yields one HIGH task for odysseus |
| Coordinator.SafetyValidationTasks | prometheus/agents/agent_prometheus.py:106-113 | safety validation yields one CRITICAL task for themis |
| Coordinator.UnknownPhaseTasks | prometheus/agents/agent_prometheus.py:76-116 | any other phase yields no tasks |
| Coordinator.PhaseTasks | prometheus/agents/agent_prometheus.py:76-116 | a phase yields at most two tasks, and yields some exactly when it is architecture_design, embodied_learning or safety_validation |
| Coordinator.Assignments | prometheus/agents/agent_prometheus.py:239-247 | strategic planning sends at most one assignment per task |
| Coordinator.Offer | prometheus/agents/agent_prometheus.py:240-247 | one task gives at most one assignment |
| Coordinator.AssignmentsToSubordinates | prometheus/agents/agent_prometheus.py:239-247 | every assignment goes from the coordinator to one of its subordinates, as a task_assignment |
| Coordinator.NoAssignmentsToUuidIds | prometheus/agents/agent_prometheus.py:231-247 | when no subordinate id is a role name, strategic planning sends no assignment at all |
| Coordinator.NoAssignments | prometheus/agents/agent_prometheus.py:239-247 | tasks that all target role names produce no assignment to subordinates whose ids are not role names |
| Coordinator.AddLatest | prometheus/agents/agent_prometheus.py:143-153 | folding in an agent's latest report keeps the phase and records that report as the agent's contribution; it raises exactly as extending by the insights or challenges value raises |
| Coordinator.ListItems | prometheus/agents/agent_prometheus.py:149-153 | `list.extend` takes a list's items and a text's one-character texts; a None, bool, int or float raises "'<type>' object is not iterable" |
| Coordinator.SynthesisOf | prometheus/agents/agent_prometheus.py:131-156 | the synthesis carries the current phase |
| Coordinator.SynthesisContributions | prometheus/agents/agent_prometheus.py:142-145 | the contributions are exactly the latest report of each agent with at least one report |
| Coordinator.OnlyLatestCounts | prometheus/agents/agent_prometheus.py:142-153 | reports before an agent's latest one never change the synthesis |
| Coordinator.SynthesisFailureSticks | prometheus/agents/agent_prometheus.py:142-153 | once a report raises while being folded in, the whole synthesis raises the same way |
| Coordinator.ObjectivesMet | prometheus/agents/agent_prometheus.py:306-314 | the check raises exactly when some challenge is not a dict, with the missing-`get` error of the first such challenge, and otherwise holds exactly when no challenge has severity "critical" |
| Coordinator.Completion | prometheus/agents/agent_prometheus.py:296-304 | the phase moves on only from a synthesis without a critical challenge, and only to a listed phase; a critical challenge keeps the phase; with all objectives met the rule raises exactly when the current phase is not listed |
| Coordinator.GrantSplit | prometheus/agents/agent_prometheus.py:258-269 | the even split never hands out more than 100 units, wastes less than one unit per subordinate, and gives twice as much memory as compute |
| Coordinator.Grant | prometheus/agents/agent_prometheus.py:258-269 | a grant names compute units, memory and a "normal" priority level, and nothing else |
| Coordinator.SetAllEntries | prometheus/agents/agent_prometheus.py:264-269 | after the allocation loop every subordinate holds the grant and every other entry is kept |
| Coordinator.ProgressScore | prometheus/agents/agent_prometheus.py:287 | the score lies in 0..100, is 20 per completed report below five, and reaches 100 exactly from five on |
| Coordinator.RouteOf | prometheus/agents/agent_prometheus.py:218-229 | the dispatch takes the first of strategic_planning, resource_optimization and progress_evaluation contained in the lower-cased name, else the generic branch |
| Coordinator.Synthesize | prometheus/agents/agent_prometheus.py:131-156 | the loop over the report book builds exactly the synthesis of the latest reports |
| Coordinator.AgentPrometheus.constructor | prometheus/agents/agent_prometheus.py:37-56 | a new coordinator is an inactive Prometheus agent with an empty mission, phase list, allocation and report book, in phase "initialization" |
| Coordinator.AgentPrometheus.InitializeProject | prometheus/agents/agent_prometheus.py:58-74 | records the mission and phases, starts at the first phase or "initialization", and sends the initialisation to every subordinate |
| Coordinator.AgentPrometheus.AdvanceToNextPhase | prometheus/agents/agent_prometheus.py:158-178 | raises exactly when the phase is not listed; otherwise moves to the next phase and tells every subordinate, or reports false at the last phase and changes nothing |
| Coordinator.AgentPrometheus.SynthesizeFindings | prometheus/agents/agent_prometheus.py:131-156 | returns the synthesis of each reporter's latest report |
| Coordinator.AgentPrometheus.RecordReport | prometheus/agents/agent_prometheus.py:185-191 | the report is appended to its sender's list, and a new sender goes last in the book |
| Coordinator.AgentPrometheus.EvaluatePhaseCompletion | prometheus/agents/agent_prometheus.py:296-304 | once as many agents have reported as there are subordinates, the phase advances exactly when no challenge is critical; a raise on the way is reported |
| Coordinator.AgentPrometheus.AllocateResources | prometheus/agents/agent_prometheus.py:118-129 | the grant is recorded under the agent and the agent is told |
| Coordinator.AgentPrometheus.OptimizeResourceAllocation | prometheus/agents/agent_prometheus.py:255-275 | every subordinate is granted and told the same even share; with none nothing changes; the summary reports 100 units and the subordinate count |
| Coordinator.AgentPrometheus.EvaluateProjectProgress | prometheus/agents/agent_prometheus.py:277-294 | the report carries the score from the completed reports and the synthesis, and fails exactly when the synthesis does |
| Coordinator.AgentPrometheus.OfferTask | prometheus/agents/agent_prometheus.py:240-247 | a task is sent to its target exactly when the target is a subordinate |
| Coordinator.AgentPrometheus.OfferAll | prometheus/agents/agent_prometheus.py:239-247 | the loop sends exactly the assignments of the tasks, in order |
| Coordinator.AgentPrometheus.PerformStrategicPlanning | prometheus/agents/agent_prometheus.py:231-253 | sends the assignments of the current phase's tasks and reports how many tasks there were |
| Coordinator.AgentPrometheus.HandleAgentReport | prometheus/agents/agent_prometheus.py:185-198 | files the report, then applies the completion rule once enough agents have reported, never replying |
| Coordinator.AgentPrometheus.ProcessMessage | prometheus/agents/agent_prometheus.py:180-216 | a report is filed and the completion rule applied exactly as `HandleAgentReport` states; a safety alert is relayed to every subordinate; a resource request is granted to its sender, and no other message changes the allocation; anything else changes nothing; there is never a reply |
| Coordinator.AgentPrometheus.ExecuteTaskInternal | prometheus/agents/agent_prometheus.py:218-229 | each route has the effect and result of its action, and the generic route completes with "Generic task <name> completed" and changes nothing |
| SafetyOverseer.BehavioralCheck | prometheus/agents/agent_themis.py:145-184 | the behavioral check passes exactly at or above 0.8 and fails below; its severity is low exactly at or above 0.9 and critical below |
| SafetyOverseer.GamingCheck | prometheus/agents/agent_themis.py:186-217 | up to two gaming indicators pass with low severity, three or four warn with medium, five or more fail with high |
| SafetyOverseer.GoalCheck | prometheus/agents/agent_themis.py:219-247 | drift up to 0.6 passes, up to 0.8 warns, beyond fails with high severity; the goal check is never critical |
| SafetyOverseer.InterpretabilityCheck | prometheus/agents/agent_themis.py:249-283 | below 0.8 the interpretability check fails with high severity, otherwise it passes with low; the intermediate warning never survives |
| SafetyOverseer.ContainmentCheck | prometheus/agents/agent_themis.py:285-307 | below 0.8 the containment check fails as critical, otherwise it passes with low severity |
| SafetyOverseer.Criticals | prometheus/agents/agent_themis.py:134 | the critical failures are exactly the checks of severity "critical", no more than there were checks |
| SafetyOverseer.AllCritical | prometheus/agents/agent_themis.py:332 | filtering a list of critical checks for critical ones keeps them all, so the alert's own filter changes nothing |
| SafetyOverseer.PlaceholderAudit | prometheus/agents/agent_themis.py:398-421 | with the placeholder scores exactly one check, the passing behavioral one, is critical, and interpretability fails |
| SafetyOverseer.AuditChecks | prometheus/agents/agent_themis.py:108-127 | an audit runs exactly five checks |
| SafetyOverseer.AuditOrder | prometheus/agents/agent_themis.py:108-127 | the five checks are behavioral alignment, specification gaming, goal alignment, interpretability and containment, in that order |
| SafetyOverseer.CheckList | prometheus/agents/agent_themis.py:314-322 | an alert lists one entry per violation |
| SafetyOverseer.HaltCheckValue | prometheus/agents/agent_themis.py:343-348 | a check inside the halt command keeps its status and its metadata |
| SafetyOverseer.HaltCheckList | prometheus/agents/agent_themis.py:343-348 | the halt command carries one entry per critical check, in order |
| SafetyOverseer.VetoNotifiesAll | prometheus/agents/agent_themis.py:336-355 | the veto sends the halt command to the target first, then one notice to each subordinate in order |
| SafetyOverseer.VetoMessages | prometheus/agents/agent_themis.py:336-355 | the veto sends one message more than there are subordinates, all from the overseer |
| SafetyOverseer.EscalationLength | prometheus/agents/agent_themis.py:309-355 | escalating sends nothing without a critical check, else one alert when a supervisor is set plus, under the veto, a halt and one notice per subordinate |
| SafetyOverseer.Escalation | prometheus/agents/agent_themis.py:309-355 | without a critical check nothing is sent, and every message sent comes from the overseer |
| SafetyOverseer.EscalationAlertFirst | prometheus/agents/agent_themis.py:327-329 | the supervisor's alert comes first and carries the critical checks and the veto flag |
| SafetyOverseer.EscalationHaltIffVeto | prometheus/agents/agent_themis.py:331-334 | an escalation holds a halt command exactly when a check was critical and the veto is active |
| SafetyOverseer.FirstUndefined | prometheus/agents/agent_themis.py:359-364 | building the dispatch dict fails at the first designer the class does not define, and succeeds only when all are defined |
| SafetyOverseer.DesignSafetyTest | prometheus/agents/agent_themis.py:357-369 | every call raises the missing-attribute error for `_design_resource_constraint_test`, whatever the test type |
| SafetyOverseer.AgentThemis.constructor | prometheus/agents/agent_themis.py:41-71 | a new overseer is an inactive Themis agent with an empty audit history and the veto active |
| SafetyOverseer.AgentThemis.AuditBehavioralAlignment | prometheus/agents/agent_themis.py:145-184 | sends the behavior audit request to the target, then returns the behavioral check of the placeholder score |
| SafetyOverseer.AgentThemis.AuditInterpretability | prometheus/agents/agent_themis.py:249-283 | sends the internal-state request to the target, then returns the interpretability check of the placeholder score |
| SafetyOverseer.AgentThemis.ExerciseVetoPower | prometheus/agents/agent_themis.py:336-355 | queues exactly the halt command and the subordinate notices |
| SafetyOverseer.AgentThemis.TriggerSafetyAlert | prometheus/agents/agent_themis.py:309-334 | queues exactly the escalation of the critical checks |
| SafetyOverseer.AgentThemis.RunChecks | prometheus/agents/agent_themis.py:108-128 | returns the five checks in the order behavioral, gaming, goal, interpretability, containment, after sending the two audit requests |
| SafetyOverseer.AgentThemis.PerformComprehensiveAudit | prometheus/agents/agent_themis.py:104-143 | returns the five checks, extends the history by exactly those five, and escalates the critical ones |
| LogicVerifier.VerifyInference | prometheus/agents/agent_logos.py:330-367 | an unknown rule is a high-severity error; modus ponens is valid exactly with two premises, and raises where the premises are None, a bool or a number; every other known rule is valid |
| LogicVerifier.ModusPonensOnStamp | prometheus/agents/agent_logos.py:352-358 | premises given as a datetime text are answered "requires exactly 2 premises", not raised |
| LogicVerifier.VerifyAssumption | prometheus/agents/agent_logos.py:369-382 | an assumption is invalid, with medium severity, exactly when its justification is falsy |
| LogicVerifier.VerifyConclusion | prometheus/agents/agent_logos.py:384-397 | a conclusion is invalid, with high severity, exactly when it has no supporting steps |
| LogicVerifier.VerifyStep | prometheus/agents/agent_logos.py:313-328 | an unknown step type is a medium-severity error; a valid step carries no error and an invalid one always does |
| LogicVerifier.TraceErrors | prometheus/agents/agent_logos.py:290-299 | there are never more errors than steps |
| LogicVerifier.Consistency | prometheus/agents/agent_logos.py:302-304 | the consistency score lies between 0 and 1 |
| LogicVerifier.TraceVerdict | prometheus/agents/agent_logos.py:278-311 | an empty trace raises; otherwise every step is counted and the trace id is taken from the first step, "unknown" by default |
| LogicVerifier.TraceValidIff | prometheus/agents/agent_logos.py:302-305 | a trace is valid exactly when more than four fifths of its steps have no error |
| LogicVerifier.AboveFourFifths | prometheus/agents/agent_logos.py:304-305 | the score exceeds 0.8 exactly when 5(n-e) > 4n |
| LogicVerifier.TraceErrorsSound | prometheus/agents/agent_logos.py:290-299 | every error entry names an invalid step and carries that step's error and severity |
| LogicVerifier.TraceErrorsOrdered | prometheus/agents/agent_logos.py:290-299 | the error entries name steps of the trace in strictly increasing order, so none twice |
| LogicVerifier.TraceErrorsComplete | prometheus/agents/agent_logos.py:290-299 | every invalid step has an error entry |
| LogicVerifier.TraceRaisesOnBadStep | prometheus/agents/agent_logos.py:290-291 | a step whose verifier raises makes the whole verification raise |
| LogicVerifier.VerifyReasoningTrace | prometheus/agents/agent_logos.py:278-311 | the loop over the steps produces exactly the trace verdict |
| LogicVerifier.EntityIds | prometheus/agents/agent_logos.py:424 | the ids are read exactly when every entity is a dict with an id, one per entity, in order |
| LogicVerifier.RepeatedIn | prometheus/agents/agent_logos.py:425 | filtering never lengthens the list |
| LogicVerifier.RepeatedInCount | prometheus/agents/agent_logos.py:425 | the filter keeps every occurrence of an element repeated in the whole list and drops every other |
| LogicVerifier.DuplicatesExact | prometheus/agents/agent_logos.py:424-425 | the duplicates hold every occurrence of each repeated id and nothing else, so they are empty exactly when the ids are distinct |
| LogicVerifier.Duplicates | prometheus/agents/agent_logos.py:424-425 | an id is among the duplicates exactly when it occurs more than once, and there are never more duplicates than ids |
| LogicVerifier.EntityCheck | prometheus/agents/agent_logos.py:419-434 | the entity score is 1.0 exactly when there are no duplicate issues, and 0.5 otherwise |
| LogicVerifier.RelationIssues | prometheus/agents/agent_logos.py:441-447 | there are never more issues than relations |
| LogicVerifier.RelationIssuesEmptyIff | prometheus/agents/agent_logos.py:442-447 | no issue is reported exactly when no relation's domain or range is missing from the entity ids |
| LogicVerifier.RelationCheck | prometheus/agents/agent_logos.py:436-456 | the relation score lies in 0..1 and is 1.0 exactly when no relation is invalid |
| LogicVerifier.RelationResult | prometheus/agents/agent_logos.py:449-456 | the score is 1 - invalid/total, in 0..1, 1.0 exactly without issues, and the issues are the invalid relations' ids |
| LogicVerifier.RelationRaisesSticks | prometheus/agents/agent_logos.py:442-447 | one relation that cannot be read makes the whole check raise |
| LogicVerifier.CheckRelations | prometheus/agents/agent_logos.py:436-456 | the loop over the relations produces exactly the relation check |
| LogicVerifier.Recommendations | prometheus/agents/agent_logos.py:490-503 | there is at most one recommendation per check |
| LogicVerifier.RecommendationsSnoc | prometheus/agents/agent_logos.py:494-501 | one more check adds exactly its own advice at the end |
| LogicVerifier.Advice | prometheus/agents/agent_logos.py:494-501 | a check gives at most one piece of advice, only when it scores below 0.8, and the ontology check never gives any |
| LogicVerifier.RecommendationsOfFour | prometheus/agents/agent_logos.py:494-501 | the recommendations of the four checks are their advice in order |
| LogicVerifier.GenerateRecommendations | prometheus/agents/agent_logos.py:490-503 | the loop produces exactly the recommendations |
| LogicVerifier.ConsistentIff | prometheus/agents/agent_logos.py:410-414 | the graph is consistent exactly when the entity and relation scores add up to more than 1.2; with duplicates it needs a relation score above 0.7 |
| LogicVerifier.KnowledgeVerdict | prometheus/agents/agent_logos.py:399-417 | the verdict exists exactly when the entity and relation checks can run; it holds four checks, at most four recommendations, and is consistent exactly when the overall score exceeds 0.8 |
| LogicVerifier.RecommendationsExact | prometheus/agents/agent_logos.py:494-501 | the entity advice appears exactly when there are duplicates, the relation advice exactly when the relation score is below 0.8, and nothing else |
| LogicVerifier.CleanGraph | prometheus/agents/agent_logos.py:399-417 | a graph without duplicate or dangling issues scores 1.0, is consistent and gets no recommendation |
| LogicVerifier.VerifyKnowledgeConsistency | prometheus/agents/agent_logos.py:399-417 | the agent's check produces exactly the knowledge verdict |
| Architect.Prose | prometheus/agents/agent_daedalus.py:266-391 | a prose list of n findings is a list of n items |
| Architect.DesignedState | prometheus/agents/agent_daedalus.py:96-100 | after the design the hybrid core is "designed" and holds the integration strategy, each subsystem holds every entry of its design, and every other entry is kept |
| Architect.Designed | prometheus/agents/agent_daedalus.py:96-100 | the design adds its entries to the neural and symbolic subsystems and removes none |
| Architect.DesignIdempotent | prometheus/agents/agent_daedalus.py:96-100 | designing twice leaves the components as designing once does |
| Architect.MergeTwice | prometheus/agents/agent_daedalus.py:97-98 | a second `dict.update` with the same entries changes nothing |
| Architect.SetTwice | prometheus/agents/agent_daedalus.py:99-100 | setting an entry to the value it holds changes nothing |
| Architect.DesignFromInitial | prometheus/agents/agent_daedalus.py:48-64 | designing the initial components makes the neural subsystem "designed", leaves the symbolic one awaiting refinement, keeps the core's type and the integration points |
| Architect.PathwayNamed | prometheus/agents/agent_daedalus.py:243-250 | a table key names the pathway whose name it is, and a missing key names none |
| Architect.Findings | prometheus/agents/agent_daedalus.py:253-262 | a known pathway's findings name that pathway and carry no error |
| Architect.TransformerFindings | prometheus/agents/agent_daedalus.py:266-292 | the transformer findings carry no error |
| Architect.SymbolicFindings | prometheus/agents/agent_daedalus.py:294-317 | the symbolic reasoning findings carry no error |
| Architect.IntegrationFindings | prometheus/agents/agent_daedalus.py:318-340 | the neuro-symbolic integration findings carry no error |
| Architect.MemoryFindings | prometheus/agents/agent_daedalus.py:341-358 | the memory architecture findings carry no error |
| Architect.AttentionFindings | prometheus/agents/agent_daedalus.py:359-375 | the attention mechanism findings carry no error |
| Architect.ChainFindings | prometheus/agents/agent_daedalus.py:376-391 | the reasoning chain findings carry no error |
| Architect.Exploration | prometheus/agents/agent_daedalus.py:239-264 | exploring raises exactly for a value that cannot be a dict key |
| Architect.ExplorationErrorIff | prometheus/agents/agent_daedalus.py:252-264 | the answer is an error dict exactly when the pathway is not one of the six, and otherwise findings naming the pathway |
| Architect.Known | prometheus/agents/agent_daedalus.py:252-264 | a pathway is known exactly when it is a text naming one of the six pathways |
| Architect.Refined | prometheus/agents/agent_daedalus.py:393-431 | refinement fails exactly when the logic agent's truthy improvements are neither a dict nor a list every element of which is a pair |
| Architect.PairOf | prometheus/agents/agent_daedalus.py:411-413 | `dict.update` takes a two-item list with a text key, or a two-character text, as a pair; an element of another length raises "dictionary update sequence element #<i> has length <n>; 2 is required" |
| Architect.PairsOf | prometheus/agents/agent_daedalus.py:411-413 | a list gives its pairs in order exactly when every element is a pair |
| Architect.PairsOfFirstFailure | prometheus/agents/agent_daedalus.py:411-413 | a list with a non-pair raises the error of its first non-pair |
| Architect.PairsMap | prometheus/agents/agent_daedalus.py:411-413 | the dict of a list of pairs holds exactly the keys some pair names |
| Architect.PairsMapLast | prometheus/agents/agent_daedalus.py:411-413 | each key of the dict holds the value of the last pair naming it |
| Architect.UpdateEachIsMerge | prometheus/agents/agent_daedalus.py:411-413 | assigning the pairs one by one, as `dict.update` does, is merging in the dict of the pairs |
| Architect.LogosFeedback | prometheus/agents/agent_daedalus.py:409-414 | logic-agent feedback touches the symbolic subsystem only; non-empty improvements, a dict or a list of pairs, are merged in, each overriding its entry, and a list is applied pair by pair |
| Architect.OdysseusFeedback | prometheus/agents/agent_daedalus.py:416-422 | embodiment feedback never fails and sets the neural embodiment features exactly when the insights are non-empty, changing nothing else |
| Architect.ThemisFeedback | prometheus/agents/agent_daedalus.py:424-431 | safety feedback never fails; non-empty requirements become every component's safety constraints and change nothing else |
| Architect.OtherFeedbackIgnored | prometheus/agents/agent_daedalus.py:397-407 | feedback from any other source, or none, leaves the components unchanged |
| Architect.RefineIdempotent | prometheus/agents/agent_daedalus.py:393-431 | applying the same feedback twice changes nothing more |
| Architect.RouteOf | prometheus/agents/agent_daedalus.py:474-489 | the dispatch checks, in order, "hybrid" and "core", then "explore" or "pathway", then "refine", and otherwise takes the generic branch |
| Architect.AgentDaedalus.constructor | prometheus/agents/agent_daedalus.py:36-79 | a new architect is an inactive Daedalus agent holding the initial, undesigned components |
| Architect.AgentDaedalus.DesignHybridCore | prometheus/agents/agent_daedalus.py:81-118 | the components become the designed ones, the design is reported to the supervisor and returned |
| Architect.AgentDaedalus.ExploreArchitecturalPathway | prometheus/agents/agent_daedalus.py:239-264 | returns the exploration, reporting a known pathway's findings to the supervisor and sending nothing for an unknown one |
| Architect.AgentDaedalus.RefineArchitectureWithFeedback | prometheus/agents/agent_daedalus.py:393-407 | the components become the refined ones and are returned; when the update raises part-way, see the Architect.Refined lines under "Left out" |
| Architect.AgentDaedalus.ProcessMessage | prometheus/agents/agent_daedalus.py:433-470 | feedback is answered with the refined components, a truthy pathway request with its exploration, a symbolic-refinement collaboration request with a separate message and no reply; anything else changes nothing |
| Architect.AgentDaedalus.ExecuteTaskInternal | prometheus/agents/agent_daedalus.py:472-489 | each route has the effect and result of its action, with the pathway and feedback from the task metadata; the generic route completes with "Architecture task <name> completed" and changes nothing |
| EmbodiedExplorer.SetUp | prometheus/agents/agent_odysseus.py:106-116 | setting up an environment makes it "active" with the set-up time recorded, and keeps its type and settings |
| EmbodiedExplorer.StartedStatuses | prometheus/agents/agent_odysseus.py:72-104 | after start the three initialising environments are active and the planned robotics simulation is untouched; the table keeps its four names |
| EmbodiedExplorer.Started | prometheus/agents/agent_odysseus.py:72-104 | start keeps the four environment names and leaves the robotics simulation as it was |
| EmbodiedExplorer.SetUpFirst | prometheus/agents/agent_odysseus.py:101-104 | the set-up loop never adds or removes an environment |
| EmbodiedExplorer.SetUpAll | prometheus/agents/agent_odysseus.py:101-104 | the set-up loop over the whole table ends with the started table |
| EmbodiedExplorer.DatabaseQuery | prometheus/agents/agent_odysseus.py:517-532 | the database tool answers with its own name and "success", never an error |
| EmbodiedExplorer.CodeRun | prometheus/agents/agent_odysseus.py:534-546 | the code tool answers with its own name and "success", never an error |
| EmbodiedExplorer.ApiCall | prometheus/agents/agent_odysseus.py:548-560 | the web API tool answers with its own name and "success", never an error |
| EmbodiedExplorer.DataAnalysis | prometheus/agents/agent_odysseus.py:562-577 | the analysis tool answers with its own name and "success", never an error |
| EmbodiedExplorer.ToolOutput | prometheus/agents/agent_odysseus.py:506-515 | a handler answers exactly for the four known tool names, and its answer carries the tool's name |
| EmbodiedExplorer.ActionFor | prometheus/agents/agent_odysseus.py:397-402 | the action is random exactly for "random", curiosity exactly for "curiosity_driven", systematic otherwise |
| EmbodiedExplorer.Digit | prometheus/agents/agent_odysseus.py:456 | a digit below ten prints as its decimal character |
| EmbodiedExplorer.PosKeyInjective | prometheus/agents/agent_odysseus.py:405-407 | two steps with the same position key are the same step |
| EmbodiedExplorer.PosKey | prometheus/agents/agent_odysseus.py:405-407 | a position key ends with the y and z coordinates "_0.0_0.0" |
| EmbodiedExplorer.CountsAppend | prometheus/agents/agent_odysseus.py:467-477 | the spatial and causal counts of a concatenation are the sums of the parts' counts |
| EmbodiedExplorer.CountsCover | prometheus/agents/agent_odysseus.py:418-440 | every discovery is spatial or causal, so the two counts add up to the number of discoveries |
| EmbodiedExplorer.StepDiscoveries | prometheus/agents/agent_odysseus.py:418-440 | one step makes at most two discoveries |
| EmbodiedExplorer.StepDiscoveryCounts | prometheus/agents/agent_odysseus.py:423-438 | a step makes one spatial discovery when it is a multiple of 50 and one causal discovery when it is a multiple of 75, none otherwise |
| EmbodiedExplorer.StepDiscoveriesAt | prometheus/agents/agent_odysseus.py:418-440 | a step's discoveries are about that step, the spatial one present exactly at multiples of 50 and the causal one exactly at multiples of 75 |
| EmbodiedExplorer.Observations | prometheus/agents/agent_odysseus.py:404-409 | `k` steps make `k` observations |
| EmbodiedExplorer.Explored | prometheus/agents/agent_odysseus.py:329-362 | after `k` steps the exploration data names its environment and strategy, counts `k` steps and holds `k` observations, actions and world-model updates |
| EmbodiedExplorer.ExploredSnoc | prometheus/agents/agent_odysseus.py:340-355 | one more step appends exactly that step's observation, action, discoveries and update and counts one more step |
| EmbodiedExplorer.DiscoveryCounts | prometheus/agents/agent_odysseus.py:340-351 | `k` steps make ceil(k/50) spatial and ceil(k/75) causal discoveries and nothing else |
| EmbodiedExplorer.ConcatSpatial | prometheus/agents/agent_odysseus.py:350-351 | when each step finds one spatial structure exactly on its hit steps, the loop's findings hold as many spatial structures as there are hit steps |
| EmbodiedExplorer.ConcatCausal | prometheus/agents/agent_odysseus.py:350-351 | when each step finds one causal relationship exactly on its hit steps, the loop's findings hold as many causal relationships as there are hit steps |
| EmbodiedExplorer.SpatialHits | prometheus/agents/agent_odysseus.py:423 | ceil(k/50) of the steps below `k` are multiples of 50 |
| EmbodiedExplorer.CausalHits | prometheus/agents/agent_odysseus.py:431 | ceil(k/75) of the steps below `k` are multiples of 75 |
| EmbodiedExplorer.ConcatWithin | prometheus/agents/agent_odysseus.py:340-351 | every finding of the first `k` steps is about one of those steps |
| EmbodiedExplorer.ConcatAt | prometheus/agents/agent_odysseus.py:340-351 | a finding about one of the first `k` steps is among the loop's findings exactly when that step found it |
| EmbodiedExplorer.DiscoveryAt | prometheus/agents/agent_odysseus.py:340-351 | in a `k`-step exploration, step `s` left a spatial discovery exactly when it is a multiple of 50 and a causal one exactly when it is a multiple of 75 |
| EmbodiedExplorer.ExplorationDiversity | prometheus/agents/agent_odysseus.py:487 | every step takes the same action, so the action diversity is 1, or 0 with no steps |
| EmbodiedExplorer.Diversity | prometheus/agents/agent_odysseus.py:487 | the action diversity is positive exactly when some action was taken |
| EmbodiedExplorer.RecordAt | prometheus/agents/agent_odysseus.py:456-457 | with distinct keys, each step's entry survives every later step |
| EmbodiedExplorer.RecordKeys | prometheus/agents/agent_odysseus.py:456-457 | recording adds exactly the steps' keys and keeps every old entry under another key |
| EmbodiedExplorer.RecordDomain | prometheus/agents/agent_odysseus.py:456-457 | the recorded map's keys are the old keys plus the steps' keys |
| EmbodiedExplorer.RecordKept | prometheus/agents/agent_odysseus.py:456-457 | an old entry whose key no step uses is kept |
| EmbodiedExplorer.PosKeysDistinct | prometheus/agents/agent_odysseus.py:405-407 | different steps have different position keys |
| EmbodiedExplorer.RecordedSteps | prometheus/agents/agent_odysseus.py:442-460 | after `k` steps the world model holds each step's spatial update under that step's position key |
| EmbodiedExplorer.RecordedKeys | prometheus/agents/agent_odysseus.py:442-460 | after `k` steps the world model holds its old keys plus the `k` position keys, old entries under other keys unchanged |
| EmbodiedExplorer.Recorded | prometheus/agents/agent_odysseus.py:442-460 | recording the steps never drops a key the world model held |
| EmbodiedExplorer.StepCount | prometheus/agents/agent_odysseus.py:326-340 | `range(steps)` succeeds exactly for an integer (or bool); a non-negative count is kept and a negative one means no steps |
| EmbodiedExplorer.Insights | prometheus/agents/agent_odysseus.py:462-495 | the insights end with the efficiency insight at confidence 0.9; a spatial (causal) insight appears exactly when there are spatial (causal) discoveries, and each states a positive count |
| EmbodiedExplorer.ExplorationInsights | prometheus/agents/agent_odysseus.py:462-495 | a `k`-step exploration yields spatial understanding of ceil(k/50) at 0.8, causal understanding of ceil(k/75) at 0.7 and action diversity 1 |
| EmbodiedExplorer.ReportedSummary | prometheus/agents/agent_odysseus.py:371-380 | the report's summary states `k` steps, ceil(k/50)+ceil(k/75) discoveries and `k` world-model updates |
| EmbodiedExplorer.DesignPhysicsModel | prometheus/agents/agent_odysseus.py:212-228 | the engine is bullet physics exactly when some feature is requested, the precision is high exactly for realistic physics, the time step is 0.016 exactly for real time, and each requirement brings its features |
| EmbodiedExplorer.SubsequenceOfSelf | prometheus/agents/agent_odysseus.py:214-221 | a feature list keeps its own order |
| EmbodiedExplorer.SubsequenceOfEmpty | prometheus/agents/agent_odysseus.py:214-221 | no features is a sublist of any feature list |
| EmbodiedExplorer.SubsequenceConcat | prometheus/agents/agent_odysseus.py:214-221 | sublists joined end to end are a sublist of the joined lists |
| EmbodiedExplorer.PhysicsFeatureOrder | prometheus/agents/agent_odysseus.py:214-221 | the physics features always come in the order realistic, fluid, deformable |
| EmbodiedExplorer.AgentOdysseus.constructor | prometheus/agents/agent_odysseus.py:38-63 | a new Odysseus agent is inactive with no environments, tools, world model or experiences |
| EmbodiedExplorer.AgentOdysseus.Start | prometheus/agents/agent_odysseus.py:65-70 | start activates the agent, subscribes it, sets up the environments and installs the four tools |
| EmbodiedExplorer.AgentOdysseus.InitializeSimulationEnvironments | prometheus/agents/agent_odysseus.py:72-104 | the environment table becomes the started table |
| EmbodiedExplorer.AgentOdysseus.UseExternalTool | prometheus/agents/agent_odysseus.py:497-515 | the answer is an error exactly when the tool is not installed or not one of the four known tools; otherwise it carries the tool's name |
| EmbodiedExplorer.StartedToolUse | prometheus/agents/agent_odysseus.py:497-515 | once the tools are installed, exactly the unknown names get the "not available" error; the "Unknown tool" branch is never taken |
| EmbodiedExplorer.AgentOdysseus.RunExploration | prometheus/agents/agent_odysseus.py:339-362 | the stepping loop produces the `n`-step exploration data and records every step in the world model |
| EmbodiedExplorer.AgentOdysseus.CompleteExploration | prometheus/agents/agent_odysseus.py:364-390 | the exploration is stored, its report is queued for the supervisor and the result dict is returned |
| EmbodiedExplorer.AgentOdysseus.ExploreEnvironment | prometheus/agents/agent_odysseus.py:318-390 | an unknown environment gives the error dict and a non-integer step count raises, both changing nothing; otherwise the exploration is run, stored and reported |
| EmbodiedExplorer.AgentOdysseus.ExploreKnown | prometheus/agents/agent_odysseus.py:325-390 | with a known environment, a bad step count raises and changes nothing; otherwise the exploration is run, stored and reported |
| RateLimiting.Recent | prometheus/api/dependencies.py:79-83 | the cleaned list holds exactly the times after the window start and never grows |
| RateLimiting.RecentAppend | prometheus/api/dependencies.py:80-83 | cleaning filters entry by entry: a time appended to the list survives cleaning exactly when it is inside the window |
| RateLimiting.RecentIdempotent | prometheus/api/dependencies.py:79-83 | cleaning a cleaned list changes nothing |
| RateLimiting.RecentNarrow | prometheus/api/dependencies.py:79-83 | cleaning at an earlier window start and then a later one is the same as cleaning at the later one alone |
| RateLimiting.RecentInsideWindow | prometheus/api/dependencies.py:80-83 | every time the cleaned list keeps is inside the window |
| RateLimiting.RefusedAgain | prometheus/api/dependencies.py:88-89 | a refused call leaves the list as full as it was, so a repeat at the same time is refused too |
| RateLimiting.RateLimiter.constructor | prometheus/api/dependencies.py:66-69 | a new limiter keeps its limit and window and tracks no client |
| RateLimiting.RateLimiter.Default | prometheus/api/dependencies.py:66-69 | `RateLimiter()` with the default arguments, as the global `rate_limiter` is made, allows 100 requests per 60 seconds and tracks no client |
| RateLimiting.RateLimiter.CheckRateLimit | prometheus/api/dependencies.py:71-93 | the client's list is cleaned; the call is accepted exactly when fewer than the limit remain, and then `now` is appended; other clients are untouched and no list ever exceeds the limit |

## Left out

- Redis and network I/O: `RedisEventBus`, the network calls of `RedisRepository`, the Celery broker wiring, the HTTP routers and the server start are outside the runtime. Only the task serialiser pair and the key format are modelled.
- asyncio scheduling: the background processor task, `wait_for` timeouts and concurrent interleavings. Every `await` is one sequential call, and the bus processor is a `Step`/`Drain` the caller runs.
- Logging and the `psutil` metrics are side effects with no state the runtime reads.
- `__str__`/`__repr__`, the `id`/`type`/`is_active` property accessors and `get_id`/`get_type` are plain field reads.
- `AgentManager.start`/`stop`, `start_agent`/`stop_agent`, `list_agents`, `update_agent_config` and `get_prometheus_agent` are thin loops or lookups over the operations modelled here.
- `TaskService.monitor_task_execution` compares wall-clock ages of running tasks, so it is left out with the clock.
- `AgentPrometheus.get_project_status`, `AgentThemis.get_safety_status`, `AgentDaedalus.get_architecture_status`, `AgentLogos.get_symbolic_status` and `AgentOdysseus.get_embodiment_status` are status dicts built from fields the model already exposes.
- Themis: `start`, `_initialize_safety_monitors`, `_process_message_internal` and `_execute_task_internal` are not modelled. They start monitors or dispatch to the audit, which is modelled.
- `_design_resource_constraint_test` and `_design_ethical_dilemma_test` are named in the selector table of `design_safety_test` (prometheus/agents/agent_themis.py:362-363) but never defined, so building that table is what `design_safety_test` trips on. `_design_adversarial_test` and `_design_goal_modification_test` (agent_themis.py:371, 385) exist but are never reached.
- Logos: `develop_formal_logic_systems`, `create_knowledge_graph` and its `_extract_*`/`_create_*`/`_generate_domain_axioms` builders, `synthesize_program` and `_refine_symbolic_components` return or store constant payload dicts.
- Logos: `_process_message_internal` and `_execute_task_internal` (prometheus/agents/agent_logos.py:556-596, 623-647) are not modelled as such. They dispatch on the message kind or task name; their verification branches call `verify_reasoning_trace`, which is modelled (`LogicVerifier.VerifyReasoningTrace`), and their other branches call the constant builders above or answer with constant dicts.
- Logos: the axiom and ontology checks always find nothing, so they are constants.
- Daedalus: the neural, symbolic and integration designs are constant dicts and appear as opaque constants. The pathway findings are kept only as prose lists of the right length.
- Odysseus: `design_simulation_environment` and its `_design_environment_architecture`, `_design_observation_space`, `_design_action_space`, `_design_reward_structure` and `_design_interaction_model` selectors are not modelled; only `_design_physics_model` is.
- Odysseus: `_assess_environment_capabilities`, `generate_world_model_update` and its `_extract_*`/`_generate_*`/`_calculate_confidence_measures` helpers return constant or float-aggregated payloads.
- Odysseus: `_process_message_internal` and `_execute_task_internal` (prometheus/agents/agent_odysseus.py:681-750) are not modelled as such. They dispatch on the message kind or task name to `explore_environment` and `use_external_tool`, which are modelled (`EmbodiedExplorer.AgentOdysseus.ExploreEnvironment`, `EmbodiedExplorer.AgentOdysseus.UseExternalTool`), and to `design_simulation_environment` and `generate_world_model_update`, which are not.
- EmbodiedExplorer.Diversity: `len(set(str(a) for a in actions))` is modelled as the number of distinct actions, since the three action dicts print differently.
- EmbodiedExplorer.PosKey: the position key `f"{x:.1f}_..."` is written out for the exact multiples of 0.1 the steps use. Floating-point rounding of `step * 0.1` is not modelled.
- Floating point in general: confidence averages, `gaming_score`, completion and failure rates and score formatting inside message texts are exact reals or left out of message contents.
- Message ids and timestamps, and the violation timestamps Themis records, are not part of the modelled messages.
- Strings.Lower: `str.lower()` is modelled for ASCII letters only; the source's names and type strings are ASCII.
- Python equality across types (`1 == True`, `Enum` against `str`) is modelled by the typed attribute values of `find_by_criteria`, where a string never equals an enum member. The duplicate-id and dangling-reference checks of Logos compare ids as typed values too, so `1`, `True` and `1.0` are three different ids there, where Python counts them as one.
- The global `rate_limiter` instance and the `check_rate_limit` HTTP dependency that raises 429 are wrappers around `RateLimiter.check_rate_limit`, which is modelled.
- The `validate_*` helpers and `verify_api_key` in the API dependencies are thin wrappers over UUID parsing and settings.
- Uuids.ParseUuid: the other spellings `int(hex, 16)` accepts inside a 32-character text (surrounding whitespace, a sign, a "0x" prefix, underscores between digits) are refused here. Ids the runtime makes come from `str(uuid4())` and never use them.
- AgentManagement.AgentManager.PublishHalts: `AgentId(UUID(agent_id))` (prometheus/services/agent_manager.py:338, and the removal at :398) re-parses a registry key. Keys are printed UUIDs, which parse to themselves (`Uuids.CanonicalParses`), so the parse is not repeated.
- Repositories.Deserialize: the source keeps a name, description, result, error or metadata of any kind; a `TaskRecord` holds text, a dict or None there, so data with another kind deserialises to nothing. Datetimes are `Stamp` values standing for their ISO text, and `datetime.fromisoformat` is not modelled.
- Coordinator.ListItems: extending by a non-empty dict takes its keys in insertion order, and extending by a datetime's ISO text takes its characters. The model's dicts are unordered and its datetimes have no text, so both are reported as a failure outside the model, where Python accepts them.
- Architect.Refined: a pair whose key is a number, a bool, None or a datetime text, and a two-entry dict element, are accepted by Python but reported as failures here, because the model's dicts are keyed by text and unordered. A datetime element raises in Python with a length the model cannot give, and is reported the same way.
- Architect.Refined: when a list of pairs raises part-way, Python has already applied the pairs before the bad one; the model leaves the components as they were.
- LogicVerifier.VerifyInference: the "Unknown inference rule" text prints a float, a datetime text, a list or a dict rule as "<value>" (`Domain.Render`), where Python's f-string prints the value itself (prometheus/agents/agent_logos.py:340). The model has no text for a float or a datetime and its dicts are unordered. A datetime text's length is counted as 19, its length without microseconds; only its being other than 2 matters.
- LogicVerifier.VerifyStep: the "Unknown reasoning step type" text prints a float, a datetime text, a list or a dict type as "<value>", where Python prints the value itself (prometheus/agents/agent_logos.py:326), for the same reason.
- Architect.Exploration: the "Unknown pathway" text prints a float or datetime-text pathway as "<value>", where Python prints the value itself (prometheus/agents/agent_daedalus.py:264), for the same reason.
- SafetyOverseer.HaltCommand: the halt command of `_exercise_veto_power` carries the `SafetyCheck` objects themselves (prometheus/agents/agent_themis.py:343-348); the model carries each check's type, status, message, severity and metadata, but not its id or timestamp.
- AgentManagement.AgentManager.CreateAgent: the registry holds only each agent's base part (`BaseAgent`), so the role class's own state and its `start` override (prometheus/services/agent_manager.py:97-111) are not run through the manager: Odysseus's environments and tools (modelled on their own as `EmbodiedExplorer.AgentOdysseus.Start`) and Themis's monitors are not set up for agents made by `CreateAgent`, `SetupMaster`, `SetupSubordinate` or `SetupAgentHierarchy`.
- EventBus.InMemoryEventBus.Drain: the processor records each delivery instead of running the callback inline (prometheus/infrastructure/event_bus.py:166-167); the caller runs `BaseAgents.BaseAgent.HandleMessage` on the recorded deliveries after the drain, so a reply a handler publishes is delivered by a later drain rather than the same one, and a subscription change a handler makes is not seen by the drain that delivered to it.
