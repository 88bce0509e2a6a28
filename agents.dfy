/**
 * The agent layer: message and result records, the agent state every agent
 * carries, the coordinator that registers agents by capability and routes
 * workflow tasks to them, and the registry of running agents.
 */
module Agents {
  import opened Wrappers
  import opened Values
  import OrderedDicts

  /** Types of inter-agent messages. */
  datatype MessageType = Request | Response | Notification | Error | Heartbeat

  /** `MessageType.value`. */
  function MessageTypeValue(t: MessageType): (value: string)
  {
    match t
    case Request => "request"
    case Response => "response"
    case Notification => "notification"
    case Error => "error"
    case Heartbeat => "heartbeat"
  }

  /** `MessageType(s)`: the member whose value is `s`. */
  function ParseMessageType(s: string): (r: Option<MessageType>)
    ensures forall t :: r == Some(t) <==> MessageTypeValue(t) == s
  {
    if s == "request" then Some(Request)
    else if s == "response" then Some(Response)
    else if s == "notification" then Some(Notification)
    else if s == "error" then Some(Error)
    else if s == "heartbeat" then Some(Heartbeat)
    else None
  }

  /** Agent states. `Failed` is the source's `ERROR` member. */
  datatype AgentStatus = Idle | Busy | Failed | Offline

  /** An instant given by the caller wherever the source reads the clock. */
  type Instant = int

  /** One message between agents. `id` and `timestamp` are the caller's fresh id and instant. */
  datatype Message = Message(
    id: string,
    sender: string,
    receiver: string,
    messageType: MessageType,
    content: map<string, Value>,
    timestamp: Instant,
    correlationId: Option<string>)

  const MessageKeys: set<string> := {"id", "sender", "receiver", "message_type", "content", "timestamp", "correlation_id"}

  /** `Message.to_dict`. */
  function MessageToDict(m: Message): (d: map<string, Value>)
    ensures d.Keys == MessageKeys
    ensures d["id"] == Str(m.id) && d["sender"] == Str(m.sender) && d["receiver"] == Str(m.receiver)
    ensures d["message_type"] == Str(MessageTypeValue(m.messageType))
    ensures d["content"] == Dict(m.content) && d["timestamp"] == Timestamp(m.timestamp)
    ensures d["correlation_id"] == OptionalStr(m.correlationId)
  {
    map["id" := Str(m.id), "sender" := Str(m.sender), "receiver" := Str(m.receiver),
        "message_type" := Str(MessageTypeValue(m.messageType)), "content" := Dict(m.content),
        "timestamp" := Timestamp(m.timestamp), "correlation_id" := OptionalStr(m.correlationId)]
  }

  /** Reads a dictionary of the shape `to_dict` produces back into a message. */
  function MessageFromDict(d: map<string, Value>): (m: Option<Message>)
  {
    if MessageKeys <= d.Keys
       && d["id"].Str? && d["sender"].Str? && d["receiver"].Str? && d["message_type"].Str?
       && d["content"].Dict? && d["timestamp"].Timestamp?
    then
      match (ParseMessageType(d["message_type"].s), ParseOptionalStr(d["correlation_id"]))
      case (Some(t), Some(c)) =>
        Some(Message(d["id"].s, d["sender"].s, d["receiver"].s, t, d["content"].fields, d["timestamp"].at, c))
      case _ => None
    else None
  }

  /** Parsing what `to_dict` produced gives the same message back. */
  lemma MessageRoundTrip(m: Message)
    ensures MessageFromDict(MessageToDict(m)) == Some(m)
  {
    var d := MessageToDict(m);
    assert ParseMessageType(d["message_type"].s) == Some(m.messageType);
  }

  /** The outcome of one task. `taskId` and `result` are arbitrary values, as in the source. */
  datatype TaskResult = TaskResult(
    taskId: Value,
    agentId: string,
    success: bool,
    result: Value,
    error: Option<string>,
    executionTime: real,
    metadata: map<string, Value>)

  const TaskResultKeys: set<string> := {"task_id", "agent_id", "success", "result", "error", "execution_time", "metadata"}

  /** `TaskResult.to_dict`. */
  function TaskResultToDict(r: TaskResult): (d: map<string, Value>)
    ensures d.Keys == TaskResultKeys
  {
    map["task_id" := r.taskId, "agent_id" := Str(r.agentId), "success" := Bool(r.success),
        "result" := r.result, "error" := OptionalStr(r.error),
        "execution_time" := Float(r.executionTime), "metadata" := Dict(r.metadata)]
  }

  function TaskResultFromDict(d: map<string, Value>): (r: Option<TaskResult>)
  {
    if TaskResultKeys <= d.Keys
       && d["agent_id"].Str? && d["success"].Bool? && d["execution_time"].Float? && d["metadata"].Dict?
    then
      match ParseOptionalStr(d["error"])
      case Some(e) =>
        Some(TaskResult(d["task_id"], d["agent_id"].s, d["success"].b, d["result"], e,
                        d["execution_time"].x, d["metadata"].fields))
      case None => None
    else None
  }

  lemma TaskResultRoundTrip(r: TaskResult)
    ensures TaskResultFromDict(TaskResultToDict(r)) == Some(r)
  {
  }

  /**
   * The part of every agent the rest of the system sees: its id and name,
   * its status and the capabilities it has added.
   */
  class BaseAgent {
    const agentId: string
    const name: string
    var status: AgentStatus
    var capabilities: seq<AgentCapability>

    constructor (agentId: string, name: string)
      ensures this.agentId == agentId && this.name == name
      ensures status == Idle && capabilities == []
    {
      this.agentId := agentId;
      this.name := name;
      status := Idle;
      capabilities := [];
    }

    /** `add_capability`: appends, so adding the same capability twice lists it twice. */
    method AddCapability(capability: AgentCapability)
      modifies this`capabilities
      ensures capabilities == old(capabilities) + [capability]
    {
      capabilities := capabilities + [capability];
    }
  }

  /**
   * The coordinator's bookkeeping for one registered agent. The capability
   * list is kept as given: a registration message may carry items that are
   * not capability objects.
   */
  datatype AgentInfo = AgentInfo(capabilities: seq<Value>, status: AgentStatus, lastHeartbeat: Instant)

  /** The registry, in registration order. */
  type Registry = OrderedDicts.Dict<string, AgentInfo>

  /** Python's message for reading `.name` of an item that is not a capability. */
  function NoNameError(item: Value): (e: string)
  {
    "'" + TypeName(item) + "' object has no attribute 'name'"
  }

  /**
   * The inner loop of `find_capable_agent` over one agent's capabilities:
   * true at the first capability of that name if the agent is idle, an error
   * at the first item without a `name`, false when the list runs out.
   */
  function Scan(capabilities: seq<Value>, idle: bool, required: Value): (found: Result<bool, string>)
  {
    if capabilities == [] then Success(false)
    else if !capabilities[0].Capability? then Failure(NoNameError(capabilities[0]))
    else if Str(capabilities[0].cap.name) == required && idle then Success(true)
    else Scan(capabilities[1..], idle, required)
  }

  /** The inner loop of `find_capable_agent`, over one agent's capability list. */
  method ScanCapabilities(capabilities: seq<Value>, idle: bool, required: Value) returns (found: Result<bool, string>)
    ensures found == Scan(capabilities, idle, required)
  {
    var j := 0;
    while j < |capabilities|
      invariant 0 <= j <= |capabilities|
      invariant Scan(capabilities, idle, required) == Scan(capabilities[j..], idle, required)
    {
      var capability := capabilities[j];
      assert capabilities[j..][0] == capability && capabilities[j..][1..] == capabilities[j + 1..];
      if !capability.Capability? {
        return Failure(NoNameError(capability));
      }
      if Str(capability.cap.name) == required {
        if idle {
          return Success(true);
        }
      }
      j := j + 1;
    }
    return Success(false);
  }

  /** The routing rule: the first registered agent whose scan succeeds, or the first scan error. */
  function FirstCapable(reg: Registry, required: Value): (agent: Result<Option<string>, string>)
  {
    if reg == [] then Success(None)
    else match Scan(reg[0].1.capabilities, reg[0].1.status == Idle, required)
      case Failure(e) => Failure(e)
      case Success(found) =>
        if found then Success(Some(reg[0].0)) else FirstCapable(reg[1..], required)
  }

  /** Every capability item of the agent is a capability object. */
  predicate WellTyped(info: AgentInfo)
  {
    forall i :: 0 <= i < |info.capabilities| ==> info.capabilities[i].Capability?
  }

  /** The agent is idle and offers a capability named `required`. */
  predicate CanServe(info: AgentInfo, required: Value)
  {
    info.status == Idle &&
    exists i :: 0 <= i < |info.capabilities| && info.capabilities[i].Capability?
      && Str(info.capabilities[i].cap.name) == required
  }

  /** On a well-typed list the scan cannot fail, and finds exactly the agents that can serve. */
  lemma {:induction false} ScanWellTyped(info: AgentInfo, n: nat, required: Value)
    requires n <= |info.capabilities|
    requires WellTyped(info)
    requires info.status == Idle ==> forall i :: 0 <= i < n ==> Str(info.capabilities[i].cap.name) != required
    ensures Scan(info.capabilities[n..], info.status == Idle, required) == Success(CanServe(info, required))
    decreases |info.capabilities| - n
  {
    var rest := info.capabilities[n..];
    if n < |info.capabilities| {
      assert rest[0] == info.capabilities[n] && rest[1..] == info.capabilities[n + 1..];
      if !(Str(rest[0].cap.name) == required && info.status == Idle) {
        ScanWellTyped(info, n + 1, required);
      }
    }
  }

  /** A successful scan means the agent can serve. */
  lemma {:induction false} ScanFound(info: AgentInfo, n: nat, required: Value)
    requires n <= |info.capabilities|
    requires Scan(info.capabilities[n..], info.status == Idle, required) == Success(true)
    ensures CanServe(info, required)
    decreases |info.capabilities| - n
  {
    var rest := info.capabilities[n..];
    assert rest[0] == info.capabilities[n] && rest[1..] == info.capabilities[n + 1..];
    if !(Str(rest[0].cap.name) == required && info.status == Idle) {
      ScanFound(info, n + 1, required);
    }
  }

  /** Routing only ever names a registered agent that can serve. */
  lemma {:induction false} FirstCapableServes(reg: Registry, required: Value)
    requires FirstCapable(reg, required).Success? && FirstCapable(reg, required).value.Some?
    ensures exists i :: 0 <= i < |reg| && reg[i].0 == FirstCapable(reg, required).value.value
              && CanServe(reg[i].1, required)
  {
    var info := reg[0].1;
    assert info.capabilities[0..] == info.capabilities;
    if Scan(info.capabilities, info.status == Idle, required) == Success(true) {
      ScanFound(info, 0, required);
    } else {
      FirstCapableServes(reg[1..], required);
      var i :| 0 <= i < |reg[1..]| && reg[1..][i].0 == FirstCapable(reg, required).value.value
               && CanServe(reg[1..][i].1, required);
      assert reg[i + 1] == reg[1..][i];
    }
  }

  /**
   * When every registered capability is a capability object, routing cannot
   * fail: it finds nobody exactly when no agent can serve, and otherwise the
   * earliest registered agent that can.
   */
  lemma {:induction false} FirstCapableIsEarliest(reg: Registry, required: Value)
    requires forall i :: 0 <= i < |reg| ==> WellTyped(reg[i].1)
    ensures FirstCapable(reg, required).Success?
    ensures FirstCapable(reg, required).value.None? <==> forall i :: 0 <= i < |reg| ==> !CanServe(reg[i].1, required)
    ensures FirstCapable(reg, required).value.Some? ==>
              exists i :: 0 <= i < |reg| && reg[i].0 == FirstCapable(reg, required).value.value
                && CanServe(reg[i].1, required)
                && forall j :: 0 <= j < i ==> !CanServe(reg[j].1, required)
  {
    if reg != [] {
      var info := reg[0].1;
      assert info.capabilities[0..] == info.capabilities;
      ScanWellTyped(info, 0, required);
      assert forall i :: 1 <= i < |reg| ==> reg[i] == reg[1..][i - 1];
      if !CanServe(info, required) {
        FirstCapableIsEarliest(reg[1..], required);
        if FirstCapable(reg, required).value.Some? {
          var i :| 0 <= i < |reg[1..]| && reg[1..][i].0 == FirstCapable(reg, required).value.value
                   && CanServe(reg[1..][i].1, required)
                   && forall j :: 0 <= j < i ==> !CanServe(reg[1..][j].1, required);
          assert forall j :: 1 <= j < i + 1 ==> reg[j] == reg[1..][j - 1];
          assert reg[i + 1] == reg[1..][i];
        }
      }
    }
  }

  /** Re-registering gives the agent exactly the new entry, keeps its place and leaves the others alone. */
  lemma RegisterReplaces(reg: Registry, agentId: string, info: AgentInfo, other: string)
    requires OrderedDicts.UniqueKeys(reg)
    ensures OrderedDicts.Get(OrderedDicts.Put(reg, agentId, info), agentId) == Some(info)
    ensures OrderedDicts.UniqueKeys(OrderedDicts.Put(reg, agentId, info))
    ensures other != agentId ==>
              OrderedDicts.Get(OrderedDicts.Put(reg, agentId, info), other) == OrderedDicts.Get(reg, other)
    ensures OrderedDicts.Keys(OrderedDicts.Put(reg, agentId, info)) ==
              if agentId in OrderedDicts.Keys(reg) then OrderedDicts.Keys(reg) else OrderedDicts.Keys(reg) + [agentId]
  {
    OrderedDicts.PutGet(reg, agentId, info);
    OrderedDicts.PutUnique(reg, agentId, info);
    if other != agentId {
      OrderedDicts.PutOther(reg, agentId, info, other);
    }
    OrderedDicts.PutKeys(reg, agentId, info);
  }

  /* ---------------- Workflows ---------------- */

  /** A task descriptor; the source reads its `capability` and `id` keys. */
  type Task = Value

  /** The bookkeeping recorded per dispatched task. */
  datatype TaskRecord = TaskRecord(status: string, agent: string, result: string)

  /** Workflow states: running, then completed or failed, never back. */
  datatype WorkflowStatus = Running | Completed | Aborted

  /** The per-task results, keyed by task id in dispatch order. */
  type Results = OrderedDicts.Dict<Value, TaskRecord>

  /** Python's message for `task.get` on something that is not a dictionary. */
  function NoGetError(task: Task): (e: string)
  {
    "'" + TypeName(task) + "' object has no attribute 'get'"
  }

  /** Python's message for `task['id']` on a task without an id. */
  const MissingIdError := "'id'"

  /** A capability name is a string, so a scan for anything else never succeeds. */
  lemma {:induction false} ScanNeedsString(capabilities: seq<Value>, idle: bool, required: Value)
    requires !required.Str?
    ensures Scan(capabilities, idle, required) != Success(true)
  {
    if capabilities != [] {
      ScanNeedsString(capabilities[1..], idle, required);
    }
  }

  /** Routing by a capability that is not a string finds no agent, when it does not raise. */
  lemma {:induction false} FirstCapableNeedsString(reg: Registry, required: Value)
    ensures !required.Str? && FirstCapable(reg, required).Success? ==> FirstCapable(reg, required).value.None?
  {
    if reg != [] && !required.Str? {
      ScanNeedsString(reg[0].1.capabilities, reg[0].1.status == Idle, required);
      FirstCapableNeedsString(reg[1..], required);
    }
  }

  /** The entry recorded for a task dispatched to `agent`. */
  function Completion(id: Value, agent: string): (record: TaskRecord)
  {
    TaskRecord("completed", agent, "Task " + Render(id) + " completed by " + agent)
  }

  /**
   * One iteration of the workflow loop: route the task, then record it
   * under its id, or say why the workflow stops here.
   */
  function Dispatch(reg: Registry, task: Task): (r: Result<(Value, TaskRecord), string>)
  {
    if !task.Dict? && !task.Object? then Failure(NoGetError(task))
    else
      // A workflow record is a dictionary without a `capability` key.
      var required := if task.Dict? then Get(task.fields, "capability") else Null;
      FirstCapableNeedsString(reg, required);
      match FirstCapable(reg, required)
      case Failure(e) => Failure(e)
      case Success(agent) =>
        if agent.None? || agent.value == "" then
          Failure("No agent found for capability: " + Render(required))
        else if "id" !in task.fields then Failure(MissingIdError)
        else if !Hashable(task.fields["id"]) then Failure(UnhashableError(task.fields["id"]))
        else Success((task.fields["id"], Completion(task.fields["id"], agent.value)))
  }

  /**
   * A task is dispatched exactly when it is a dictionary with a hashable id
   * and routing finds a (non-empty) agent for its capability; the entry
   * then names that agent. A task that is not dispatched stops the workflow
   * with a non-empty error.
   */
  lemma DispatchIff(reg: Registry, task: Task)
    ensures Dispatch(reg, task).Success? <==>
              && task.Dict? && "id" in task.fields && Hashable(task.fields["id"])
              && FirstCapable(reg, Get(task.fields, "capability")).Success?
              && FirstCapable(reg, Get(task.fields, "capability")).value.Some?
              && FirstCapable(reg, Get(task.fields, "capability")).value.value != ""
    ensures Dispatch(reg, task).Success? ==>
              Dispatch(reg, task).value ==
                (task.fields["id"], Completion(task.fields["id"], FirstCapable(reg, Get(task.fields, "capability")).value.value))
    ensures Dispatch(reg, task).Failure? ==> Dispatch(reg, task).error != ""
  {
    if task.Dict? {
      FirstCapableErrorNonEmpty(reg, Get(task.fields, "capability"));
    } else if task.Object? {
      FirstCapableErrorNonEmpty(reg, Null);
      FirstCapableNeedsString(reg, Null);
    }
  }

  /**
   * A workflow record given as a task answers `.get("capability")` with
   * `None`, so it stops the workflow: with the routing error if a scan
   * raises, and otherwise because no agent has that capability.
   */
  lemma WorkflowRecordNotDispatched(reg: Registry, task: Task)
    requires task.Object?
    ensures FirstCapable(reg, Null).Failure? ==> Dispatch(reg, task) == Failure(FirstCapable(reg, Null).error)
    ensures FirstCapable(reg, Null).Success? ==> Dispatch(reg, task) == Failure("No agent found for capability: None")
  {
    FirstCapableNeedsString(reg, Null);
    assert "No agent found for capability: " + Render(Null) == "No agent found for capability: None";
  }

  /** Routing errors are never empty. */
  lemma {:induction false} FirstCapableErrorNonEmpty(reg: Registry, required: Value)
    ensures FirstCapable(reg, required).Failure? ==> FirstCapable(reg, required).error != ""
  {
    if reg != [] {
      ScanErrorNonEmpty(reg[0].1.capabilities, reg[0].1.status == Idle, required);
      FirstCapableErrorNonEmpty(reg[1..], required);
    }
  }

  lemma {:induction false} ScanErrorNonEmpty(capabilities: seq<Value>, idle: bool, required: Value)
    ensures Scan(capabilities, idle, required).Failure? ==> Scan(capabilities, idle, required).error != ""
  {
    if capabilities != [] {
      ScanErrorNonEmpty(capabilities[1..], idle, required);
    }
  }

  /** Where a workflow ends: the results recorded and, if it stopped early, why. */
  datatype Routing = Routing(results: Results, failure: Option<string>)

  /** The workflow loop from `results` on: dispatch task by task, stop at the first that fails. */
  function Route(reg: Registry, tasks: seq<Task>, results: Results): (routing: Routing)
    decreases |tasks|
  {
    if tasks == [] then Routing(results, None)
    else match Dispatch(reg, tasks[0])
      case Failure(e) => Routing(results, Some(e))
      case Success(entry) => Route(reg, tasks[1..], OrderedDicts.Put(results, entry.0, entry.1))
  }

  /** A workflow completes exactly when every task is dispatched. */
  lemma {:induction false} RouteCompletesIff(reg: Registry, tasks: seq<Task>, results: Results)
    ensures Route(reg, tasks, results).failure.None? <==> forall i :: 0 <= i < |tasks| ==> Dispatch(reg, tasks[i]).Success?
    decreases |tasks|
  {
    if tasks != [] && Dispatch(reg, tasks[0]).Success? {
      var entry := Dispatch(reg, tasks[0]).value;
      RouteCompletesIff(reg, tasks[1..], OrderedDicts.Put(results, entry.0, entry.1));
      assert forall i :: 1 <= i < |tasks| ==> tasks[i] == tasks[1..][i - 1];
    }
  }

  /**
   * Fail-fast: when the workflow stops at task `i`, the results are those of
   * the tasks before `i` and the error is task `i`'s.
   */
  lemma {:induction false} RouteFailsFast(reg: Registry, tasks: seq<Task>, results: Results, i: nat)
    requires i < |tasks|
    requires forall j :: 0 <= j < i ==> Dispatch(reg, tasks[j]).Success?
    requires Dispatch(reg, tasks[i]).Failure?
    ensures Route(reg, tasks, results) == Routing(Route(reg, tasks[..i], results).results, Some(Dispatch(reg, tasks[i]).error))
    decreases i
  {
    if i > 0 {
      var entry := Dispatch(reg, tasks[0]).value;
      var next := OrderedDicts.Put(results, entry.0, entry.1);
      var rest := tasks[1..];
      assert forall j :: 0 <= j < i - 1 ==> rest[j] == tasks[j + 1];
      assert rest[i - 1] == tasks[i];
      RouteFailsFast(reg, rest, next, i - 1);
      var prefix := tasks[..i];
      assert prefix[0] == tasks[0] && prefix[1..] == rest[..i - 1];
      assert Route(reg, prefix, results) == Route(reg, rest[..i - 1], next);
      assert Route(reg, tasks, results) == Route(reg, rest, next);
    }
  }

  /** Whatever follows the task that stops a workflow has no effect on it. */
  lemma RouteIgnoresRest(reg: Registry, tasks: seq<Task>, results: Results, i: nat, later: seq<Task>)
    requires i < |tasks|
    requires forall j :: 0 <= j < i ==> Dispatch(reg, tasks[j]).Success?
    requires Dispatch(reg, tasks[i]).Failure?
    ensures Route(reg, tasks[..i + 1] + later, results) == Route(reg, tasks, results)
  {
    var ts := tasks[..i + 1] + later;
    assert forall j :: 0 <= j <= i ==> ts[j] == tasks[j];
    assert ts[..i] == tasks[..i];
    RouteFailsFast(reg, ts, results, i);
    RouteFailsFast(reg, tasks, results, i);
  }

  /** Tasks whose ids differ from `key` leave its entry as it was. */
  lemma {:induction false} RouteLeavesOtherKeys(reg: Registry, tasks: seq<Task>, results: Results, key: Value)
    requires forall j :: 0 <= j < |tasks| ==> Dispatch(reg, tasks[j]).Success? && Dispatch(reg, tasks[j]).value.0 != key
    ensures OrderedDicts.Get(Route(reg, tasks, results).results, key) == OrderedDicts.Get(results, key)
    decreases |tasks|
  {
    if tasks != [] {
      var entry := Dispatch(reg, tasks[0]).value;
      OrderedDicts.PutOther(results, entry.0, entry.1, key);
      assert forall j :: 0 <= j < |tasks| - 1 ==> tasks[1..][j] == tasks[j + 1];
      RouteLeavesOtherKeys(reg, tasks[1..], OrderedDicts.Put(results, entry.0, entry.1), key);
    }
  }

  /**
   * After a completed workflow, the entry under a task's id (for the last
   * task with that id) is the completion record of that task.
   */
  lemma {:induction false} RouteRecordsTask(reg: Registry, tasks: seq<Task>, results: Results, i: nat)
    requires i < |tasks|
    requires forall j :: 0 <= j < |tasks| ==> Dispatch(reg, tasks[j]).Success?
    requires forall j :: i < j < |tasks| ==> Dispatch(reg, tasks[j]).value.0 != Dispatch(reg, tasks[i]).value.0
    ensures OrderedDicts.Get(Route(reg, tasks, results).results, Dispatch(reg, tasks[i]).value.0) ==
              Some(Dispatch(reg, tasks[i]).value.1)
    decreases i
  {
    var entry := Dispatch(reg, tasks[0]).value;
    var next := OrderedDicts.Put(results, entry.0, entry.1);
    assert forall j :: 0 <= j < |tasks| - 1 ==> tasks[1..][j] == tasks[j + 1];
    if i == 0 {
      OrderedDicts.PutGet(results, entry.0, entry.1);
      RouteLeavesOtherKeys(reg, tasks[1..], next, entry.0);
    } else {
      RouteRecordsTask(reg, tasks[1..], next, i - 1);
    }
  }

  /** The workflow record the source keeps as a dictionary and updates as the loop runs. */
  class Workflow {
    const id: Value
    const tasks: seq<Task>
    var results: Results
    var status: WorkflowStatus
    const startTime: Instant
    var endTime: Option<Instant>
    var error: Option<string>

    constructor (id: Value, tasks: seq<Task>, startTime: Instant)
      ensures this.id == id && this.tasks == tasks && this.startTime == startTime
      ensures results == [] && status == Running && endTime == None && error == None
    {
      this.id := id;
      this.tasks := tasks;
      this.startTime := startTime;
      results := [];
      status := Running;
      endTime := None;
      error := None;
    }
  }

  /**
   * The workflow record after its loop: the tasks dispatched before the
   * first failure are recorded, and the status, end time and error say
   * whether it completed.
   */
  ghost predicate Ran(w: Workflow, id: Value, tasks: seq<Task>, reg: Registry, startTime: Instant, endTime: Instant)
    reads w
  {
    var outcome := Route(reg, tasks, []);
    && w.id == id && w.tasks == tasks && w.startTime == startTime
    && w.results == outcome.results
    && (outcome.failure.None? ==> w.status == Completed && w.endTime == Some(endTime) && w.error == None)
    && (outcome.failure.Some? ==> w.status == Aborted && w.endTime == None && w.error == outcome.failure)
  }

  /** The coordinator's own two capabilities. */
  function CoordinatorCapabilities(): (caps: seq<AgentCapability>)
    ensures |caps| == 2 && caps[0].name == "orchestrate_workflow" && caps[1].name == "agent_registry"
  {
    [AgentCapability("orchestrate_workflow", "Orchestrate complex workflows across multiple agents",
                     map["workflow_id" := Str("string"), "tasks" := Str("array")],
                     map["workflow" := Str("object")]),
     AgentCapability("agent_registry", "Manage agent registration and discovery",
                     map["action" := Str("string")],
                     map["status" := Str("string")])]
  }

  /**
   * The coordinator: a registry of agents and the workflows it has run.
   * A method returning `Failure(e)` models a call that raises `e` to its caller.
   */
  class CoordinatorAgent {
    const base: BaseAgent
    var registeredAgents: Registry
    var activeWorkflows: OrderedDicts.Dict<Value, Workflow>

    /** Neither dictionary holds a key twice. */
    ghost predicate Valid()
      reads this
    {
      OrderedDicts.UniqueKeys(registeredAgents) && OrderedDicts.UniqueKeys(activeWorkflows)
    }

    constructor (agentId: string := "coordinator")
      ensures Valid() && fresh(base)
      ensures base.agentId == agentId && base.name == "Coordinator" && base.status == Idle && base.capabilities == []
      ensures registeredAgents == [] && activeWorkflows == []
    {
      base := new BaseAgent(agentId, "Coordinator");
      registeredAgents := [];
      activeWorkflows := [];
    }

    /** `initialize` has nothing to set up. */
    method Initialize() returns (ok: bool)
      ensures ok
    {
      ok := true;
    }

    /** `register_agent`: replace or add the agent's entry, idle, stamped `now`. */
    method RegisterAgent(agentId: string, capabilities: seq<Value>, now: Instant)
      requires Valid()
      modifies this
      ensures Valid()
      ensures registeredAgents == OrderedDicts.Put(old(registeredAgents), agentId, AgentInfo(capabilities, Idle, now))
      ensures activeWorkflows == old(activeWorkflows)
    {
      OrderedDicts.PutUnique(registeredAgents, agentId, AgentInfo(capabilities, Idle, now));
      registeredAgents := OrderedDicts.Put(registeredAgents, agentId, AgentInfo(capabilities, Idle, now));
    }

    /** `find_capable_agent`: scan agents, and each agent's capabilities, in order. */
    method FindCapableAgent(requiredCapability: Value) returns (agent: Result<Option<string>, string>)
      ensures agent == FirstCapable(registeredAgents, requiredCapability)
    {
      var i := 0;
      while i < |registeredAgents|
        invariant 0 <= i <= |registeredAgents|
        invariant FirstCapable(registeredAgents, requiredCapability) == FirstCapable(registeredAgents[i..], requiredCapability)
      {
        var (agentId, info) := registeredAgents[i];
        assert registeredAgents[i..][0] == (agentId, info) && registeredAgents[i..][1..] == registeredAgents[i + 1..];
        var found := ScanCapabilities(info.capabilities, info.status == Idle, requiredCapability);
        if found.Failure? {
          return Failure(found.error);
        }
        if found.value {
          return Success(Some(agentId));
        }
        i := i + 1;
      }
      return Success(None);
    }

    /**
     * `orchestrate_workflow`: publish a running workflow under its id, then
     * dispatch its tasks in order, stopping at the first that cannot be
     * dispatched. The published object is the one returned. An unhashable
     * workflow id raises before anything changes.
     */
    method OrchestrateWorkflow(workflowId: Value, tasks: seq<Task>, startTime: Instant, endTime: Instant)
      returns (r: Result<Workflow, string>)
      requires Valid()
      modifies this
      ensures Valid()
      ensures registeredAgents == old(registeredAgents)
      ensures r.Failure? <==> !Hashable(workflowId)
      ensures r.Failure? ==> r.error == UnhashableError(workflowId) && activeWorkflows == old(activeWorkflows)
      ensures r.Success? ==>
        && fresh(r.value)
        && activeWorkflows == OrderedDicts.Put(old(activeWorkflows), workflowId, r.value)
        && Ran(r.value, workflowId, tasks, registeredAgents, startTime, endTime)
    {
      if !Hashable(workflowId) {
        return Failure(UnhashableError(workflowId));
      }
      var workflow := new Workflow(workflowId, tasks, startTime);
      OrderedDicts.PutUnique(activeWorkflows, workflowId, workflow);
      activeWorkflows := OrderedDicts.Put(activeWorkflows, workflowId, workflow);
      r := Success(workflow);

      var i := 0;
      while i < |tasks|
        invariant 0 <= i <= |tasks|
        invariant Valid() && fresh(workflow) && r == Success(workflow)
        invariant registeredAgents == old(registeredAgents)
        invariant activeWorkflows == OrderedDicts.Put(old(activeWorkflows), workflowId, workflow)
        invariant workflow.id == workflowId && workflow.tasks == tasks && workflow.startTime == startTime
        invariant workflow.status == Running && workflow.endTime == None && workflow.error == None
        invariant Route(registeredAgents, tasks, []) == Route(registeredAgents, tasks[i..], workflow.results)
      {
        var task := tasks[i];
        assert tasks[i..][0] == task && tasks[i..][1..] == tasks[i + 1..];
        if !task.Dict? && !task.Object? {
          workflow.status := Aborted;
          workflow.error := Some(NoGetError(task));
          return;
        }
        var requiredCapability := if task.Dict? then Get(task.fields, "capability") else Null;
        var found := FindCapableAgent(requiredCapability);
        FirstCapableNeedsString(registeredAgents, requiredCapability);
        if found.Failure? {
          workflow.status := Aborted;
          workflow.error := Some(found.error);
          return;
        }
        var agentId := found.value;
        if agentId.None? || agentId.value == "" {
          workflow.status := Aborted;
          workflow.error := Some("No agent found for capability: " + Render(requiredCapability));
          return;
        }
        if "id" !in task.fields {
          workflow.status := Aborted;
          workflow.error := Some(MissingIdError);
          return;
        }
        var id := task.fields["id"];
        if !Hashable(id) {
          workflow.status := Aborted;
          workflow.error := Some(UnhashableError(id));
          return;
        }
        workflow.results := OrderedDicts.Put(workflow.results, id, Completion(id, agentId.value));
        i := i + 1;
      }
      workflow.status := Completed;
      workflow.endTime := Some(endTime);
    }

    /**
     * `process_message`: `register` registers the sender and acknowledges,
     * `start_workflow` runs the workflow and replies with it, and any other
     * action gets no reply. `Failure` is the exception `start_workflow`
     * lets through. The three instants are the clock's readings in the
     * order the source takes them: the heartbeat of a registration or the
     * workflow's start, the workflow's end, and the reply's timestamp.
     */
    method ProcessMessage(message: Message, replyId: string, startTime: Instant, endTime: Instant, replyTime: Instant) returns (reply: Result<Option<Message>, string>)
      requires Valid()
      modifies this
      ensures Valid()
      ensures var action := Get(message.content, "action");
        && (action == Str("register") ==>
              registeredAgents == OrderedDicts.Put(old(registeredAgents), message.sender,
                AgentInfo(ListItems(GetOr(message.content, "capabilities", List([]))), Idle, startTime))
              && activeWorkflows == old(activeWorkflows)
              && reply == Success(Some(Message(replyId, base.agentId, message.sender, Response,
                                               map["status" := Str("registered")], replyTime, None))))
        && (action == Str("start_workflow") ==>
              registeredAgents == old(registeredAgents)
              && (reply.Failure? <==> !Hashable(Get(message.content, "workflow_id")))
              && (reply.Failure? ==>
                    reply.error == UnhashableError(Get(message.content, "workflow_id"))
                    && activeWorkflows == old(activeWorkflows))
              && (reply.Success? ==>
                    exists w: Workflow ::
                      && activeWorkflows == OrderedDicts.Put(old(activeWorkflows), Get(message.content, "workflow_id"), w)
                      && Ran(w, Get(message.content, "workflow_id"), ListItems(GetOr(message.content, "tasks", List([]))),
                             registeredAgents, startTime, endTime)
                      && reply.value == Some(Message(replyId, base.agentId, message.sender, Response,
                                                     map["workflow" := Object(w)], replyTime, None))))
        && (action != Str("register") && action != Str("start_workflow") ==>
              reply == Success(None) && registeredAgents == old(registeredAgents) && activeWorkflows == old(activeWorkflows))
    {
      var content := message.content;
      var action := Get(content, "action");
      if action == Str("register") {
        RegisterAgent(message.sender, ListItems(GetOr(content, "capabilities", List([]))), startTime);
        return Success(Some(Message(replyId, base.agentId, message.sender, Response,
                                    map["status" := Str("registered")], replyTime, None)));
      } else if action == Str("start_workflow") {
        var workflow := OrchestrateWorkflow(Get(content, "workflow_id"),
                                            ListItems(GetOr(content, "tasks", List([]))), startTime, endTime);
        if workflow.Failure? {
          return Failure(workflow.error);
        }
        return Success(Some(Message(replyId, base.agentId, message.sender, Response,
                                    map["workflow" := Object(workflow.value)], replyTime, None)));
      }
      return Success(None);
    }

    /**
     * `execute_task`: an `orchestrate` task runs the workflow and succeeds
     * whatever the workflow's own status; an unknown type, or a workflow id
     * that cannot be a key, fails with an error and no result. The
     * workflow is stamped with the clock's readings at its start and end.
     */
    method ExecuteTask(task: map<string, Value>, freshTaskId: string, freshWorkflowId: string, startTime: Instant, endTime: Instant)
      returns (r: TaskResult)
      requires Valid()
      modifies this
      ensures Valid()
      ensures registeredAgents == old(registeredAgents)
      ensures r.taskId == GetOr(task, "id", Str(freshTaskId)) && r.agentId == base.agentId
      ensures r.executionTime == 0.0 && r.metadata == map[]
      ensures r.success <==> Get(task, "type") == Str("orchestrate") && Hashable(GetOr(task, "workflow_id", Str(freshWorkflowId)))
      ensures r.success ==>
                r.error == None
                && exists w: Workflow :: r.result == Object(w)
                     && activeWorkflows == OrderedDicts.Put(old(activeWorkflows), GetOr(task, "workflow_id", Str(freshWorkflowId)), w)
                     && Ran(w, GetOr(task, "workflow_id", Str(freshWorkflowId)), ListItems(GetOr(task, "tasks", List([]))),
                            registeredAgents, startTime, endTime)
      ensures Get(task, "type") == Str("orchestrate") && !r.success ==>
                r.error == Some(UnhashableError(GetOr(task, "workflow_id", Str(freshWorkflowId))))
      ensures !r.success ==>
                r.result == Null && r.error.Some? && r.error.value != "" && activeWorkflows == old(activeWorkflows)
      ensures Get(task, "type") != Str("orchestrate") ==> r.error == Some("Unknown task type: " + Render(Get(task, "type")))
    {
      var taskId := GetOr(task, "id", Str(freshTaskId));
      if Get(task, "type") == Str("orchestrate") {
        var workflow := OrchestrateWorkflow(GetOr(task, "workflow_id", Str(freshWorkflowId)),
                                            ListItems(GetOr(task, "tasks", List([]))), startTime, endTime);
        if workflow.Failure? {
          return TaskResult(taskId, base.agentId, false, Null, Some(workflow.error), 0.0, map[]);
        }
        return TaskResult(taskId, base.agentId, true, Object(workflow.value), None, 0.0, map[]);
      }
      return TaskResult(taskId, base.agentId, false, Null,
                        Some("Unknown task type: " + Render(Get(task, "type"))), 0.0, map[]);
    }

    /** `get_capabilities`: the coordinator's two fixed capabilities. */
    function GetCapabilities(): (caps: seq<AgentCapability>)
      ensures caps == CoordinatorCapabilities()
    {
      CoordinatorCapabilities()
    }
  }

  /** The registry of agents in the system, keyed by agent id in registration order. */
  class AgentRegistry {
    var agents: OrderedDicts.Dict<string, BaseAgent>

    /** Keys are unique and each agent is stored under its own id. */
    ghost predicate Valid()
      reads this
    {
      OrderedDicts.UniqueKeys(agents) && forall i :: 0 <= i < |agents| ==> agents[i].0 == agents[i].1.agentId
    }

    constructor ()
      ensures Valid() && agents == []
    {
      agents := [];
    }

    /** `register`: store the agent under its id, replacing any agent with that id. */
    method Register(agent: BaseAgent)
      requires Valid()
      modifies this
      ensures Valid()
      ensures agents == OrderedDicts.Put(old(agents), agent.agentId, agent)
    {
      var updated := OrderedDicts.Put(agents, agent.agentId, agent);
      OrderedDicts.PutUnique(agents, agent.agentId, agent);
      PutKeepsOwnIds(agents, agent);
      assert forall i :: 0 <= i < |updated| ==> updated[i].0 == updated[i].1.agentId;
      agents := updated;
    }

    /** `get_agent`: the agent registered under that id, if any. */
    function GetAgent(agentId: string): (r: Option<BaseAgent>)
      requires Valid()
      reads this
      ensures r.Some? <==> agentId in OrderedDicts.Keys(agents)
      ensures r.Some? ==> r.value.agentId == agentId && (agentId, r.value) in agents
    {
      OrderedDicts.GetPresent(agents, agentId);
      GetFindsEntry(agents, agentId);
      OrderedDicts.Get(agents, agentId)
    }

    /** `list_agents`: the ids in registration order, each once. */
    function ListAgents(): (ids: seq<string>)
      requires Valid()
      reads this
      ensures |ids| == |agents|
      ensures forall i :: 0 <= i < |ids| ==> ids[i] == agents[i].0
      ensures forall i, j :: 0 <= i < j < |ids| ==> ids[i] != ids[j]
      ensures forall id :: id in ids <==> GetAgent(id).Some?
    {
      OrderedDicts.Keys(agents)
    }
  }

  /** Storing an agent under its own id keeps every entry keyed by its agent's id. */
  lemma {:induction false} PutKeepsOwnIds(d: OrderedDicts.Dict<string, BaseAgent>, agent: BaseAgent)
    requires forall i :: 0 <= i < |d| ==> d[i].0 == d[i].1.agentId
    ensures forall i :: 0 <= i < |OrderedDicts.Put(d, agent.agentId, agent)| ==>
      OrderedDicts.Put(d, agent.agentId, agent)[i].0 == OrderedDicts.Put(d, agent.agentId, agent)[i].1.agentId
  {
    var r := OrderedDicts.Put(d, agent.agentId, agent);
    if d == [] {
    } else if d[0].0 == agent.agentId {
      assert forall i :: 1 <= i < |r| ==> r[i] == d[i];
    } else {
      assert forall i :: 0 <= i < |d| - 1 ==> d[1..][i] == d[i + 1];
      PutKeepsOwnIds(d[1..], agent);
      assert forall i :: 1 <= i < |r| ==> r[i] == OrderedDicts.Put(d[1..], agent.agentId, agent)[i - 1];
    }
  }

  /** A lookup that succeeds returns an entry of the dictionary. */
  lemma {:induction false} GetFindsEntry<V>(d: OrderedDicts.Dict<string, V>, k: string)
    ensures OrderedDicts.Get(d, k).Some? ==> (k, OrderedDicts.Get(d, k).value) in d
  {
    if d != [] && d[0].0 != k {
      GetFindsEntry(d[1..], k);
    }
  }
}
