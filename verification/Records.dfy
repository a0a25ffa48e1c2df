/** The durable records of the mesh and the repository calls that change them. One `Exec` is one
    call of the in-memory repository, which replaces whole records. */
module Records {
  import opened Lifecycle
  import opened CanonicalJson

  datatype Option<+T> = None | Some(value: T)

  /** Ids are drawn from a counter that also serves as the clock, so they are never reused. */
  type Id = nat

  /** An issued approval token, as far as the stored task is concerned. */
  datatype Token = Token(recordId: Id, payloadHash: string, requesterId: string)

  /** Task metadata: the stash of issued tokens, when there is one, beside all other entries. */
  datatype Metadata = Metadata(tokens: Option<map<Id, Token>>, other: map<string, Json>) {
    predicate IsEmpty() {
      tokens.None? && other == map[]
    }
  }

  datatype TaskRecord = TaskRecord(
    taskId: Id, tenantId: string, clientSlug: string, entrypoint: string, requesterId: string,
    sessionId: string, prompt: string, state: TaskState, modelRouteProfile: string,
    resultSummary: Option<string>, error: Option<string>, metadata: Metadata,
    createdAt: nat, updatedAt: nat)

  datatype TaskEvent = TaskEvent(taskId: Id, tenantId: string, state: TaskState, note: string)

  datatype Category = Read | Write | ExternalSend | Financial | Publishing | Code | Admin
  datatype CallStatus = Requested | AwaitingDecision | CallApproved | CallRejected | Executed | CallFailed

  datatype ToolCall = ToolCall(
    callId: Id, taskId: Id, tenantId: string, toolName: string, category: Category,
    approvalRequired: bool, status: CallStatus, parameters: Json, result: Option<Json>,
    requesterId: string, modelRoute: Option<string>, approvalRecordId: Option<Id>,
    integrationStyle: Option<string>, schemaValidation: Option<string>, isRead: bool, createdAt: nat)

  datatype Decision = Pending | Approve | Reject | Expire

  datatype ApprovalRecord = ApprovalRecord(
    recordId: Id, requestId: Id, taskId: Id, tenantId: string, toolCallId: Option<Id>, decision: Decision,
    approverId: Option<string>, channel: Option<string>, payloadHash: string,
    decidedAt: Option<nat>, createdAt: nat)

  datatype GatewayEvent = GatewayEvent(taskId: Id, tenantId: string, modelRoute: string, dlpAction: string)

  datatype Store = Store(
    tasks: map<Id, TaskRecord>,
    events: seq<TaskEvent>,
    calls: map<Id, ToolCall>,
    callOrder: seq<Id>,
    approvals: map<Id, ApprovalRecord>,
    approvalOrder: seq<Id>,
    gateway: seq<GatewayEvent>)

  const EMPTY := Store(map[], [], map[], [], map[], [], [])

  datatype RepoCall =
    | PutTask(task: TaskRecord)
    | Transition(taskId: Id, target: TaskState, note: string, at: nat)
    | PutCall(call: ToolCall)
    | PutApproval(record: ApprovalRecord)
    | PutGateway(event: GatewayEvent)

  /** Whether `transition_task` succeeds: the task is known and the move is in the table. */
  predicate Legal(s: Store, taskId: Id, target: TaskState) {
    taskId in s.tasks && CanTransition(s.tasks[taskId].state, target)
  }

  /** The effect of one repository call. A refused transition raises and changes nothing. */
  function Exec(s: Store, c: RepoCall): Store {
    match c
    case PutTask(task) => s.(tasks := s.tasks[task.taskId := task])
    case Transition(t, target, note, at) =>
      if Legal(s, t, target) then
        s.(tasks := s.tasks[t := s.tasks[t].(state := target, updatedAt := at)],
           events := s.events + [TaskEvent(t, s.tasks[t].tenantId, target, note)])
      else s
    case PutCall(call) =>
      s.(calls := s.calls[call.callId := call],
         callOrder := if call.callId in s.calls then s.callOrder else s.callOrder + [call.callId])
    case PutApproval(record) =>
      s.(approvals := s.approvals[record.recordId := record],
         approvalOrder := if record.recordId in s.approvals then s.approvalOrder
                          else s.approvalOrder + [record.recordId])
    case PutGateway(event) => s.(gateway := s.gateway + [event])
  }

  // ---- Queries -------------------------------------------------------------------------------

  /** The states a task's events record, oldest first. */
  function Log(events: seq<TaskEvent>, t: Id): seq<TaskState> {
    if events == [] then []
    else
      var e := events[|events| - 1];
      Log(events[..|events| - 1], t) + (if e.taskId == t then [e.state] else [])
  }

  lemma LogAppend(events: seq<TaskEvent>, e: TaskEvent, t: Id)
    ensures Log(events + [e], t) == Log(events, t) + (if e.taskId == t then [e.state] else [])
  {
    assert (events + [e])[..|events|] == events;
  }

  /** Calls of one task and tenant in insertion order, as `list_tool_calls` returns them. */
  function ListCalls(calls: map<Id, ToolCall>, order: seq<Id>, t: Id, tenantId: string): seq<ToolCall> {
    if order == [] then []
    else
      var c := order[|order| - 1];
      ListCalls(calls, order[..|order| - 1], t, tenantId)
      + (if c in calls && calls[c].taskId == t && calls[c].tenantId == tenantId then [calls[c]] else [])
  }

  /** The rows are the calls of the task and tenant, each once, in the order in which they were inserted. */
  ghost predicate InInsertionOrder(rows: seq<ToolCall>, calls: map<Id, ToolCall>, order: seq<Id>, t: Id,
                                   tenantId: string)
  {
    exists at: seq<nat> :: RowsAt(rows, at, calls, order, |order|, t, tenantId)
  }

  predicate Ours(calls: map<Id, ToolCall>, c: Id, t: Id, tenantId: string) {
    c in calls && calls[c].taskId == t && calls[c].tenantId == tenantId
  }

  /** The rows are those of the first n places. */
  ghost predicate RowsAt(rows: seq<ToolCall>, at: seq<nat>, calls: map<Id, ToolCall>, order: seq<Id>, n: nat, t: Id,
                         tenantId: string)
    requires n <= |order|
  {
    && |at| == |rows|
    && (forall k :: 0 <= k < |at| ==> at[k] < n && Ours(calls, order[at[k]], t, tenantId))
    && (forall k :: 0 <= k < |at| ==> rows[k] == calls[order[at[k]]])
    && (forall j, k :: 0 <= j < k < |at| ==> at[j] < at[k])
    && (forall i: nat :: i < n && Ours(calls, order[i], t, tenantId) ==> i in at)
  }

  lemma {:induction false} RowsOf(calls: map<Id, ToolCall>, order: seq<Id>, n: nat, t: Id, tenantId: string)
    returns (at: seq<nat>)
    requires n <= |order|
    ensures RowsAt(ListCalls(calls, order[..n], t, tenantId), at, calls, order, n, t, tenantId)
  {
    at := [];
    if n > 0 {
      at := RowsOf(calls, order, n - 1, t, tenantId);
      assert order[..n][..n - 1] == order[..n - 1];
      if Ours(calls, order[n - 1], t, tenantId) {
        var was := at;
        at := at + [n - 1];
        assert at[|was|] == n - 1;
        assert forall i :: i in was ==> i in at;
      }
    }
  }

  lemma ListsInOrder(calls: map<Id, ToolCall>, order: seq<Id>, t: Id, tenantId: string)
    ensures InInsertionOrder(ListCalls(calls, order, t, tenantId), calls, order, t, tenantId)
  {
    var _ := RowsOf(calls, order, |order|, t, tenantId);
    assert order[..|order|] == order;
    hide RowsAt;
  }

  /** Records of one task and tenant in insertion order, as `list_approvals` returns them. */
  function ListApprovals(records: map<Id, ApprovalRecord>, order: seq<Id>, t: Id, tenantId: string)
    : seq<ApprovalRecord>
  {
    if order == [] then []
    else
      var r := order[|order| - 1];
      ListApprovals(records, order[..|order| - 1], t, tenantId)
      + (if r in records && records[r].taskId == t && records[r].tenantId == tenantId then [records[r]] else [])
  }

  /** The places of a task and tenant's events in the log, as `list_events` returns them. */
  function EventsOf(events: seq<TaskEvent>, t: Id, tenantId: string): seq<nat> {
    if events == [] then []
    else
      var n := |events| - 1;
      EventsOf(events[..n], t, tenantId)
      + (if events[n].taskId == t && events[n].tenantId == tenantId then [n] else [])
  }

  function HaltCount(events: seq<GatewayEvent>, t: Id): nat {
    if events == [] then 0
    else
      var e := events[|events| - 1];
      HaltCount(events[..|events| - 1], t) + (if e.taskId == t && e.modelRoute == "budget_halt" then 1 else 0)
  }

  lemma HaltCountAppend(events: seq<GatewayEvent>, e: GatewayEvent, t: Id)
    ensures HaltCount(events + [e], t)
         == HaltCount(events, t) + (if e.taskId == t && e.modelRoute == "budget_halt" then 1 else 0)
  {
    assert (events + [e])[..|events|] == events;
  }
}
