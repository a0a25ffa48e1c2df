/** The approval-gated task protocol as a transition system: ingress, at most one `process()` per
    task, and any number of approvers interleave at every repository call. */
module Protocol {
  import opened Lifecycle
  import opened CanonicalJson
  import opened Decimal
  import opened Records

  datatype Proposal = Proposal(toolName: string, category: Category, parameters: Json)
  datatype MeshResult = MeshResult(
    summary: string, evidence: seq<string>, proposedReads: seq<Proposal>, proposedWrites: seq<Proposal>)

  /** What a tool execution returns and records on the call it was given. */
  datatype Outcome = Outcome(result: Json, integrationStyle: Option<string>, schemaValidation: Option<string>)

  /** What the environment supplies to a worker's next repository call; a budget halt is recorded
      under the tenant of the deployment's settings. */
  datatype Input = Nothing | Mesh(result: MeshResult) | Halt(tenantId: string) | Ran(outcome: Outcome)

  /** The next repository call of a `process()` in flight, with the locals it still needs. */
  datatype WorkerPc =
    | Claim(task: TaskRecord)
    | RunMesh(task: TaskRecord)
    | HaltTask(task: TaskRecord)
    | Recheck(task: TaskRecord, result: MeshResult)
    | ReadCall(task: TaskRecord, result: MeshResult, i: nat, evidence: seq<string>)
    | Complete(task: TaskRecord, result: MeshResult, evidence: seq<string>)
    | Summarize(done: TaskRecord, summary: string)
    | OpenCall(task: TaskRecord, result: MeshResult, j: nat, tokens: map<Id, Token>)
    | OpenApproval(task: TaskRecord, result: MeshResult, j: nat, tokens: map<Id, Token>, call: ToolCall)
    | LinkCall(task: TaskRecord, result: MeshResult, j: nat, tokens: map<Id, Token>, call: ToolCall, recordId: Id)
    | ReadBack(tokens: map<Id, Token>)
    | Stash(current: TaskRecord, tokens: map<Id, Token>)
    | Park
    | Resume
    | ResumeRecheck(task: TaskRecord)
    | ListPending(task: TaskRecord)
    | FetchRecord(calls: seq<ToolCall>, k: nat)
    | Settle(calls: seq<ToolCall>, k: nat, record: ApprovalRecord)
    | Finish

  /** The next repository call of a `submit_approval_decision` in flight. */
  datatype ApproverPc =
    | WriteDecision(record: ApprovalRecord, decision: Decision, approverId: string, channel: string)
    | FindTask(taskId: Id, decision: Decision, channel: string)
    | MoveTask(taskId: Id, decision: Decision, channel: string)

  /** A tool execution: the call handed to the tool, ungated or after `gate` was read from the ledger, and what
      came of it. */
  datatype Execution = Execution(call: ToolCall, gate: Option<ApprovalRecord>, outcome: Outcome)

  datatype World = World(
    store: Store,
    ingress: set<Id>,
    workers: map<Id, WorkerPc>,
    approvers: map<Id, ApproverPc>,
    clock: nat,
    // History, for specification only: the parameters each gated call was proposed with, the
    // parameters each record was opened for, and every tool execution so far.
    proposed: map<Id, Json>,
    openedFor: map<Id, Json>,
    execs: seq<Execution>)

  const INITIAL := World(EMPTY, {}, map[], map[], 0, map[], map[], [])

  datatype Label =
    | Submit(request: TaskRecord)
    | Enqueue(taskId: Id)
    | Deliver(taskId: Id)
    | Work(taskId: Id, input: Input)
    | Crash(taskId: Id)
    | Decide(approver: Id, recordId: Id, decision: Decision, approverId: string, channel: string)
    | Advance(approver: Id)
    | Rewrite(call: ToolCall)

  // ---- The worker ----------------------------------------------------------------------------

  /** One turn of a worker: its repository call, what it does next, and a tool it ran. */
  datatype Turn = Turn(call: Option<RepoCall>, next: Option<WorkerPc>, ran: Option<Execution>)

  function Quiet(next: Option<WorkerPc>): Turn {
    Turn(None, next, None)
  }

  function Calls(call: RepoCall, next: Option<WorkerPc>): Turn {
    Turn(Some(call), next, None)
  }

  const NO_OUTCOME := Outcome(Null, None, None)
  const NO_RESULT := MeshResult("", [], [], [])

  /** A proposed read as it is handed to the tool. */
  function ReadCallRecord(task: TaskRecord, p: Proposal, now: nat): ToolCall {
    ToolCall(now, task.taskId, task.tenantId, p.toolName, Read, false, Executed, p.parameters, None,
             task.requesterId, None, None, None, None, true, now)
  }

  function WriteCallRecord(task: TaskRecord, p: Proposal, now: nat): ToolCall {
    ToolCall(now, task.taskId, task.tenantId, p.toolName, p.category, true, AwaitingDecision, p.parameters,
             None, task.requesterId, None, None, None, None, false, now)
  }

  function PendingRecord(hash: string -> string, call: ToolCall, now: nat): ApprovalRecord {
    ApprovalRecord(now, now, call.taskId, call.tenantId, Some(call.callId), Pending, None, None,
                   PayloadHash(hash, call.parameters), None, now)
  }

  function FieldCount(fs: Fields): nat {
    if fs.NoFields? then 0 else 1 + FieldCount(fs.rest)
  }

  function ReadSummary(call: ToolCall, result: Json): string {
    "read " + call.toolName + ": "
    + NatText(if result.Obj? then FieldCount(result.fields) else 0) + " field(s)"
  }

  function Join(parts: seq<string>): string {
    if parts == [] then "" else if |parts| == 1 then parts[0] else parts[0] + "; " + Join(parts[1..])
  }

  /** Parts are joined in order, with a semicolon and a space between any two. */
  lemma {:induction false} Joins(a: seq<string>, b: seq<string>)
    ensures forall part :: Join([part]) == part
    ensures a == [] ==> Join(a + b) == Join(b) && Join(a) == ""
    ensures a != [] && b != [] ==> Join(a + b) == Join(a) + "; " + Join(b)
  {
    if a == [] {
      assert a + b == b;
    } else if b != [] {
      assert (a + b)[1..] == a[1..] + b;
      if |a| > 1 {
        Joins(a[1..], b);
      } else {
        assert a + b == [a[0]] + b && (a + b)[1..] == b;
      }
    }
  }

  /** A dictionary has as many fields as keys. */
  lemma {:induction false} FieldCountIs(fs: Fields)
    requires WellFormedFields(fs)
    ensures FieldCount(fs) == |Keys(fs)|
  {
    if fs.Field? {
      FieldCountIs(fs.rest);
    }
  }

  function CompletionSummary(result: MeshResult, evidence: seq<string>): string {
    if evidence == [] then result.summary else result.summary + " | evidence: " + Join(evidence)
  }

  function Stashed(m: Metadata, tokens: map<Id, Token>): Metadata {
    m.(tokens := Some((if m.tokens.Some? then m.tokens.value else map[]) + tokens))
  }

  function AfterReads(task: TaskRecord, result: MeshResult, i: nat, evidence: seq<string>): WorkerPc {
    if i < |result.proposedReads| then ReadCall(task, result, i, evidence)
    else if result.proposedWrites == [] then Complete(task, result, evidence)
    else OpenCall(task, result, 0, map[])
  }

  function AfterCall(calls: seq<ToolCall>, k: nat): WorkerPc {
    if k < |calls| then FetchRecord(calls, k) else Finish
  }

  predicate IsApproved(hash: string -> string, record: ApprovalRecord, parameters: Json) {
    record.decision == Approve && record.payloadHash == PayloadHash(hash, parameters)
  }

  function ExecutedCall(call: ToolCall, out: Outcome): ToolCall {
    call.(status := Executed, result := Some(out.result),
          integrationStyle := out.integrationStyle, schemaValidation := out.schemaValidation)
  }

  /** Where `process()` goes after its first read of the task. */
  function Entry(task: TaskRecord): Option<WorkerPc> {
    if IsTerminal(task.state) then None
    else if task.state == Approved then Some(Resume)
    else Some(Claim(task))
  }

  function WorkerTurn(hash: string -> string, s: Store, t: Id, pc: WorkerPc, now: nat, input: Input): Turn
    requires t in s.tasks
  {
    match pc
    case Claim(task) =>
      Calls(Transition(t, Running, "worker picked up task", now),
            if Legal(s, t, Running) then Some(RunMesh(task)) else None)
    case RunMesh(task) =>
      (match input
       case Mesh(result) => Quiet(Some(Recheck(task, result)))
       case Halt(tenantId) => Calls(PutGateway(GatewayEvent(t, tenantId, "budget_halt", "block")), Some(HaltTask(task)))
       case _ => Quiet(Some(pc)))
    case HaltTask(task) =>
      Calls(Transition(t, Failed, "budget halt", now), Some(Recheck(task, NO_RESULT)))
    case Recheck(task, result) =>
      Quiet(if IsTerminal(s.tasks[t].state) then None else Some(AfterReads(task, result, 0, [])))
    case ReadCall(task, result, i, evidence) =>
      if input.Ran? && i < |result.proposedReads| then
        var call := ReadCallRecord(task, result.proposedReads[i], now);
        var line := ReadSummary(call, input.outcome.result);
        Turn(Some(PutCall(ExecutedCall(call, input.outcome))),
             Some(AfterReads(task, result, i + 1, evidence + [line])),
             Some(Execution(call, None, input.outcome)))
      else Quiet(Some(pc))
    case Complete(task, result, evidence) =>
      Calls(Transition(t, Completed, "no write actions required", now),
            if Legal(s, t, Completed)
            then Some(Summarize(s.tasks[t].(state := Completed, updatedAt := now), CompletionSummary(result, evidence)))
            else None)
    case Summarize(done, summary) =>
      Calls(PutTask(done.(resultSummary := Some(summary))), None)
    case OpenCall(task, result, j, tokens) =>
      if j < |result.proposedWrites| then
        var call := WriteCallRecord(task, result.proposedWrites[j], now);
        Calls(PutCall(call), Some(OpenApproval(task, result, j, tokens, call)))
      else Quiet(Some(pc))
    case OpenApproval(task, result, j, tokens, call) =>
      var record := PendingRecord(hash, call, now);
      Calls(PutApproval(record),
            Some(LinkCall(task, result, j,
                          tokens[now := Token(now, record.payloadHash, call.requesterId)], call, now)))
    case LinkCall(task, result, j, tokens, call, recordId) =>
      Calls(PutCall(call.(approvalRecordId := Some(recordId))),
            Some(if j + 1 < |result.proposedWrites| then OpenCall(task, result, j + 1, tokens) else ReadBack(tokens)))
    case ReadBack(tokens) => Quiet(Some(Stash(s.tasks[t], tokens)))
    case Stash(current, tokens) =>
      Calls(PutTask(current.(metadata := Stashed(current.metadata, tokens))), Some(Park))
    case Park => Calls(Transition(t, AwaitingApproval, "paused for write approval", now), None)
    case Resume => Quiet(Some(ResumeRecheck(s.tasks[t])))
    case ResumeRecheck(task) =>
      Quiet(if IsTerminal(s.tasks[t].state) then None else Some(ListPending(task)))
    case ListPending(task) => Quiet(Some(AfterCall(ListCalls(s.calls, s.callOrder, t, task.tenantId), 0)))
    case FetchRecord(calls, k) =>
      if k < |calls| && calls[k].approvalRecordId.Some? && calls[k].approvalRecordId.value in s.approvals
      then Quiet(Some(Settle(calls, k, s.approvals[calls[k].approvalRecordId.value])))
      else Quiet(Some(AfterCall(calls, k + 1)))
    case Settle(calls, k, record) =>
      if k >= |calls| then Quiet(Some(Finish))
      else if IsApproved(hash, record, calls[k].parameters) then
        if input.Ran? then
          Turn(Some(PutCall(ExecutedCall(calls[k], input.outcome))), Some(AfterCall(calls, k + 1)),
               Some(Execution(calls[k], Some(record), input.outcome)))
        else Quiet(Some(pc))
      else if record.decision == Reject then
        Calls(PutCall(calls[k].(status := CallRejected)), Some(AfterCall(calls, k + 1)))
      else Quiet(Some(AfterCall(calls, k + 1)))
    case Finish => Calls(Transition(t, Completed, "completed after approval", now), None)
  }

  // ---- The approver --------------------------------------------------------------------------

  function ApproverTurn(s: Store, pc: ApproverPc, now: nat): (Option<RepoCall>, Option<ApproverPc>) {
    match pc
    case WriteDecision(record, decision, approverId, channel) =>
      (Some(PutApproval(record.(decision := decision, approverId := Some(approverId),
                                channel := Some(channel), decidedAt := Some(now)))),
       Some(FindTask(record.taskId, decision, channel)))
    case FindTask(t, decision, channel) =>
      (None, if t in s.tasks && decision in {Approve, Reject} then Some(MoveTask(t, decision, channel)) else None)
    case MoveTask(t, decision, channel) =>
      (Some(if decision == Approve then Transition(t, Approved, "approved via " + channel, now)
            else Transition(t, Rejected, "rejected via " + channel, now)), None)
  }

  // ---- The whole system ----------------------------------------------------------------------

  function Set<V>(m: map<Id, V>, k: Id, v: Option<V>): map<Id, V> {
    if v.Some? then m[k := v.value] else m - {k}
  }

  function ExecSome(s: Store, c: Option<RepoCall>): Store {
    if c.Some? then Exec(s, c.value) else s
  }

  /** A rewriting actor may change a stored call only in the columns an update may set. */
  predicate MayRewrite(s: Store, call: ToolCall) {
    call.callId in s.calls
    && var was := s.calls[call.callId];
       call == was.(status := call.status, parameters := call.parameters, result := call.result,
                    modelRoute := call.modelRoute, approvalRecordId := call.approvalRecordId,
                    integrationStyle := call.integrationStyle,
                    schemaValidation := call.schemaValidation, isRead := call.isRead)
  }

  function RequestedTask(request: TaskRecord, now: nat): TaskRecord {
    request.(taskId := now, state := Received, resultSummary := None, error := None,
             createdAt := now, updatedAt := now)
  }

  /** The repository call a label makes in this world, if it makes one. */
  function Effect(hash: string -> string, w: World, l: Label): Option<RepoCall> {
    match l
    case Submit(request) => Some(PutTask(RequestedTask(request, w.clock)))
    case Enqueue(t) =>
      if t in w.ingress then Some(Transition(t, Queued, "enqueued by ingress", w.clock)) else None
    case Work(t, input) =>
      if t in w.workers && t in w.store.tasks
      then WorkerTurn(hash, w.store, t, w.workers[t], w.clock, input).call else None
    case Advance(a) =>
      if a in w.approvers then ApproverTurn(w.store, w.approvers[a], w.clock).0 else None
    case Rewrite(call) => if MayRewrite(w.store, call) then Some(PutCall(call)) else None
    case _ => None
  }

  function NextWorkers(hash: string -> string, w: World, l: Label): map<Id, WorkerPc> {
    match l
    case Deliver(t) =>
      if t in w.store.tasks && t !in w.workers then Set(w.workers, t, Entry(w.store.tasks[t])) else w.workers
    case Work(t, input) =>
      if t in w.workers && t in w.store.tasks
      then Set(w.workers, t, WorkerTurn(hash, w.store, t, w.workers[t], w.clock, input).next) else w.workers
    case Crash(t) => w.workers - {t}
    case _ => w.workers
  }

  function NextApprovers(w: World, l: Label): map<Id, ApproverPc> {
    match l
    case Decide(a, r, decision, approverId, channel) =>
      if a !in w.approvers && r in w.store.approvals
      then w.approvers[a := WriteDecision(w.store.approvals[r], decision, approverId, channel)] else w.approvers
    case Advance(a) =>
      if a in w.approvers then Set(w.approvers, a, ApproverTurn(w.store, w.approvers[a], w.clock).1)
      else w.approvers
    case _ => w.approvers
  }

  /** The execution a label performs, if any. */
  function Executes(hash: string -> string, w: World, l: Label): Option<Execution> {
    if l.Work? && l.taskId in w.workers && l.taskId in w.store.tasks
    then WorkerTurn(hash, w.store, l.taskId, w.workers[l.taskId], w.clock, l.input).ran else None
  }

  /** One step. A label that is not enabled leaves everything but the clock as it was. */
  function Next(hash: string -> string, w: World, l: Label): World {
    var pc := if l.Work? && l.taskId in w.workers && l.taskId in w.store.tasks
              then Some(w.workers[l.taskId]) else None;
    var ran := Executes(hash, w, l);
    World(ExecSome(w.store, Effect(hash, w, l)),
          if l.Submit? then w.ingress + {w.clock} else if l.Enqueue? then w.ingress - {l.taskId} else w.ingress,
          NextWorkers(hash, w, l),
          NextApprovers(w, l),
          w.clock + 1,
          if pc.Some? && pc.value.OpenCall? && pc.value.j < |pc.value.result.proposedWrites|
          then w.proposed[w.clock := pc.value.result.proposedWrites[pc.value.j].parameters] else w.proposed,
          if pc.Some? && pc.value.OpenApproval?
          then w.openedFor[w.clock := pc.value.call.parameters] else w.openedFor,
          if ran.Some? then w.execs + [ran.value] else w.execs)
  }

  predicate CrashFree(labels: seq<Label>) {
    forall i :: 0 <= i < |labels| ==> !labels[i].Crash?
  }

  function Run(hash: string -> string, w: World, labels: seq<Label>): World {
    if labels == [] then w
    else Next(hash, Run(hash, w, labels[..|labels| - 1]), labels[|labels| - 1])
  }
}
