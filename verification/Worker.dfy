/** `Worker.process`: the read loop, the write-gating loop and the resume loop, one protocol step per
    repository call. */
module Runner {
  import opened Lifecycle
  import opened CanonicalJson
  import opened Decimal
  import opened Records
  import opened Protocol
  import opened Repository
  import LR = LogReplay
  import SqlRuns

  /** What running the mesh on a task comes to. */
  datatype Plan = Planned(result: MeshResult) | Halted(tenantId: string)

  /** What `process` returns, or the error it raises. */
  datatype Processed = State(state: TaskState) | UnknownTask | IllegalTransition

  // ---- One worker step, seen from the world --------------------------------------------------

  ghost predicate At(w: World, t: Id, pc: WorkerPc) {
    t in w.workers && w.workers[t] == pc && t in w.store.tasks
  }

  /** From `w` to `w'` only the worker of task `t` has taken steps. */
  ghost predicate OnlyWorks(w: World, trail: seq<Label>, w': World, trail': seq<Label>, t: Id) {
    && w'.ingress == w.ingress && w'.approvers == w.approvers && w'.workers - {t} == w.workers - {t}
    && trail <= trail' && forall i :: |trail| <= i < |trail'| ==> trail'[i].Work?
  }

  lemma WorksOn(w: World, trail: seq<Label>, w1: World, trail1: seq<Label>, w2: World, trail2: seq<Label>, t: Id)
    requires OnlyWorks(w, trail, w1, trail1, t) && OnlyWorks(w1, trail1, w2, trail2, t)
    ensures OnlyWorks(w, trail, w2, trail2, t)
  {
  }

  /** One delivery of task `t`, then steps of its worker only. */
  ghost predicate OnlyProcesses(w: World, trail: seq<Label>, w': World, trail': seq<Label>, t: Id) {
    && w'.ingress == w.ingress && w'.approvers == w.approvers && w'.workers - {t} == w.workers - {t}
    && trail + [Deliver(t)] <= trail' && forall i :: |trail| < i < |trail'| ==> trail'[i].Work?
  }

  lemma Delivered(w: World, trail: seq<Label>, w1: World, trail1: seq<Label>, w2: World, trail2: seq<Label>, t: Id)
    requires OnlyProcesses(w, trail, w1, trail1, t) && OnlyWorks(w1, trail1, w2, trail2, t)
    ensures OnlyProcesses(w, trail, w2, trail2, t)
  {
  }

  lemma DeliverStep(hash: string -> string, w: World, trail: seq<Label>, t: Id)
    requires t !in w.workers
    ensures var w' := Next(hash, w, Deliver(t));
            && Effect(hash, w, Deliver(t)) == None && w'.store == w.store && w'.execs == w.execs
            && w'.workers == (if t in w.store.tasks then Set(w.workers, t, Entry(w.store.tasks[t])) else w.workers)
            && OnlyProcesses(w, trail, w', trail + [Deliver(t)], t)
  {
  }

  lemma WorkStep(hash: string -> string, w: World, t: Id, input: Input)
    requires t in w.workers && t in w.store.tasks
    ensures var turn := WorkerTurn(hash, w.store, t, w.workers[t], w.clock, input);
            var w' := Next(hash, w, Work(t, input));
            && Effect(hash, w, Work(t, input)) == turn.call
            && w'.store == ExecSome(w.store, turn.call)
            && w'.workers == Set(w.workers, t, turn.next) && w'.clock == w.clock + 1
            && w'.ingress == w.ingress && w'.approvers == w.approvers
            && w'.execs == (if turn.ran.Some? then w.execs + [turn.ran.value] else w.execs)
  {
    hide WorkerTurn;
  }

  lemma NoWork(w: World, trail: seq<Label>, t: Id)
    ensures OnlyWorks(w, trail, w, trail, t)
  {
  }

  lemma OneWork(hash: string -> string, w: World, trail: seq<Label>, t: Id, input: Input)
    requires t in w.workers && t in w.store.tasks
    ensures OnlyWorks(w, trail, Next(hash, w, Work(t, input)), trail + [Work(t, input)], t)
  {
    hide WorkerTurn;
    hide Exec;
  }

  /** Every stored id was drawn before now, and every call is listed once. */
  ghost predicate Below(s: Store, now: nat) {
    && (forall c :: c in s.calls ==> c < now && s.calls[c].callId == c && c in s.callOrder)
    && (forall r :: r in s.approvals ==> r < now)
    && (forall i, j :: 0 <= i < j < |s.callOrder| ==> s.callOrder[i] != s.callOrder[j])
  }

  lemma Numbered(hash: string -> string, labels: seq<Label>)
    ensures Below(Run(hash, INITIAL, labels).store, Run(hash, INITIAL, labels).clock)
  {
    SqlRuns.InvAlways(hash, labels);
    hide Run;
  }

  // ---- What the loops leave behind -----------------------------------------------------------

  /** The old rows are kept as they were, and the new rows are one for each of `ids`. */
  ghost predicate Grown<V>(before: map<Id, V>, after: map<Id, V>, ids: seq<Id>) {
    && (forall k :: k in after <==> k in before || k in ids)
    && (forall k :: k in before ==> k !in ids && after[k] == before[k])
    && (forall i, j :: 0 <= i < j < |ids| ==> ids[i] != ids[j])
  }

  /** An executed, ungated, unlinked read with some result. */
  ghost predicate ReadRow(calls: map<Id, ToolCall>, task: TaskRecord, p: Proposal, c: Id) {
    && c in calls
    && var call := calls[c];
       && call == ToolCall(c, task.taskId, task.tenantId, p.toolName, Read, false, Executed, p.parameters, call.result,
                           task.requesterId, None, None, call.integrationStyle, call.schemaValidation, true, c)
       && call.result.Some?
  }

  /** The call holds what came of an execution. */
  predicate RecordedFrom(call: ToolCall, out: Outcome) {
    && call.result == Some(out.result) && call.integrationStyle == out.integrationStyle
    && call.schemaValidation == out.schemaValidation
  }

  /** A read with what `execute` returns for this very read. */
  ghost predicate ReadBy(execute: ToolCall -> Outcome, calls: map<Id, ToolCall>, task: TaskRecord, p: Proposal, c: Id) {
    && ReadRow(calls, task, p, c)
    && RecordedFrom(calls[c], execute(ToolCall(c, task.taskId, task.tenantId, p.toolName, Read, false, Executed,
                                               p.parameters, None, task.requesterId, None, None, None, None, true, c)))
  }

  /** A gated write and its record, pointing at each other, whatever was decided on it. */
  ghost predicate GatedRow(hash: string -> string, s: Store, task: TaskRecord, p: Proposal, c: Id, r: Id) {
    && c in s.calls && r in s.approvals
    && var call, record := s.calls[c], s.approvals[r];
       && call == ToolCall(c, task.taskId, task.tenantId, p.toolName, p.category, true, AwaitingDecision, p.parameters,
                           None, task.requesterId, None, Some(r), None, None, false, c)
       && record == ApprovalRecord(r, r, task.taskId, task.tenantId, Some(c), record.decision, record.approverId,
                                   record.channel, PayloadHash(hash, p.parameters), record.decidedAt, r)
  }

  /** The same while nobody has decided. */
  ghost predicate WriteRow(hash: string -> string, s: Store, task: TaskRecord, p: Proposal, c: Id, r: Id) {
    && GatedRow(hash, s, task, p, c, r)
    && var record := s.approvals[r];
       record.decision == Pending && record.approverId.None? && record.channel.None? && record.decidedAt.None?
  }

  ghost predicate ReadsDone(execute: ToolCall -> Outcome, s: Store, s': Store, task: TaskRecord, asked: seq<Proposal>,
                            ids: seq<Id>) {
    && |ids| == |asked| && Grown(s.calls, s'.calls, ids)
    && (forall i :: 0 <= i < |asked| ==> ReadBy(execute, s'.calls, task, asked[i], ids[i]))
    && s'.tasks == s.tasks && s'.events == s.events && s'.approvals == s.approvals && s'.gateway == s.gateway
  }

  ghost predicate TokenFor(hash: string -> string, tokens: map<Id, Token>, task: TaskRecord, p: Proposal, r: Id) {
    r in tokens && tokens[r] == Token(r, PayloadHash(hash, p.parameters), task.requesterId)
  }

  ghost predicate WritesGated(hash: string -> string, s: Store, s': Store, task: TaskRecord,
                              writes: seq<Proposal>, callIds: seq<Id>, recordIds: seq<Id>, tokens: map<Id, Token>) {
    && |callIds| == |writes| && |recordIds| == |writes|
    && Grown(s.calls, s'.calls, callIds) && Grown(s.approvals, s'.approvals, recordIds)
    && (forall i :: 0 <= i < |writes| ==> WriteRow(hash, s', task, writes[i], callIds[i], recordIds[i]))
    && (forall i :: 0 <= i < |writes| ==> TokenFor(hash, tokens, task, writes[i], recordIds[i]))
    && (forall r :: r in tokens ==> r in recordIds)
    && s'.tasks == s.tasks && s'.events == s.events && s'.gateway == s.gateway
  }

  /** How many entries a result has. */
  function Entries(result: Json): nat {
    if result.Obj? then FieldCount(result.fields) else 0
  }

  /** The line of evidence kept for each read. */
  ghost predicate Evidenced(calls: map<Id, ToolCall>, ids: seq<Id>, evidence: seq<string>) {
    && |evidence| == |ids|
    && forall i :: 0 <= i < |ids| ==>
         && ids[i] in calls && calls[ids[i]].result.Some?
         && evidence[i] == "read " + calls[ids[i]].toolName + ": " + NatText(Entries(calls[ids[i]].result.value))
                           + " field(s)"
  }

  /** The task's row and log after it moved through `states`; every other row is as before. */
  ghost predicate Moved(s: Store, s': Store, t: Id, states: seq<TaskState>, notes: seq<string>) {
    && t in s.tasks && t in s'.tasks && |states| == |notes| > 0
    && s'.tasks == s.tasks[t := s'.tasks[t]]
    && s'.tasks[t].state == states[|states| - 1]
    && |s'.events| == |s.events| + |states| && s.events <= s'.events
    && (forall i :: 0 <= i < |states| ==>
          s'.events[|s.events| + i] == TaskEvent(t, s.tasks[t].tenantId, states[i], notes[i]))
  }

  /** A halted run: one halt event, no calls, no approvals. */
  ghost predicate HaltedRun(s: Store, s': Store, task: TaskRecord, tenantId: string) {
    var t := task.taskId;
    && Moved(s, s', t, [Running, Failed], ["worker picked up task", "budget halt"])
    && s'.tasks[t] == task.(state := Failed, updatedAt := s'.tasks[t].updatedAt)
    && s'.gateway == s.gateway + [GatewayEvent(t, tenantId, "budget_halt", "block")]
    && s'.calls == s.calls && s'.approvals == s.approvals
  }

  /** The summary of a run without writes: the mesh's own, and the evidence when there is any. */
  predicate Summarizes(summary: Option<string>, result: MeshResult, evidence: seq<string>) {
    summary == Some(if evidence == [] then result.summary else result.summary + " | evidence: " + Join(evidence))
  }

  /** A run without writes: every read recorded, the summary with the evidence stored on the task. */
  ghost predicate ReadOnlyRun(execute: ToolCall -> Outcome, s: Store, s': Store, task: TaskRecord, result: MeshResult,
                              readIds: seq<Id>) {
    var t := task.taskId;
    && |readIds| == |result.proposedReads| && Grown(s.calls, s'.calls, readIds)
    && (forall i :: 0 <= i < |readIds| ==> ReadBy(execute, s'.calls, task, result.proposedReads[i], readIds[i]))
    && s'.approvals == s.approvals && s'.gateway == s.gateway
    && Moved(s, s', t, [Running, Completed], ["worker picked up task", "no write actions required"])
    && (exists evidence :: Evidenced(s'.calls, readIds, evidence)
          && s'.tasks[t] == task.(state := Completed, updatedAt := s'.tasks[t].updatedAt,
                                  resultSummary := s'.tasks[t].resultSummary)
          && Summarizes(s'.tasks[t].resultSummary, result, evidence))
  }

  /** The tokens stashed on a parked task: one for each new record, beside the earlier ones. */
  ghost predicate TokensKept(hash: string -> string, before: map<Id, Token>, after: map<Id, Token>,
                             task: TaskRecord, writes: seq<Proposal>, recordIds: seq<Id>) {
    && |recordIds| == |writes|
    && (forall i :: 0 <= i < |writes| ==> TokenFor(hash, after, task, writes[i], recordIds[i]))
    && (forall r :: r in after <==> r in before || r in recordIds)
    && (forall r :: r in before && r !in recordIds ==> after[r] == before[r])
  }

  /** A parked run: reads executed and unlinked, and one call, one pending record and one token for
      each proposed write, none shared and none left over. */
  ghost predicate ParkedRun(hash: string -> string, execute: ToolCall -> Outcome, s: Store, s': Store,
                            task: TaskRecord, result: MeshResult,
                            readIds: seq<Id>, callIds: seq<Id>, recordIds: seq<Id>) {
    var t, writes := task.taskId, result.proposedWrites;
    && |readIds| == |result.proposedReads| && |callIds| == |writes| && |recordIds| == |writes|
    && Grown(s.calls, s'.calls, readIds + callIds) && Grown(s.approvals, s'.approvals, recordIds)
    && (forall i :: 0 <= i < |readIds| ==> ReadBy(execute, s'.calls, task, result.proposedReads[i], readIds[i]))
    && (forall i :: 0 <= i < |writes| ==> WriteRow(hash, s', task, writes[i], callIds[i], recordIds[i]))
    && s'.gateway == s.gateway
    && Moved(s, s', t, [Running, AwaitingApproval], ["worker picked up task", "paused for write approval"])
    && s'.tasks[t].metadata.tokens.Some?
    && s'.tasks[t] == task.(state := AwaitingApproval, updatedAt := s'.tasks[t].updatedAt,
                            metadata := task.metadata.(tokens := s'.tasks[t].metadata.tokens))
    && TokensKept(hash, if task.metadata.tokens.Some? then task.metadata.tokens.value else map[],
                  s'.tasks[t].metadata.tokens.value, task, writes, recordIds)
  }

  // ---- Single steps of the two loops, on stores ----------------------------------------------

  lemma ReadStep(execute: ToolCall -> Outcome, s: Store, s1: Store, task: TaskRecord, asked: seq<Proposal>,
                 ids: seq<Id>, i: nat, call: ToolCall)
    requires i < |asked| && ReadsDone(execute, s, s1, task, asked[..i], ids)
    requires Below(s1, call.callId)
    requires ReadBy(execute, map[call.callId := call], task, asked[i], call.callId)
    ensures ReadsDone(execute, s, Exec(s1, PutCall(call)), task, asked[..i + 1], ids + [call.callId])
  {
    var s2 := Exec(s1, PutCall(call));
    GrownStep(s.calls, s1.calls, ids, call.callId, call);
    ReadRowHeld(execute, map[call.callId := call], s2.calls, task, asked[i], call.callId);
    forall j | 0 <= j < i ensures ReadBy(execute, s2.calls, task, asked[..i + 1][j], (ids + [call.callId])[j]) {
      assert asked[..i + 1][j] == asked[..i][j] && ids[j] in ids;
      ReadRowHeld(execute, s1.calls, s2.calls, task, asked[j], ids[j]);
    }
    hide ReadBy;
    hide Grown;
  }

  lemma ReadRowHeld(execute: ToolCall -> Outcome, calls: map<Id, ToolCall>, calls': map<Id, ToolCall>,
                    task: TaskRecord, p: Proposal, c: Id)
    requires ReadBy(execute, calls, task, p, c) && c in calls' && calls'[c] == calls[c]
    ensures ReadBy(execute, calls', task, p, c)
  {
  }

  lemma EvidenceStep(s: Store, call: ToolCall, ids: seq<Id>, evidence: seq<string>)
    requires Below(s, call.callId) && call.result.Some? && Evidenced(s.calls, ids, evidence)
    ensures Evidenced(Exec(s, PutCall(call)).calls, ids + [call.callId],
                      evidence + [ReadSummary(call, call.result.value)])
  {
    assert forall i :: 0 <= i < |ids| ==> ids[i] in s.calls;
    hide NatText;
  }

  lemma NoReads(execute: ToolCall -> Outcome, s: Store, task: TaskRecord, asked: seq<Proposal>)
    requires asked == []
    ensures ReadsDone(execute, s, s, task, asked, []) && Evidenced(s.calls, [], [])
  {
  }

  lemma GrownStep<V>(before: map<Id, V>, after: map<Id, V>, ids: seq<Id>, k: Id, v: V)
    requires Grown(before, after, ids) && k !in after
    ensures Grown(before, after[k := v], ids + [k])
  {
    forall j | 0 <= j < |ids| ensures ids[j] in after {
      assert ids[j] in ids;
    }
  }

  /** The store after one round of the gating loop: the linked call and its pending record. */
  function Linked(s: Store, call: ToolCall, record: ApprovalRecord): Store {
    Exec(Exec(Exec(s, PutCall(call)), PutApproval(record)),
         PutCall(call.(approvalRecordId := Some(record.recordId))))
  }

  lemma LinkedIs(s: Store, call: ToolCall, record: ApprovalRecord)
    ensures var s' := Linked(s, call, record);
            && s'.calls == s.calls[call.callId := call.(approvalRecordId := Some(record.recordId))]
            && s'.approvals == s.approvals[record.recordId := record]
            && s'.tasks == s.tasks && s'.events == s.events && s'.gateway == s.gateway
  {
  }

  lemma WriteStep(hash: string -> string, s: Store, s1: Store, task: TaskRecord, writes: seq<Proposal>, j: nat,
                  callIds: seq<Id>, recordIds: seq<Id>, tokens: map<Id, Token>, call: ToolCall, record: ApprovalRecord)
    requires j < |writes| && WritesGated(hash, s, s1, task, writes[..j], callIds, recordIds, tokens)
    requires Below(s1, call.callId) && call.callId < record.recordId
    requires call == WriteCallRecord(task, writes[j], call.callId)
    requires record == PendingRecord(hash, call, record.recordId)
    ensures var token := Token(record.recordId, record.payloadHash, call.requesterId);
            WritesGated(hash, s, Linked(s1, call, record), task, writes[..j + 1],
                        callIds + [call.callId], recordIds + [record.recordId], tokens[record.recordId := token])
  {
    hide PayloadHash;
    hide Linked;
    hide Grown;
    LinkedIs(s1, call, record);
    var s2 := Linked(s1, call, record);
    GrownStep(s.calls, s1.calls, callIds, call.callId, s2.calls[call.callId]);
    GrownStep(s.approvals, s1.approvals, recordIds, record.recordId, record);
    var tokens' := tokens[record.recordId := Token(record.recordId, record.payloadHash, call.requesterId)];
    forall i | 0 <= i < j + 1
      ensures WriteRow(hash, s2, task, writes[..j + 1][i], (callIds + [call.callId])[i],
                       (recordIds + [record.recordId])[i])
           && TokenFor(hash, tokens', task, writes[..j + 1][i], (recordIds + [record.recordId])[i])
    {
      if i < j {
        assert WriteRow(hash, s1, task, writes[..j][i], callIds[i], recordIds[i]);
        assert TokenFor(hash, tokens, task, writes[..j][i], recordIds[i]);
      }
    }
  }

  lemma NoWrites(hash: string -> string, s: Store, task: TaskRecord, writes: seq<Proposal>)
    requires writes == []
    ensures WritesGated(hash, s, s, task, writes, [], [], map[])
  {
  }

  /** Reads and then gated writes are together a parked run, once the tokens are stashed. */
  lemma ParkIs(hash: string -> string, execute: ToolCall -> Outcome, s: Store, s0: Store, s1: Store, s2: Store,
               s3: Store, task: TaskRecord, result: MeshResult, readIds: seq<Id>, callIds: seq<Id>,
               recordIds: seq<Id>, tokens: map<Id, Token>)
    requires Claimed(s, s0, task) && ReadsDone(execute, s0, s1, task, result.proposedReads, readIds)
    requires WritesGated(hash, s1, s2, task, result.proposedWrites, callIds, recordIds, tokens)
    requires ParkedFrom(s2, s3, task.taskId, tokens)
    ensures ParkedRun(hash, execute, s, s3, task, result, readIds, callIds, recordIds)
  {
    hide PayloadHash;
    hide WriteRow;
    hide TokenFor;
    GrownTwice(s0.calls, s1.calls, s2.calls, readIds, callIds);
    forall i | 0 <= i < |readIds| ensures ReadBy(execute, s2.calls, task, result.proposedReads[i], readIds[i]) {
      assert ReadBy(execute, s1.calls, task, result.proposedReads[i], readIds[i]);
    }
    forall i | 0 <= i < |recordIds|
      ensures WriteRow(hash, s3, task, result.proposedWrites[i], callIds[i], recordIds[i])
    {
      WriteRowStays(hash, s2, s3, task, result.proposedWrites[i], callIds[i], recordIds[i]);
    }
    StashKeeps(hash, task, result.proposedWrites, recordIds, tokens);
    hide TokensKept;
    hide Grown;
  }

  lemma GrownTwice<V>(a: map<Id, V>, b: map<Id, V>, c: map<Id, V>, ids: seq<Id>, more: seq<Id>)
    requires Grown(a, b, ids) && Grown(b, c, more)
    ensures Grown(a, c, ids + more)
  {
    forall i | 0 <= i < |ids| ensures ids[i] in b && ids[i] !in more {
      assert ids[i] in ids;
    }
  }

  lemma WriteRowStays(hash: string -> string, s: Store, s': Store, task: TaskRecord, p: Proposal, c: Id, r: Id)
    requires WriteRow(hash, s, task, p, c, r) && s'.calls == s.calls && s'.approvals == s.approvals
    ensures WriteRow(hash, s', task, p, c, r)
  {
  }

  lemma StashKeeps(hash: string -> string, task: TaskRecord, writes: seq<Proposal>, recordIds: seq<Id>,
                   tokens: map<Id, Token>)
    requires |recordIds| == |writes|
    requires forall i :: 0 <= i < |writes| ==> TokenFor(hash, tokens, task, writes[i], recordIds[i])
    requires forall r :: r in tokens ==> r in recordIds
    ensures Stashed(task.metadata, tokens).tokens.Some?
    ensures TokensKept(hash, if task.metadata.tokens.Some? then task.metadata.tokens.value else map[],
                       Stashed(task.metadata, tokens).tokens.value, task, writes, recordIds)
  {
    hide PayloadHash;
    forall r | r in recordIds ensures r in tokens {
      var i :| 0 <= i < |recordIds| && recordIds[i] == r;
      assert TokenFor(hash, tokens, task, writes[i], recordIds[i]);
    }
  }

  /** The store after the claim. */
  ghost predicate Claimed(s: Store, s': Store, task: TaskRecord) {
    var t := task.taskId;
    && t in s.tasks && s.tasks[t] == task && t in s'.tasks
    && s'.tasks == s.tasks[t := task.(state := Running, updatedAt := s'.tasks[t].updatedAt)]
    && s'.events == s.events + [TaskEvent(t, task.tenantId, Running, "worker picked up task")]
    && s'.calls == s.calls && s'.approvals == s.approvals && s'.gateway == s.gateway
  }

  ghost predicate ParkedFrom(s: Store, s': Store, t: Id, tokens: map<Id, Token>) {
    && t in s.tasks && t in s'.tasks
    && s'.tasks == s.tasks[t := s.tasks[t].(state := AwaitingApproval, updatedAt := s'.tasks[t].updatedAt,
                                            metadata := Stashed(s.tasks[t].metadata, tokens))]
    && s'.events == s.events + [TaskEvent(t, s.tasks[t].tenantId, AwaitingApproval, "paused for write approval")]
    && s'.calls == s.calls && s'.approvals == s.approvals && s'.gateway == s.gateway
  }

  lemma OwnRow(hash: string -> string, labels: seq<Label>, t: Id)
    requires t in Run(hash, INITIAL, labels).store.tasks
    ensures Run(hash, INITIAL, labels).store.tasks[t].taskId == t
  {
    LR.RunKeeps(hash, INITIAL, labels);
    assert LR.TaskOk(Run(hash, INITIAL, labels).store, t, LR.PcOf(Run(hash, INITIAL, labels), t));
    hide Run;
  }

  /** The store once the mesh was halted. */
  ghost predicate HaltedFrom(s: Store, s': Store, task: TaskRecord, tenantId: string) {
    var t := task.taskId;
    && t in s.tasks && t in s'.tasks
    && s'.tasks == s.tasks[t := s.tasks[t].(state := Failed, updatedAt := s'.tasks[t].updatedAt)]
    && s'.events == s.events + [TaskEvent(t, s.tasks[t].tenantId, Failed, "budget halt")]
    && s'.gateway == s.gateway + [GatewayEvent(t, tenantId, "budget_halt", "block")]
    && s'.calls == s.calls && s'.approvals == s.approvals
  }

  ghost predicate CompletedFrom(s: Store, s': Store, t: Id, note: string, summary: Option<string>) {
    && t in s.tasks && t in s'.tasks
    && s'.tasks == s.tasks[t := s.tasks[t].(state := Completed, updatedAt := s'.tasks[t].updatedAt,
                                            resultSummary := summary)]
    && s'.events == s.events + [TaskEvent(t, s.tasks[t].tenantId, Completed, note)]
    && s'.calls == s.calls && s'.approvals == s.approvals && s'.gateway == s.gateway
  }

  lemma HaltIs(s: Store, s0: Store, s1: Store, task: TaskRecord, tenantId: string)
    requires Claimed(s, s0, task) && HaltedFrom(s0, s1, task, tenantId)
    ensures HaltedRun(s, s1, task, tenantId)
  {
  }

  lemma ReadOnlyIs(execute: ToolCall -> Outcome, s: Store, s0: Store, s1: Store, s2: Store, task: TaskRecord,
                   result: MeshResult,
                   readIds: seq<Id>, evidence: seq<string>)
    requires Claimed(s, s0, task) && ReadsDone(execute, s0, s1, task, result.proposedReads, readIds)
    requires Evidenced(s1.calls, readIds, evidence)
    requires CompletedFrom(s1, s2, task.taskId, "no write actions required", Some(CompletionSummary(result, evidence)))
    ensures ReadOnlyRun(execute, s, s2, task, result, readIds)
  {
    hide Join;
    hide Grown;
    hide ReadBy;
    assert Evidenced(s2.calls, readIds, evidence);
  }

  /** How a fresh run ends, by what the mesh came to. */
  ghost predicate FreshRun(hash: string -> string, execute: ToolCall -> Outcome, s: Store, s': Store,
                           task: TaskRecord, plan: Plan,
                           readIds: seq<Id>, callIds: seq<Id>, recordIds: seq<Id>) {
    match plan
    case Halted(tenantId) => HaltedRun(s, s', task, tenantId)
    case Planned(result) =>
      if result.proposedWrites == [] then ReadOnlyRun(execute, s, s', task, result, readIds)
      else ParkedRun(hash, execute, s, s', task, result, readIds, callIds, recordIds)
  }

  lemma FreshEnds(hash: string -> string, execute: ToolCall -> Outcome, s: Store, s': Store, task: TaskRecord,
                  plan: Plan,
                  readIds: seq<Id>, callIds: seq<Id>, recordIds: seq<Id>)
    requires FreshRun(hash, execute, s, s', task, plan, readIds, callIds, recordIds)
    ensures task.taskId in s'.tasks
    ensures s'.tasks[task.taskId].state
         == if plan.Halted? then Failed else if plan.result.proposedWrites == [] then Completed else AwaitingApproval
  {
    hide ReadRow;
    hide WriteRow;
    hide Evidenced;
    hide TokensKept;
    hide Grown;
  }

  // ---- The resume loop, on stores ------------------------------------------------------------

  /** Whether the resume loop will find the call's record approved and its parameters unmodified. */
  predicate Cleared(hash: string -> string, s: Store, call: ToolCall) {
    && call.approvalRecordId.Some? && call.approvalRecordId.value in s.approvals
    && IsApproved(hash, s.approvals[call.approvalRecordId.value], call.parameters)
  }

  predicate Refused(s: Store, call: ToolCall) {
    && call.approvalRecordId.Some? && call.approvalRecordId.value in s.approvals
    && s.approvals[call.approvalRecordId.value].decision == Reject
  }

  /** A call after the loop: executed if it was cleared, rejected if it was refused, else as it was. */
  predicate SettledAs(hash: string -> string, s: Store, execute: ToolCall -> Outcome, was: ToolCall, now: ToolCall) {
    if Cleared(hash, s, was) then
      now == was.(status := Executed, result := Some(execute(was).result),
                  integrationStyle := execute(was).integrationStyle,
                  schemaValidation := execute(was).schemaValidation)
    else if Refused(s, was) then now == was.(status := CallRejected)
    else now == was
  }

  function Settled(hash: string -> string, s: Store, execute: ToolCall -> Outcome, call: ToolCall): (now: ToolCall)
    ensures SettledAs(hash, s, execute, call, now)
  {
    if Cleared(hash, s, call) then ExecutedCall(call, execute(call))
    else if Refused(s, call) then call.(status := CallRejected)
    else call
  }

  predicate Own(s: Store, t: Id, c: Id) {
    c in s.calls && t in s.tasks && s.calls[c].taskId == t && s.calls[c].tenantId == s.tasks[t].tenantId
  }

  predicate RanCall(runs: seq<Execution>, call: ToolCall) {
    exists j :: 0 <= j < |runs| && runs[j].call == call
  }

  /** The executions are those of the cleared calls among `calls`, each once, behind its own record. */
  ghost predicate RanCleared(hash: string -> string, s: Store, calls: seq<ToolCall>, runs: seq<Execution>) {
    && (forall i :: 0 <= i < |calls| && Cleared(hash, s, calls[i]) ==> RanCall(runs, calls[i]))
    && (forall j :: 0 <= j < |runs| ==>
          && runs[j].call in calls && Cleared(hash, s, runs[j].call)
          && runs[j].gate == Some(s.approvals[runs[j].call.approvalRecordId.value]))
    && (forall i, j :: 0 <= i < j < |runs| ==> runs[i].call.callId != runs[j].call.callId)
  }

  /** Each execution was one of `execute`, on the call it logs. */
  ghost predicate RanBy(execute: ToolCall -> Outcome, runs: seq<Execution>) {
    forall j :: 0 <= j < |runs| ==> runs[j].outcome == execute(runs[j].call)
  }

  /** The first `k` listed calls are settled, all other calls are as they were. */
  ghost predicate SettledTo(hash: string -> string, s: Store, s': Store, execute: ToolCall -> Outcome, t: Id,
                            calls: seq<ToolCall>, k: nat)
  {
    && k <= |calls| && (forall c :: c in s'.calls <==> c in s.calls)
    && (forall i :: 0 <= i < |calls| ==> calls[i].callId in s'.calls)
    && (forall i :: 0 <= i < k ==> SettledAs(hash, s, execute, calls[i], s'.calls[calls[i].callId]))
    && (forall i :: k <= i < |calls| ==> s'.calls[calls[i].callId] == calls[i])
    && (forall c :: c in s.calls && !Own(s, t, c) ==> s'.calls[c] == s.calls[c])
    && s'.tasks == s.tasks && s'.events == s.events && s'.approvals == s.approvals && s'.gateway == s.gateway
  }

  ghost predicate Listing(s: Store, t: Id, calls: seq<ToolCall>) {
    && (forall i :: 0 <= i < |calls| ==> Own(s, t, calls[i].callId) && s.calls[calls[i].callId] == calls[i])
    && (forall i, j :: 0 <= i < j < |calls| ==> calls[i].callId != calls[j].callId)
    && (forall c :: Own(s, t, c) ==> s.calls[c] in calls && s.calls[c].callId == c)
  }

  /** A finished resume: the task's own calls are settled by their records, each cleared call ran
      exactly once, and no other call, record, task or event changed. */
  ghost predicate ResumedRun(hash: string -> string, s: Store, s': Store, t: Id, execute: ToolCall -> Outcome,
                             runs: seq<Execution>) {
    && (forall c :: c in s'.calls <==> c in s.calls)
    && (forall c :: c in s.calls ==> if Own(s, t, c) then SettledAs(hash, s, execute, s.calls[c], s'.calls[c])
                                     else s'.calls[c] == s.calls[c])
    && s'.approvals == s.approvals && s'.gateway == s.gateway
    && Moved(s, s', t, [Completed], ["completed after approval"])
    && s'.tasks[t] == s.tasks[t].(state := Completed, updatedAt := s'.tasks[t].updatedAt)
    && (forall c :: Own(s, t, c) && Cleared(hash, s, s.calls[c]) ==> RanCall(runs, s.calls[c]))
    && (forall j :: 0 <= j < |runs| ==>
          && Own(s, t, runs[j].call.callId) && runs[j].call == s.calls[runs[j].call.callId]
          && Cleared(hash, s, runs[j].call)
          && runs[j].gate == Some(s.approvals[runs[j].call.approvalRecordId.value]))
    && (forall i, j :: 0 <= i < j < |runs| ==> runs[i].call.callId != runs[j].call.callId)
    && RanBy(execute, runs)
  }

  lemma {:induction false} ListsOwn(s: Store, order: seq<Id>, t: Id) returns (calls: seq<ToolCall>)
    requires t in s.tasks && (forall c :: c in s.calls ==> s.calls[c].callId == c)
    requires forall i, j :: 0 <= i < j < |order| ==> order[i] != order[j]
    ensures calls == ListCalls(s.calls, order, t, s.tasks[t].tenantId)
    ensures forall i :: 0 <= i < |calls| ==> calls[i].callId in order
    ensures forall i :: 0 <= i < |calls| ==> Own(s, t, calls[i].callId) && s.calls[calls[i].callId] == calls[i]
    ensures forall i, j :: 0 <= i < j < |calls| ==> calls[i].callId != calls[j].callId
    ensures forall c :: Own(s, t, c) && c in order ==> s.calls[c] in calls
  {
    if order == [] {
      calls := [];
    } else {
      var front, c := order[..|order| - 1], order[|order| - 1];
      calls := ListsOwn(s, front, t);
      assert order == front + [c] && c !in front;
      if Own(s, t, c) {
        calls := calls + [s.calls[c]];
      }
    }
  }

  lemma ListingIs(s: Store, now: nat, t: Id)
    requires t in s.tasks && Below(s, now)
    ensures Listing(s, t, ListCalls(s.calls, s.callOrder, t, s.tasks[t].tenantId))
  {
    var calls := ListsOwn(s, s.callOrder, t);
  }

  /** One call of the loop is settled by one upsert, or by none. */
  lemma SettleStep(hash: string -> string, s: Store, s1: Store, execute: ToolCall -> Outcome,
                   calls: seq<ToolCall>, k: nat, now: ToolCall, t: Id)
    requires Listing(s, t, calls) && k < |calls| && SettledTo(hash, s, s1, execute, t, calls, k)
    requires SettledAs(hash, s, execute, calls[k], now)
    ensures SettledTo(hash, s, Exec(s1, PutCall(now)), execute, t, calls, k + 1)
    ensures now == calls[k] ==> SettledTo(hash, s, s1, execute, t, calls, k + 1)
  {
    SettledKeepsId(hash, s, execute, calls[k], now);
    hide SettledAs;
    assert Own(s, t, calls[k].callId);
    assert forall i :: 0 <= i < |calls| && i != k ==> calls[i].callId != calls[k].callId;
  }

  /** Fetching the record of a listed call is a read. */
  lemma FetchTurn(hash: string -> string, s: Store, t: Id, calls: seq<ToolCall>, k: nat, now: nat)
    requires t in s.tasks && k < |calls|
    ensures WorkerTurn(hash, s, t, FetchRecord(calls, k), now, Nothing)
         == Quiet(Some(if calls[k].approvalRecordId.Some? && calls[k].approvalRecordId.value in s.approvals
                       then Settle(calls, k, s.approvals[calls[k].approvalRecordId.value])
                       else AfterCall(calls, k + 1)))
  {
  }

  /** A resume begins with three reads. */
  lemma ResumeTurns(hash: string -> string, s: Store, t: Id)
    requires t in s.tasks && s.tasks[t].state == Approved
    ensures forall now :: WorkerTurn(hash, s, t, Resume, now, Nothing) == Quiet(Some(ResumeRecheck(s.tasks[t])))
    ensures forall now ::
              WorkerTurn(hash, s, t, ResumeRecheck(s.tasks[t]), now, Nothing) == Quiet(Some(ListPending(s.tasks[t])))
    ensures var calls := ListCalls(s.calls, s.callOrder, t, s.tasks[t].tenantId);
            forall now ::
              WorkerTurn(hash, s, t, ListPending(s.tasks[t]), now, Nothing) == Quiet(Some(AfterCall(calls, 0)))
  {
  }

  lemma StillListed(hash: string -> string, s: Store, s1: Store, execute: ToolCall -> Outcome, t: Id,
                    calls: seq<ToolCall>, k: nat)
    requires k < |calls| && SettledTo(hash, s, s1, execute, t, calls, k)
    ensures s1.approvals == s.approvals
    ensures calls[k].callId in s1.calls && s1.calls[calls[k].callId] == calls[k]
  {
  }

  lemma SettledKeepsId(hash: string -> string, s: Store, execute: ToolCall -> Outcome, was: ToolCall, now: ToolCall)
    requires SettledAs(hash, s, execute, was, now)
    ensures now.callId == was.callId
  {
    hide Cleared;
    hide Refused;
  }

  lemma RanStep(hash: string -> string, s: Store, calls: seq<ToolCall>, k: nat, runs: seq<Execution>, t: Id,
                out: Outcome)
    requires Listing(s, t, calls) && k < |calls| && RanCleared(hash, s, calls[..k], runs)
    ensures !Cleared(hash, s, calls[k]) ==> RanCleared(hash, s, calls[..k + 1], runs)
    ensures Cleared(hash, s, calls[k]) ==>
              RanCleared(hash, s, calls[..k + 1],
                         runs + [Execution(calls[k], Some(s.approvals[calls[k].approvalRecordId.value]), out)])
  {
    hide IsApproved;
    assert calls[..k + 1] == calls[..k] + [calls[k]];
    forall j | 0 <= j < |runs| ensures runs[j].call in calls[..k + 1] && runs[j].call.callId != calls[k].callId {
      assert runs[j].call in calls[..k];
      var i :| 0 <= i < k && calls[i] == runs[j].call;
    }
    if Cleared(hash, s, calls[k]) {
      var more := runs + [Execution(calls[k], Some(s.approvals[calls[k].approvalRecordId.value]), out)];
      assert more[|runs|].call == calls[k];
      forall i | 0 <= i < k && Cleared(hash, s, calls[..k][i]) ensures RanCall(more, calls[..k][i]) {
        var j :| 0 <= j < |runs| && runs[j].call == calls[..k][i];
        assert more[j].call == calls[..k][i];
      }
    }
  }

  lemma ResumeEnds(hash: string -> string, s: Store, s': Store, t: Id, execute: ToolCall -> Outcome,
                   runs: seq<Execution>)
    requires ResumedRun(hash, s, s', t, execute, runs)
    ensures t in s'.tasks && s'.tasks[t].state == Completed
  {
  }

  lemma NoneSettled(hash: string -> string, s: Store, execute: ToolCall -> Outcome, t: Id, calls: seq<ToolCall>)
    requires Listing(s, t, calls)
    ensures SettledTo(hash, s, s, execute, t, calls, 0) && RanCleared(hash, s, calls[..0], [])
  {
  }

  lemma SameTasks(hash: string -> string, s: Store, s1: Store, execute: ToolCall -> Outcome, t: Id,
                  calls: seq<ToolCall>, k: nat)
    requires SettledTo(hash, s, s1, execute, t, calls, k)
    ensures s1.tasks == s.tasks
  {
  }

  lemma FetchNext(calls: seq<ToolCall>, k: nat)
    ensures AfterCall(calls, k) == if k < |calls| then FetchRecord(calls, k) else Finish
  {
  }

  /** The loop over a full listing, and the final transition, are a finished resume. */
  lemma ResumeIs(hash: string -> string, s: Store, s1: Store, s2: Store, execute: ToolCall -> Outcome, t: Id,
                 calls: seq<ToolCall>, runs: seq<Execution>)
    requires t in s.tasks && Listing(s, t, calls) && SettledTo(hash, s, s1, execute, t, calls, |calls|)
    requires RanCleared(hash, s, calls, runs) && RanBy(execute, runs)
    requires CompletedFrom(s1, s2, t, "completed after approval", s.tasks[t].resultSummary)
    ensures ResumedRun(hash, s, s2, t, execute, runs)
  {
    hide Cleared;
    hide SettledAs;
    forall c | Own(s, t, c)
      ensures SettledAs(hash, s, execute, s.calls[c], s2.calls[c])
      ensures Cleared(hash, s, s.calls[c]) ==> RanCall(runs, s.calls[c])
    {
      var i :| 0 <= i < |calls| && calls[i] == s.calls[c];
    }
  }

  // ---- Turns of the writing and parking steps ------------------------------------------------

  lemma ReadTurn(hash: string -> string, s: Store, task: TaskRecord, result: MeshResult, i: nat,
                 evidence: seq<string>, now: nat, out: Outcome)
    requires task.taskId in s.tasks && i < |result.proposedReads|
    ensures var call := ReadCallRecord(task, result.proposedReads[i], now);
            var turn := WorkerTurn(hash, s, task.taskId, AfterReads(task, result, i, evidence), now, Ran(out));
            && turn.call == Some(PutCall(ExecutedCall(call, out)))
            && turn.next == Some(AfterReads(task, result, i + 1, evidence + [ReadSummary(call, out.result)]))
  {
    hide ReadSummary;
    hide ReadCallRecord;
  }

  lemma OpenTurn(hash: string -> string, s: Store, task: TaskRecord, result: MeshResult, j: nat,
                 tokens: map<Id, Token>, now: nat)
    requires task.taskId in s.tasks && j < |result.proposedWrites|
    ensures var call := WriteCallRecord(task, result.proposedWrites[j], now);
            WorkerTurn(hash, s, task.taskId, Protocol.OpenCall(task, result, j, tokens), now, Nothing)
            == Calls(PutCall(call), Some(Protocol.OpenApproval(task, result, j, tokens, call)))
  {
  }

  lemma LinkTurn(hash: string -> string, s: Store, task: TaskRecord, result: MeshResult, j: nat,
                 tokens: map<Id, Token>, call: ToolCall, r: Id, now: nat)
    requires task.taskId in s.tasks
    ensures WorkerTurn(hash, s, task.taskId, LinkCall(task, result, j, tokens, call, r), now, Nothing)
            == Calls(PutCall(call.(approvalRecordId := Some(r))),
                     Some(if j + 1 < |result.proposedWrites| then OpenCall(task, result, j + 1, tokens)
                          else ReadBack(tokens)))
  {
  }

  lemma ParkTurns(hash: string -> string, s: Store, t: Id, tokens: map<Id, Token>, current: TaskRecord, now: nat)
    requires t in s.tasks
    ensures WorkerTurn(hash, s, t, ReadBack(tokens), now, Nothing) == Quiet(Some(Stash(s.tasks[t], tokens)))
    ensures WorkerTurn(hash, s, t, Stash(current, tokens), now, Nothing)
            == Calls(PutTask(current.(metadata := Stashed(current.metadata, tokens))), Some(Protocol.Park))
    ensures WorkerTurn(hash, s, t, Protocol.Park, now, Nothing)
            == Calls(Transition(t, AwaitingApproval, "paused for write approval", now), None)
  {
  }

  class Worker {
    const repo: InMemoryRepository
    const mesh: TaskRecord -> Plan
    const execute: ToolCall -> Outcome

    constructor (repo: InMemoryRepository, mesh: TaskRecord -> Plan, execute: ToolCall -> Outcome)
      ensures this.repo == repo && this.mesh == mesh && this.execute == execute
    {
      this.repo, this.mesh, this.execute := repo, mesh, execute;
    }

    /** Runs the proposed reads at once and records each as executed, without touching the ledger. */
    method RunReads(task: TaskRecord, result: MeshResult) returns (evidence: seq<string>, ghost ids: seq<Id>)
      requires repo.Valid() && At(repo.world, task.taskId, AfterReads(task, result, 0, []))
      modifies repo
      ensures repo.Valid()
      ensures At(repo.world, task.taskId, AfterReads(task, result, |result.proposedReads|, evidence))
      ensures OnlyWorks(old(repo.world), old(repo.trail), repo.world, repo.trail, task.taskId)
      ensures ReadsDone(execute, old(repo.Model()), repo.Model(), task, result.proposedReads, ids)
      ensures Evidenced(repo.Model().calls, ids, evidence)
      ensures repo.world.store.tasks == old(repo.world.store.tasks)
    {
      hide Next;
      hide Effect;
      hide Run;
      hide Below;
      hide ReadsDone;
      hide Evidenced;
      hide WorkerTurn;
      hide AfterReads;
      var t, asked := task.taskId, result.proposedReads;
      evidence, ids := [], [];
      NoReads(execute, repo.Model(), task, asked[..0]);
      for i := 0 to |asked|
        invariant repo.Valid() && At(repo.world, t, AfterReads(task, result, i, evidence))
        invariant OnlyWorks(old(repo.world), old(repo.trail), repo.world, repo.trail, t)
        invariant ReadsDone(execute, old(repo.Model()), repo.Model(), task, asked[..i], ids)
        invariant Evidenced(repo.Model().calls, ids, evidence)
        invariant repo.world.store.tasks == old(repo.world.store.tasks)
      {
        Numbered(repo.hash, repo.trail);
        var read := ReadCallRecord(task, asked[i], repo.clock);
        var out := execute(read);
        var call := ExecutedCall(read, out);
        ReadTurn(repo.hash, repo.world.store, task, result, i, evidence, repo.world.clock, out);
        WorkStep(repo.hash, repo.world, t, Ran(out));
        ReadStep(execute, old(repo.Model()), repo.Model(), task, asked, ids, i, call);
        EvidenceStep(repo.Model(), call, ids, evidence);
        repo.UpsertToolCall(call, Work(t, Ran(out)));
        evidence, ids := evidence + [ReadSummary(call, out.result)], ids + [call.callId];
      }
      assert asked[..|asked|] == asked;
    }

    /** Opens a pending record for a call and issues the token the approver will present. */
    method OpenApproval(task: TaskRecord, result: MeshResult, ghost j: nat, ghost tokens: map<Id, Token>,
                        call: ToolCall)
      returns (record: ApprovalRecord, token: Token)
      requires repo.Valid() && At(repo.world, task.taskId, Protocol.OpenApproval(task, result, j, tokens, call))
      modifies repo
      ensures repo.Valid() && record.recordId == old(repo.world.clock)
      ensures record == PendingRecord(repo.hash, call, record.recordId)
      ensures token == Token(record.recordId, record.payloadHash, call.requesterId)
      ensures At(repo.world, task.taskId,
                 LinkCall(task, result, j, tokens[record.recordId := token], call, record.recordId))
      ensures OnlyWorks(old(repo.world), old(repo.trail), repo.world, repo.trail, task.taskId)
      ensures repo.Model() == Exec(old(repo.Model()), PutApproval(record))
    {
      hide Next;
      hide Effect;
      hide Run;
      hide PayloadHash;
      record := PendingRecord(repo.hash, call, repo.clock);
      WorkStep(repo.hash, repo.world, task.taskId, Nothing);
      repo.UpsertApproval(record, Work(task.taskId, Nothing));
      token := Token(record.recordId, record.payloadHash, call.requesterId);
    }

    /** Records the call of one proposed write. */
    method OpenWrite(task: TaskRecord, result: MeshResult, j: nat, ghost tokens: map<Id, Token>)
      returns (call: ToolCall)
      requires repo.Valid() && At(repo.world, task.taskId, Protocol.OpenCall(task, result, j, tokens))
      requires j < |result.proposedWrites|
      modifies repo
      ensures repo.Valid() && call == WriteCallRecord(task, result.proposedWrites[j], old(repo.world.clock))
      ensures At(repo.world, task.taskId, Protocol.OpenApproval(task, result, j, tokens, call))
      ensures OnlyWorks(old(repo.world), old(repo.trail), repo.world, repo.trail, task.taskId)
      ensures repo.Model() == Exec(old(repo.Model()), PutCall(call))
      ensures repo.world.clock == old(repo.world.clock) + 1
    {
      hide Next;
      hide Effect;
      hide Run;
      hide WorkerTurn;
      hide OnlyWorks;
      call := WriteCallRecord(task, result.proposedWrites[j], repo.clock);
      OpenTurn(repo.hash, repo.world.store, task, result, j, tokens, repo.world.clock);
      WorkStep(repo.hash, repo.world, task.taskId, Nothing);
      OneWork(repo.hash, repo.world, repo.trail, task.taskId, Nothing);
      repo.UpsertToolCall(call, Work(task.taskId, Nothing));
    }

    /** Records the call again, linked to its record. */
    method LinkWrite(task: TaskRecord, ghost result: MeshResult, ghost j: nat, ghost tokens: map<Id, Token>,
                     call: ToolCall, r: Id)
      requires repo.Valid() && At(repo.world, task.taskId, LinkCall(task, result, j, tokens, call, r))
      modifies repo
      ensures repo.Valid()
      ensures At(repo.world, task.taskId, if j + 1 < |result.proposedWrites|
                                          then OpenCall(task, result, j + 1, tokens) else ReadBack(tokens))
      ensures OnlyWorks(old(repo.world), old(repo.trail), repo.world, repo.trail, task.taskId)
      ensures repo.Model() == Exec(old(repo.Model()), PutCall(call.(approvalRecordId := Some(r))))
    {
      hide Next;
      hide Effect;
      hide Run;
      hide WorkerTurn;
      hide OnlyWorks;
      LinkTurn(repo.hash, repo.world.store, task, result, j, tokens, call, r, repo.world.clock);
      WorkStep(repo.hash, repo.world, task.taskId, Nothing);
      OneWork(repo.hash, repo.world, repo.trail, task.taskId, Nothing);
      repo.UpsertToolCall(call.(approvalRecordId := Some(r)), Work(task.taskId, Nothing));
    }

    /** Gates one proposed write: the call, its record, and the call again, linked to the record. */
    method GateWrite(task: TaskRecord, result: MeshResult, j: nat, ghost tokens: map<Id, Token>)
      returns (call: ToolCall, record: ApprovalRecord, token: Token)
      requires repo.Valid() && At(repo.world, task.taskId, Protocol.OpenCall(task, result, j, tokens))
      requires j < |result.proposedWrites|
      modifies repo
      ensures repo.Valid() && call == WriteCallRecord(task, result.proposedWrites[j], old(repo.world.clock))
      ensures record == PendingRecord(repo.hash, call, record.recordId) && call.callId < record.recordId
      ensures token == Token(record.recordId, record.payloadHash, call.requesterId)
      ensures var stashed := tokens[record.recordId := token];
              At(repo.world, task.taskId, if j + 1 < |result.proposedWrites|
                                          then OpenCall(task, result, j + 1, stashed) else ReadBack(stashed))
      ensures OnlyWorks(old(repo.world), old(repo.trail), repo.world, repo.trail, task.taskId)
      ensures repo.Model() == Linked(old(repo.Model()), call, record)
    {
      hide Run;
      hide PendingRecord;
      hide OnlyWorks;
      hide Exec;
      hide At;
      var t := task.taskId;
      ghost var w0, trail0 := repo.world, repo.trail;
      call := OpenWrite(task, result, j, tokens);
      ghost var w1, trail1 := repo.world, repo.trail;
      record, token := OpenApproval(task, result, j, tokens, call);
      WorksOn(w0, trail0, w1, trail1, repo.world, repo.trail, t);
      w1, trail1 := repo.world, repo.trail;
      LinkWrite(task, result, j, tokens[record.recordId := token], call, record.recordId);
      WorksOn(w0, trail0, w1, trail1, repo.world, repo.trail, t);
    }

    /** Gates each proposed write behind a pending approval. */
    method GateWrites(task: TaskRecord, result: MeshResult)
      returns (tokens: map<Id, Token>, ghost callIds: seq<Id>, ghost recordIds: seq<Id>)
      requires repo.Valid() && At(repo.world, task.taskId, OpenCall(task, result, 0, map[]))
      requires result.proposedWrites != []
      modifies repo
      ensures repo.Valid() && At(repo.world, task.taskId, ReadBack(tokens))
      ensures OnlyWorks(old(repo.world), old(repo.trail), repo.world, repo.trail, task.taskId)
      ensures WritesGated(repo.hash, old(repo.Model()), repo.Model(), task, result.proposedWrites, callIds, recordIds,
                          tokens)
      ensures repo.world.store.tasks == old(repo.world.store.tasks)
    {
      hide Next;
      hide Effect;
      hide Run;
      hide Below;
      hide WritesGated;
      hide PendingRecord;
      hide Linked;
      hide WorkerTurn;
      hide OnlyWorks;
      ghost var w0, trail0 := repo.world, repo.trail;
      NoWork(w0, trail0, task.taskId);
      var t, writes := task.taskId, result.proposedWrites;
      tokens, callIds, recordIds := map[], [], [];
      NoWrites(repo.hash, repo.Model(), task, writes[..0]);
      for j := 0 to |writes|
        invariant repo.Valid()
        invariant At(repo.world, t, if j < |writes| then OpenCall(task, result, j, tokens) else ReadBack(tokens))
        invariant OnlyWorks(old(repo.world), old(repo.trail), repo.world, repo.trail, t)
        invariant WritesGated(repo.hash, old(repo.Model()), repo.Model(), task, writes[..j], callIds, recordIds, tokens)
        invariant repo.world.store.tasks == old(repo.world.store.tasks)
      {
        Numbered(repo.hash, repo.trail);
        ghost var before, w1, trail1 := repo.Model(), repo.world, repo.trail;
        var call, record, token := GateWrite(task, result, j, tokens);
        WorksOn(w0, trail0, w1, trail1, repo.world, repo.trail, t);
        LinkedIs(before, call, record);
        WriteStep(repo.hash, old(repo.Model()), before, task, writes, j, callIds, recordIds, tokens, call, record);
        tokens := tokens[record.recordId := token];
        callIds, recordIds := callIds + [call.callId], recordIds + [record.recordId];
      }
      assert writes[..|writes|] == writes;
    }

    /** Stashes the issued tokens on the task and parks it. */
    method Park(t: Id, tokens: map<Id, Token>)
      requires repo.Valid() && At(repo.world, t, ReadBack(tokens))
      requires repo.world.store.tasks[t].state == Running && repo.world.store.tasks[t].taskId == t
      modifies repo
      ensures repo.Valid() && t !in repo.world.workers
      ensures OnlyWorks(old(repo.world), old(repo.trail), repo.world, repo.trail, t)
      ensures ParkedFrom(old(repo.Model()), repo.Model(), t, tokens)
    {
      hide Next;
      hide Effect;
      hide Run;
      hide Stashed;
      hide WorkerTurn;
      ParkTurns(repo.hash, repo.world.store, t, tokens, repo.world.store.tasks[t], repo.world.clock);
      WorkStep(repo.hash, repo.world, t, Nothing);
      var current := repo.GetTask(t, Work(t, Nothing));
      ParkTurns(repo.hash, repo.world.store, t, tokens, current.value, repo.world.clock);
      WorkStep(repo.hash, repo.world, t, Nothing);
      repo.CreateTask(current.value.(metadata := Stashed(current.value.metadata, tokens)), Work(t, Nothing));
      ParkTurns(repo.hash, repo.world.store, t, tokens, current.value, repo.world.clock);
      WorkStep(repo.hash, repo.world, t, Nothing);
      var parked := repo.TransitionTask(t, AwaitingApproval, "paused for write approval", Work(t, Nothing));
    }

    /** The refused call leaves its audit event, and the orchestrator fails the task. */
    method GovernedBudgetHalt(task: TaskRecord, tenantId: string)
      requires repo.Valid() && At(repo.world, task.taskId, Protocol.RunMesh(task))
      requires repo.world.store.tasks[task.taskId].state == Running
      modifies repo
      ensures repo.Valid() && At(repo.world, task.taskId, Recheck(task, NO_RESULT))
      ensures OnlyWorks(old(repo.world), old(repo.trail), repo.world, repo.trail, task.taskId)
      ensures HaltedFrom(old(repo.Model()), repo.Model(), task, tenantId)
    {
      hide Next;
      hide Effect;
      hide Run;
      var t := task.taskId;
      WorkStep(repo.hash, repo.world, t, Halt(tenantId));
      repo.RecordGatewayEvent(GatewayEvent(t, tenantId, "budget_halt", "block"), Work(t, Halt(tenantId)));
      WorkStep(repo.hash, repo.world, t, Nothing);
      var failed := repo.TransitionTask(t, Failed, "budget halt", Work(t, Nothing));
    }

    /** The mesh comes to its plan. On a budget halt the orchestrator records the event and fails the task itself. */
    method RunMesh(task: TaskRecord, plan: Plan) returns (result: MeshResult)
      requires repo.Valid() && At(repo.world, task.taskId, Protocol.RunMesh(task))
      requires repo.world.store.tasks[task.taskId].state == Running
      modifies repo
      ensures repo.Valid() && At(repo.world, task.taskId, Recheck(task, result))
      ensures OnlyWorks(old(repo.world), old(repo.trail), repo.world, repo.trail, task.taskId)
      ensures match plan
              case Planned(planned) => result == planned && repo.Model() == old(repo.Model())
              case Halted(tenantId) => HaltedFrom(old(repo.Model()), repo.Model(), task, tenantId)
    {
      hide Next;
      hide Effect;
      hide Run;
      var t := task.taskId;
      match plan
      case Planned(planned) =>
        result := planned;
        WorkStep(repo.hash, repo.world, t, Mesh(planned));
        repo.Tick(Work(t, Mesh(planned)));
      case Halted(tenantId) =>
        result := NO_RESULT;
        GovernedBudgetHalt(task, tenantId);
    }

    /** Completes a task that proposed no writes, with the evidence of its reads in the summary. */
    method CompleteReads(task: TaskRecord, result: MeshResult, evidence: seq<string>)
      requires repo.Valid() && At(repo.world, task.taskId, Complete(task, result, evidence))
      requires repo.world.store.tasks[task.taskId].state == Running
      requires repo.world.store.tasks[task.taskId].taskId == task.taskId
      modifies repo
      ensures repo.Valid() && task.taskId !in repo.world.workers
      ensures OnlyWorks(old(repo.world), old(repo.trail), repo.world, repo.trail, task.taskId)
      ensures CompletedFrom(old(repo.Model()), repo.Model(), task.taskId, "no write actions required",
                            Some(CompletionSummary(result, evidence)))
    {
      hide Next;
      hide Effect;
      hide Run;
      hide CompletionSummary;
      var t := task.taskId;
      WorkStep(repo.hash, repo.world, t, Nothing);
      var done := repo.TransitionTask(t, Completed, "no write actions required", Work(t, Nothing));
      WorkStep(repo.hash, repo.world, t, Nothing);
      repo.CreateTask(done.value.(resultSummary := Some(CompletionSummary(result, evidence))), Work(t, Nothing));
    }

    /** Claims the task; nothing when the move to Running is illegal. */
    method Claim(task: TaskRecord) returns (claimed: bool)
      requires repo.Valid() && At(repo.world, task.taskId, Protocol.Claim(task))
      requires repo.world.store.tasks[task.taskId] == task
      modifies repo
      ensures repo.Valid() && claimed == CanTransition(task.state, Running)
      ensures OnlyWorks(old(repo.world), old(repo.trail), repo.world, repo.trail, task.taskId)
      ensures claimed ==>
                At(repo.world, task.taskId, Protocol.RunMesh(task)) && Claimed(old(repo.Model()), repo.Model(), task)
      ensures !claimed ==> task.taskId !in repo.world.workers && repo.Model() == old(repo.Model())
    {
      hide Next;
      hide Effect;
      hide Run;
      WorkStep(repo.hash, repo.world, task.taskId, Nothing);
      var running := repo.TransitionTask(task.taskId, Running, "worker picked up task", Work(task.taskId, Nothing));
      claimed := running.Some?;
    }

    /** Reads the task again after the mesh, and stops if the mesh halted it. */
    method HaltedMeanwhile(task: TaskRecord, result: MeshResult) returns (halted: bool)
      requires repo.Valid() && At(repo.world, task.taskId, Recheck(task, result))
      modifies repo
      ensures repo.Valid() && repo.Model() == old(repo.Model())
      ensures OnlyWorks(old(repo.world), old(repo.trail), repo.world, repo.trail, task.taskId)
      ensures halted == IsTerminal(old(repo.world.store.tasks[task.taskId].state))
      ensures if halted then task.taskId !in repo.world.workers
              else At(repo.world, task.taskId, AfterReads(task, result, 0, []))
    {
      hide Next;
      hide Effect;
      hide Run;
      hide AfterReads;
      WorkStep(repo.hash, repo.world, task.taskId, Nothing);
      var current := repo.GetTask(task.taskId, Work(task.taskId, Nothing));
      halted := IsTerminal(current.value.state);
    }

    /** Acts on the plan of the mesh: reads, then either completion or gated writes. */
    method ActOn(task: TaskRecord, result: MeshResult, ghost s: Store)
      returns (state: TaskState, ghost readIds: seq<Id>, ghost callIds: seq<Id>, ghost recordIds: seq<Id>)
      requires repo.Valid() && At(repo.world, task.taskId, AfterReads(task, result, 0, []))
      requires repo.world.store.tasks[task.taskId].state == Running
      requires repo.world.store.tasks[task.taskId].taskId == task.taskId
      requires Claimed(s, repo.Model(), task)
      modifies repo
      ensures repo.Valid() && task.taskId !in repo.world.workers
      ensures OnlyWorks(old(repo.world), old(repo.trail), repo.world, repo.trail, task.taskId)
      ensures FreshRun(repo.hash, execute, s, repo.Model(), task, Planned(result), readIds, callIds, recordIds)
      ensures task.taskId in repo.tasks && repo.tasks[task.taskId].state == state
    {
      hide Next;
      hide Run;
      hide OnlyWorks;
      hide WorkerTurn;
      hide ReadsDone;
      hide WritesGated;
      hide ReadOnlyRun;
      hide ParkedRun;
      hide Evidenced;
      hide Claimed;
      hide ParkedFrom;
      hide CompletedFrom;
      var t := task.taskId;
      ghost var w0, trail0, s0 := repo.world, repo.trail, repo.Model();
      callIds, recordIds := [], [];
      var evidence;
      evidence, readIds := RunReads(task, result);
      ghost var w1, trail1, s1 := repo.world, repo.trail, repo.Model();
      if result.proposedWrites == [] {
        CompleteReads(task, result, evidence);
        WorksOn(w0, trail0, w1, trail1, repo.world, repo.trail, t);
        ReadOnlyIs(execute, s, s0, s1, repo.Model(), task, result, readIds, evidence);
        state := Completed;
      } else {
        var tokens;
        tokens, callIds, recordIds := GateWrites(task, result);
        WorksOn(w0, trail0, w1, trail1, repo.world, repo.trail, t);
        w1, trail1 := repo.world, repo.trail;
        ghost var s2 := repo.Model();
        Park(t, tokens);
        WorksOn(w0, trail0, w1, trail1, repo.world, repo.trail, t);
        ParkIs(repo.hash, execute, s, s0, s1, s2, repo.Model(), task, result, readIds, callIds, recordIds, tokens);
        state := AwaitingApproval;
      }
      FreshEnds(repo.hash, execute, s, repo.Model(), task, Planned(result), readIds, callIds, recordIds);
    }

    /** What follows the claim, for the plan the mesh comes to. */
    method RunPlan(task: TaskRecord, plan: Plan, ghost s: Store)
      returns (state: TaskState, ghost readIds: seq<Id>, ghost callIds: seq<Id>, ghost recordIds: seq<Id>)
      requires repo.Valid() && At(repo.world, task.taskId, Protocol.RunMesh(task))
      requires Claimed(s, repo.Model(), task)
      modifies repo
      ensures repo.Valid() && task.taskId !in repo.world.workers
      ensures OnlyWorks(old(repo.world), old(repo.trail), repo.world, repo.trail, task.taskId)
      ensures FreshRun(repo.hash, execute, s, repo.Model(), task, plan, readIds, callIds, recordIds)
      ensures task.taskId in repo.tasks && repo.tasks[task.taskId].state == state
    {
      hide Next;
      hide Run;
      hide OnlyWorks;
      hide WorkerTurn;
      hide AfterReads;
      var t := task.taskId;
      ghost var w0, trail0, s0 := repo.world, repo.trail, repo.Model();
      var result := RunMesh(task, plan);
      ghost var w1, trail1 := repo.world, repo.trail;
      var halted := HaltedMeanwhile(task, result);
      WorksOn(w0, trail0, w1, trail1, repo.world, repo.trail, t);
      if halted {
        HaltIs(s, s0, repo.Model(), task, plan.tenantId);
        FreshEnds(repo.hash, execute, s, repo.Model(), task, plan, [], [], []);
        return Failed, [], [], [];
      }
      w1, trail1 := repo.world, repo.trail;
      state, readIds, callIds, recordIds := ActOn(task, result, s);
      WorksOn(w0, trail0, w1, trail1, repo.world, repo.trail, t);
    }

    /** The fresh run of a task: claim, mesh, then what the plan asks for. */
    method RunFresh(task: TaskRecord)
      returns (r: Processed, ghost readIds: seq<Id>, ghost callIds: seq<Id>, ghost recordIds: seq<Id>)
      requires repo.Valid() && At(repo.world, task.taskId, Protocol.Claim(task))
      requires repo.world.store.tasks[task.taskId] == task
      modifies repo
      ensures repo.Valid() && task.taskId !in repo.world.workers
      ensures OnlyWorks(old(repo.world), old(repo.trail), repo.world, repo.trail, task.taskId)
      ensures r.IllegalTransition? <==> !CanTransition(task.state, Running)
      ensures r.IllegalTransition? ==> repo.Model() == old(repo.Model())
      ensures !r.IllegalTransition? ==>
                && FreshRun(repo.hash, execute, old(repo.Model()), repo.Model(), task, mesh(task),
                            readIds, callIds, recordIds)
                && task.taskId in repo.tasks && r == State(repo.tasks[task.taskId].state)
    {
      hide Next;
      hide Run;
      hide OnlyWorks;
      hide FreshRun;
      readIds, callIds, recordIds := [], [], [];
      ghost var w0, trail0, s := repo.world, repo.trail, repo.Model();
      var claimed := Claim(task);
      if !claimed {
        return IllegalTransition, [], [], [];
      }
      ghost var w1, trail1 := repo.world, repo.trail;
      var state;
      state, readIds, callIds, recordIds := RunPlan(task, mesh(task), s);
      WorksOn(w0, trail0, w1, trail1, repo.world, repo.trail, task.taskId);
      r := State(state);
    }

    /** The reads a resume begins with: the task twice, and the listing of its calls. */
    method PendingCalls(t: Id) returns (calls: seq<ToolCall>)
      requires repo.Valid() && At(repo.world, t, Resume)
      requires repo.world.store.tasks[t].state == Approved
      modifies repo
      ensures repo.Valid() && At(repo.world, t, AfterCall(calls, 0)) && Listing(repo.Model(), t, calls)
      ensures repo.Model() == old(repo.Model()) && repo.world.execs == old(repo.world.execs)
      ensures OnlyWorks(old(repo.world), old(repo.trail), repo.world, repo.trail, t)
    {
      hide Next;
      hide Effect;
      hide Run;
      hide Listing;
      hide Below;
      hide AfterCall;
      hide ListCalls;
      hide InInsertionOrder;
      Numbered(repo.hash, repo.trail);
      ListingIs(repo.Model(), repo.clock, t);
      ResumeTurns(repo.hash, repo.world.store, t);
      hide WorkerTurn;
      WorkStep(repo.hash, repo.world, t, Nothing);
      var task := repo.GetTask(t, Work(t, Nothing));
      WorkStep(repo.hash, repo.world, t, Nothing);
      var current := repo.GetTask(t, Work(t, Nothing));
      WorkStep(repo.hash, repo.world, t, Nothing);
      calls := repo.ListToolCalls(t, task.value.tenantId, Work(t, Nothing));
    }

    /** Completes a task whose calls are settled. */
    method FinishResume(t: Id)
      requires repo.Valid() && At(repo.world, t, Finish)
      requires repo.world.store.tasks[t].state == Approved
      modifies repo
      ensures repo.Valid() && t !in repo.world.workers
      ensures OnlyWorks(old(repo.world), old(repo.trail), repo.world, repo.trail, t)
      ensures CompletedFrom(old(repo.Model()), repo.Model(), t, "completed after approval",
                            old(repo.tasks)[t].resultSummary)
      ensures repo.world.execs == old(repo.world.execs)
    {
      hide Next;
      hide Effect;
      hide Run;
      WorkStep(repo.hash, repo.world, t, Nothing);
      var done := repo.TransitionTask(t, Completed, "completed after approval", Work(t, Nothing));
    }

    /** Acts on the record just read for the k-th listed call: execute, reject, or leave alone. */
    method ActOnRecord(t: Id, calls: seq<ToolCall>, k: nat, record: ApprovalRecord) returns (now: ToolCall, ran: bool)
      requires repo.Valid() && k < |calls| && At(repo.world, t, Settle(calls, k, record))
      requires calls[k].callId in repo.calls && repo.calls[calls[k].callId] == calls[k]
      modifies repo
      ensures repo.Valid() && At(repo.world, t, AfterCall(calls, k + 1))
      ensures OnlyWorks(old(repo.world), old(repo.trail), repo.world, repo.trail, t)
      ensures ran == IsApproved(repo.hash, record, calls[k].parameters)
      ensures now == if ran then ExecutedCall(calls[k], execute(calls[k]))
                     else if record.decision == Reject then calls[k].(status := CallRejected) else calls[k]
      ensures repo.Model() == if now == calls[k] then old(repo.Model()) else Exec(old(repo.Model()), PutCall(now))
      ensures repo.world.execs
           == old(repo.world.execs) + (if ran then [Execution(calls[k], Some(record), execute(calls[k]))] else [])
    {
      hide Next;
      hide Effect;
      hide Run;
      hide AfterCall;
      hide IsApproved;
      ran, now := false, calls[k];
      if IsApproved(repo.hash, record, calls[k].parameters) {
        ran := true;
        var out := execute(calls[k]);
        now := ExecutedCall(calls[k], out);
        WorkStep(repo.hash, repo.world, t, Ran(out));
        repo.UpsertToolCall(now, Work(t, Ran(out)));
      } else if record.decision == Reject {
        now := calls[k].(status := CallRejected);
        WorkStep(repo.hash, repo.world, t, Nothing);
        repo.UpsertToolCall(now, Work(t, Nothing));
      } else {
        WorkStep(repo.hash, repo.world, t, Nothing);
        repo.Tick(Work(t, Nothing));
      }
    }

    /** Settles the k-th listed call by its own record, if it has one. */
    method SettleCall(t: Id, calls: seq<ToolCall>, k: nat, ghost s: Store, ghost prior: seq<Execution>,
                      ghost runs: seq<Execution>)
      returns (ghost runs': seq<Execution>)
      requires repo.Valid() && k < |calls| && At(repo.world, t, FetchRecord(calls, k))
      requires Listing(s, t, calls) && SettledTo(repo.hash, s, repo.Model(), execute, t, calls, k)
      requires RanCleared(repo.hash, s, calls[..k], runs) && RanBy(execute, runs) && repo.world.execs == prior + runs
      modifies repo
      ensures repo.Valid() && At(repo.world, t, AfterCall(calls, k + 1))
      ensures OnlyWorks(old(repo.world), old(repo.trail), repo.world, repo.trail, t)
      ensures SettledTo(repo.hash, s, repo.Model(), execute, t, calls, k + 1)
      ensures RanCleared(repo.hash, s, calls[..k + 1], runs') && RanBy(execute, runs')
      ensures repo.world.execs == prior + runs'
    {
      hide Next;
      hide Effect;
      hide Run;
      hide AfterCall;
      hide Listing;
      hide SettledTo;
      hide RanCleared;
      hide IsApproved;
      hide ExecutedCall;
      hide Exec;
      hide WorkerTurn;
      runs' := runs;
      var call := calls[k];
      ghost var w0, trail0 := repo.world, repo.trail;
      StillListed(repo.hash, s, repo.Model(), execute, t, calls, k);
      SettleStep(repo.hash, s, repo.Model(), execute, calls, k, Settled(repo.hash, s, execute, call), t);
      RanStep(repo.hash, s, calls, k, runs, t, execute(calls[k]));
      FetchTurn(repo.hash, repo.world.store, t, calls, k, repo.world.clock);
      WorkStep(repo.hash, repo.world, t, Nothing);
      if call.approvalRecordId.None? {
        repo.Tick(Work(t, Nothing));
        return;
      }
      var record := repo.GetApproval(call.approvalRecordId.value, Work(t, Nothing));
      if record.None? {
        return;
      }
      ghost var w1, trail1 := repo.world, repo.trail;
      var now, ran := ActOnRecord(t, calls, k, record.value);
      WorksOn(w0, trail0, w1, trail1, repo.world, repo.trail, t);
      if ran {
        runs' := runs + [Execution(call, Some(record.value), execute(call))];
      }
    }

    /** Resumes an approved task: every call with a record is settled by it, then the task completes. */
    method ResumeAfterApproval(t: Id) returns (state: TaskState, ghost runs: seq<Execution>)
      requires repo.Valid() && At(repo.world, t, Resume)
      requires repo.world.store.tasks[t].state == Approved
      modifies repo
      ensures repo.Valid() && t !in repo.world.workers && state == Completed
      ensures OnlyWorks(old(repo.world), old(repo.trail), repo.world, repo.trail, t)
      ensures ResumedRun(repo.hash, old(repo.Model()), repo.Model(), t, execute, runs)
      ensures repo.world.execs == old(repo.world.execs) + runs
    {
      hide Next;
      hide Run;
      hide OnlyWorks;
      hide Listing;
      hide SettledTo;
      hide RanCleared;
      hide CompletedFrom;
      hide WorkerTurn;
      hide AfterCall;
      ghost var w0, trail0, s := repo.world, repo.trail, repo.Model();
      var calls := PendingCalls(t);
      runs := [];
      NoneSettled(repo.hash, s, execute, t, calls);
      for k := 0 to |calls|
        invariant repo.Valid() && At(repo.world, t, AfterCall(calls, k))
        invariant OnlyWorks(w0, trail0, repo.world, repo.trail, t)
        invariant SettledTo(repo.hash, s, repo.Model(), execute, t, calls, k)
        invariant RanCleared(repo.hash, s, calls[..k], runs) && RanBy(execute, runs)
        invariant repo.world.execs == w0.execs + runs
      {
        ghost var w1, trail1 := repo.world, repo.trail;
        FetchNext(calls, k);
        runs := SettleCall(t, calls, k, s, w0.execs, runs);
        WorksOn(w0, trail0, w1, trail1, repo.world, repo.trail, t);
      }
      assert calls[..|calls|] == calls;
      FetchNext(calls, |calls|);
      ghost var s1, w1, trail1 := repo.Model(), repo.world, repo.trail;
      SameTasks(repo.hash, s, s1, execute, t, calls, |calls|);
      FinishResume(t);
      WorksOn(w0, trail0, w1, trail1, repo.world, repo.trail, t);
      ResumeIs(repo.hash, s, s1, repo.Model(), execute, t, calls, runs);
      state := Completed;
    }

    /** Processes or resumes one task. Requires that no other `process` of the task is in flight. */
    method Process(t: Id)
      returns (r: Processed, ghost readIds: seq<Id>, ghost callIds: seq<Id>, ghost recordIds: seq<Id>,
               ghost runs: seq<Execution>)
      requires repo.Valid() && t !in repo.world.workers
      modifies repo
      ensures repo.Valid() && t !in repo.world.workers
      ensures OnlyProcesses(old(repo.world), old(repo.trail), repo.world, repo.trail, t)
      ensures r.UnknownTask? <==> t !in old(repo.tasks)
      ensures r.IllegalTransition? <==>
                && t in old(repo.tasks) && !IsTerminal(old(repo.tasks)[t].state)
                && old(repo.tasks)[t].state != Approved && !CanTransition(old(repo.tasks)[t].state, Running)
      ensures r.State? ==> t in repo.tasks && r.state == repo.tasks[t].state
      ensures !r.State? || IsTerminal(old(repo.tasks)[t].state) ==> repo.Model() == old(repo.Model())
      ensures r.State? && old(repo.tasks)[t].state == Approved ==>
                && ResumedRun(repo.hash, old(repo.Model()), repo.Model(), t, execute, runs)
                && repo.world.execs == old(repo.world.execs) + runs
      ensures r.State? && !IsTerminal(old(repo.tasks)[t].state) && old(repo.tasks)[t].state != Approved ==>
                FreshRun(repo.hash, execute, old(repo.Model()), repo.Model(), old(repo.tasks)[t],
                         mesh(old(repo.tasks)[t]), readIds, callIds, recordIds)
    {
      hide Next;
      hide Run;
      hide Effect;
      hide OnlyWorks;
      hide OnlyProcesses;
      hide FreshRun;
      hide ResumedRun;
      readIds, callIds, recordIds, runs := [], [], [], [];
      ghost var w0, trail0, s := repo.world, repo.trail, repo.Model();
      DeliverStep(repo.hash, w0, trail0, t);
      var found := repo.GetTask(t, Deliver(t));
      if found.None? {
        return UnknownTask, [], [], [], [];
      }
      var task := found.value;
      OwnRow(repo.hash, repo.trail, t);
      ghost var w1, trail1 := repo.world, repo.trail;
      if IsTerminal(task.state) {
        r := State(task.state);
      } else if task.state == Approved {
        var state;
        state, runs := ResumeAfterApproval(t);
        ResumeEnds(repo.hash, s, repo.Model(), t, execute, runs);
        Delivered(w0, trail0, w1, trail1, repo.world, repo.trail, t);
        r := State(state);
      } else {
        r, readIds, callIds, recordIds := RunFresh(task);
        Delivered(w0, trail0, w1, trail1, repo.world, repo.trail, t);
      }
    }
  }
}
