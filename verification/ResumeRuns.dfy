/** The resume loop under interleaving: whatever ingress, approvers and other tasks do between its repository
    calls, while the records linked from the task's calls stay as they are, a task that completes has
    each of its calls settled by its record and each cleared call executed exactly once. */
module ResumeRuns {
  import opened Lifecycle
  import opened Records
  import opened Protocol
  import opened Runner
  import EO = ExecutesOnce
  import LR = LogReplay
  import SqlRuns

  // ---- What the others leave alone -----------------------------------------------------------

  /** Record r is linked from a call of task t. */
  ghost predicate Linked(s: Store, t: Id, r: Id) {
    exists c :: c in s.calls && s.calls[c].taskId == t && s.calls[c].approvalRecordId == Some(r)
  }

  /** The step does not crash the task's worker, rewrite a call of the task, or write a record linked from
      one: the ledger is stable as far as this task can see. */
  ghost predicate Leaves(hash: string -> string, w: World, l: Label, t: Id) {
    && (l.Crash? ==> l.taskId != t)
    && (l.Rewrite? && l.call.callId in w.store.calls ==> w.store.calls[l.call.callId].taskId != t)
    && var c := Effect(hash, w, l);
       c.Some? && c.value.PutApproval? ==> !Linked(w.store, t, c.value.record.recordId)
  }

  ghost predicate LeavesAll(hash: string -> string, w: World, labels: seq<Label>, t: Id) {
    labels == []
    || var before := labels[..|labels| - 1];
       LeavesAll(hash, w, before, t) && Leaves(hash, Run(hash, w, before), labels[|labels| - 1], t)
  }

  // ---- What the task's resume has done so far ------------------------------------------------

  /** The gated executions of one task, oldest first. */
  function OwnRuns(execs: seq<Execution>, t: Id): seq<Execution> {
    if execs == [] then []
    else
      var e := execs[|execs| - 1];
      OwnRuns(execs[..|execs| - 1], t) + (if e.gate.Some? && e.call.taskId == t then [e] else [])
  }

  lemma OwnRunsAppend(execs: seq<Execution>, e: Execution, t: Id)
    ensures OwnRuns(execs + [e], t) == OwnRuns(execs, t) + (if e.gate.Some? && e.call.taskId == t then [e] else [])
  {
    assert (execs + [e])[..|execs|] == execs;
  }

  lemma {:induction false} OwnRunsIn(execs: seq<Execution>, t: Id)
    ensures forall e :: e in OwnRuns(execs, t) ==> e in execs && e.gate.Some?
  {
    if execs != [] {
      OwnRunsIn(execs[..|execs| - 1], t);
    }
  }

  /** A call after the loop: executed with some result if it was cleared, rejected if it was refused, else
      as it was. */
  predicate SettledBy(hash: string -> string, s: Store, was: ToolCall, now: ToolCall) {
    if Cleared(hash, s, was) then
      && now.result.Some?
      && now == was.(status := Executed, result := now.result, integrationStyle := now.integrationStyle,
                     schemaValidation := now.schemaValidation)
    else if Refused(s, was) then now == was.(status := CallRejected)
    else now == was
  }

  /** The call ran, and holds what came of it. */
  predicate Recorded(runs: seq<Execution>, was: ToolCall, now: ToolCall) {
    exists j :: 0 <= j < |runs| && runs[j].call == was && RecordedFrom(now, runs[j].outcome)
  }

  /** Each own call is settled by its record as it stood at the start, each cleared one ran exactly once
      behind it, and nothing else of the task ran. */
  ghost predicate Done(hash: string -> string, s0: Store, s: Store, t: Id, runs: seq<Execution>) {
    && (forall c :: Own(s0, t, c) ==> c in s.calls && SettledBy(hash, s0, s0.calls[c], s.calls[c]))
    && (forall c :: Own(s0, t, c) && Cleared(hash, s0, s0.calls[c]) ==> Recorded(runs, s0.calls[c], s.calls[c]))
    && (forall j :: 0 <= j < |runs| ==>
          && Own(s0, t, runs[j].call.callId) && runs[j].call == s0.calls[runs[j].call.callId]
          && Cleared(hash, s0, runs[j].call)
          && runs[j].gate == Some(s0.approvals[runs[j].call.approvalRecordId.value]))
    && (forall i, j :: 0 <= i < j < |runs| ==> runs[i].call.callId != runs[j].call.callId)
  }

  ghost predicate Progress(hash: string -> string, s0: Store, s: Store, t: Id, calls: seq<ToolCall>, k: nat,
                           runs: seq<Execution>) {
    && Listing(s0, t, calls) && k <= |calls|
    && (forall i :: 0 <= i < |calls| ==> calls[i].callId in s.calls)
    && (forall i :: 0 <= i < k ==> SettledBy(hash, s0, calls[i], s.calls[calls[i].callId]))
    && (forall i :: 0 <= i < k && Cleared(hash, s0, calls[i]) ==>
          Recorded(runs, calls[i], s.calls[calls[i].callId]))
    && (forall i :: k <= i < |calls| ==> s.calls[calls[i].callId] == calls[i])
    && RanCleared(hash, s0, calls[..k], runs)
  }

  ghost predicate NotBegun(s0: Store, s: Store, t: Id, runs: seq<Execution>) {
    runs == [] && forall c :: Own(s0, t, c) ==> c in s.calls && s.calls[c] == s0.calls[c]
  }

  ghost predicate Stage(hash: string -> string, s0: Store, s: Store, t: Id, pc: Option<WorkerPc>, runs: seq<Execution>)
    requires t in s0.tasks
  {
    match pc
    case None => Done(hash, s0, s, t, runs)
    case Some(Resume) => NotBegun(s0, s, t, runs)
    case Some(ResumeRecheck(task)) => NotBegun(s0, s, t, runs) && task.tenantId == s0.tasks[t].tenantId
    case Some(ListPending(task)) => NotBegun(s0, s, t, runs) && task.tenantId == s0.tasks[t].tenantId
    case Some(FetchRecord(calls, k)) => Progress(hash, s0, s, t, calls, k, runs) && k < |calls|
    case Some(Settle(calls, k, record)) =>
      && Progress(hash, s0, s, t, calls, k, runs) && k < |calls| && calls[k].approvalRecordId.Some?
      && calls[k].approvalRecordId.value in s0.approvals && record == s0.approvals[calls[k].approvalRecordId.value]
    case Some(Finish) => Done(hash, s0, s, t, runs)
    case _ => false
  }

  /** The task's row, which calls are its own, and the records they are linked to are as at the start. */
  ghost predicate SameView(s0: Store, s: Store, t: Id) {
    && t in s0.tasks && t in s.tasks && s.tasks[t].tenantId == s0.tasks[t].tenantId
    && (forall c :: Own(s, t, c) <==> Own(s0, t, c))
    && (forall c :: Own(s0, t, c) ==> s.calls[c].approvalRecordId == s0.calls[c].approvalRecordId)
    && (forall c :: Own(s0, t, c) && s0.calls[c].approvalRecordId.Some? ==>
          SameRecord(s0, s, s0.calls[c].approvalRecordId.value))
  }

  predicate SameRecord(s0: Store, s: Store, r: Id) {
    (r in s.approvals <==> r in s0.approvals) && (r in s0.approvals ==> s.approvals[r] == s0.approvals[r])
  }

  function Since(w0: World, w: World, t: Id): seq<Execution> {
    var n := |OwnRuns(w0.execs, t)|;
    if n <= |OwnRuns(w.execs, t)| then OwnRuns(w.execs, t)[n..] else []
  }

  ghost predicate Resuming(hash: string -> string, w0: World, w: World, t: Id) {
    && SameView(w0.store, w.store, t) && w.store.tasks[t].state in {Approved, Completed}
    && (t !in w.workers ==> w.store.tasks[t].state == Completed)
    && OwnRuns(w0.execs, t) <= OwnRuns(w.execs, t)
    && Stage(hash, w0.store, w.store, t, LR.PcOf(w, t), Since(w0, w, t))
  }

  // ---- Steps of the others -------------------------------------------------------------------

  /** A repository call that leaves the task's row, calls and linked records alone. */
  ghost predicate Apart(s: Store, c: Option<RepoCall>, t: Id) {
    c.Some? ==>
      match c.value
      case PutTask(task) => task.taskId != t
      case Transition(u, target, _, _) => u != t || !Legal(s, t, target)
      case PutCall(call) =>
        call.taskId != t && (call.callId in s.calls ==> s.calls[call.callId].taskId != t)
      case PutApproval(record) => !Linked(s, t, record.recordId)
      case PutGateway(_) => true
  }

  ghost predicate Unmoved(s: Store, s': Store, t: Id) {
    && t in s.tasks && t in s'.tasks && s'.tasks[t] == s.tasks[t]
    && (forall c :: Own(s', t, c) <==> Own(s, t, c))
    && (forall c :: Own(s, t, c) ==> s'.calls[c] == s.calls[c])
    && (forall c :: Own(s, t, c) && s.calls[c].approvalRecordId.Some? ==>
          SameRecord(s, s', s.calls[c].approvalRecordId.value))
  }

  lemma ApartUnmoved(s: Store, c: Option<RepoCall>, t: Id)
    requires t in s.tasks && Apart(s, c, t)
    ensures Unmoved(s, ExecSome(s, c), t)
  {
    hide Linked;
    hide Own;
    hide SameRecord;
    hide Legal;
    if c.Some? && c.value.PutApproval? {
      RecordUnmoved(s, c.value.record, t);
    } else if c.Some? && c.value.PutCall? {
      CallUnmoved(s, c.value.call, t);
    } else {
      TaskUnmoved(s, ExecSome(s, c), t);
    }
  }

  lemma TaskUnmoved(s: Store, s': Store, t: Id)
    requires t in s.tasks && t in s'.tasks && s'.tasks[t] == s.tasks[t]
    requires s'.calls == s.calls && s'.approvals == s.approvals
    ensures Unmoved(s, s', t)
  {
  }

  lemma CallUnmoved(s: Store, call: ToolCall, t: Id)
    requires t in s.tasks && call.taskId != t && (call.callId in s.calls ==> s.calls[call.callId].taskId != t)
    ensures Unmoved(s, Exec(s, PutCall(call)), t)
  {
  }

  lemma RecordUnmoved(s: Store, record: ApprovalRecord, t: Id)
    requires t in s.tasks && !Linked(s, t, record.recordId)
    ensures Unmoved(s, Exec(s, PutApproval(record)), t)
  {
    forall d | Own(s, t, d) && s.calls[d].approvalRecordId.Some?
      ensures s.calls[d].approvalRecordId.value != record.recordId
    {
      assert Linked(s, t, s.calls[d].approvalRecordId.value);
    }
    hide Linked;
  }

  lemma ViewStays(s0: Store, s: Store, s': Store, t: Id)
    requires SameView(s0, s, t) && Unmoved(s, s', t)
    ensures SameView(s0, s', t)
  {
    forall c | Own(s0, t, c) && s0.calls[c].approvalRecordId.Some?
      ensures SameRecord(s0, s', s0.calls[c].approvalRecordId.value)
    {
      assert Own(s, t, c);
      assert SameRecord(s, s', s.calls[c].approvalRecordId.value);
    }
    hide SameRecord;
    hide Own;
  }

  lemma StageStays(hash: string -> string, s0: Store, s: Store, s': Store, t: Id, pc: Option<WorkerPc>,
                   runs: seq<Execution>)
    requires SameView(s0, s, t) && Unmoved(s, s', t) && Stage(hash, s0, s, t, pc, runs)
    ensures Stage(hash, s0, s', t, pc, runs)
  {
    hide SettledBy;
    hide Cleared;
    hide RanCleared;
    hide SameRecord;
    forall c | Own(s0, t, c) ensures c in s'.calls && s'.calls[c] == s.calls[c] {
      assert Own(s, t, c);
      assert Own(s', t, c);
    }
  }

  /** A worker of another task stays apart from this one. */
  lemma OtherTurnApart(hash: string -> string, s: Store, u: Id, pc: WorkerPc, now: nat, input: Input, t: Id)
    requires u != t && u in s.tasks && s.tasks[u].taskId == u && LR.PcOwns(pc, u) && LR.PcHolds(pc, s.tasks[u].state)
    requires SqlRuns.PcCopies(s, u, pc) && SqlRuns.Keyed(s, now)
    ensures var turn := WorkerTurn(hash, s, u, pc, now, input);
            && (turn.call.Some? && !turn.call.value.PutApproval? ==> Apart(s, turn.call, t))
            && (turn.ran.Some? && turn.ran.value.gate.Some? ==> turn.ran.value.call.taskId != t)
  {
    hide IsApproved;
    hide ReadSummary;
    hide CompletionSummary;
    hide ListCalls;
    hide Linked;
    hide Legal;
  }

  lemma OtherStepApart(hash: string -> string, w: World, l: Label, t: Id)
    requires SqlRuns.Inv(w) && Leaves(hash, w, l, t)
    requires t in w.store.tasks && w.store.tasks[t].state in {Approved, Completed}
    requires l.Work? ==> l.taskId != t || t !in w.workers
    ensures Apart(w.store, Effect(hash, w, l), t)
    ensures var e := Executes(hash, w, l); e.Some? && e.value.gate.Some? ==> e.value.call.taskId != t
  {
    hide SqlRuns.Inv;
    hide Apart;
    hide Leaves;
    hide WorkerTurn;
    hide Effect;
    if l.Work? && l.taskId in w.workers {
      WorkerApart(hash, w, l, t);
    } else {
      ActorApart(hash, w, l, t);
    }
  }

  lemma WorkerApart(hash: string -> string, w: World, l: Label, t: Id)
    requires SqlRuns.Inv(w) && Leaves(hash, w, l, t) && l.Work? && l.taskId in w.workers && l.taskId != t
    ensures Apart(w.store, Effect(hash, w, l), t)
    ensures var e := Executes(hash, w, l); e.Some? && e.value.gate.Some? ==> e.value.call.taskId != t
  {
    hide LR.Inv;
    hide LR.PcOwns;
    hide LR.PcHolds;
    hide SqlRuns.Keyed;
    hide SqlRuns.Stamped;
    hide SqlRuns.PcCopies;
    hide WorkerTurn;
    hide Linked;
    hide Legal;
    LR.PcFacts(w, l.taskId);
    OtherTurnApart(hash, w.store, l.taskId, w.workers[l.taskId], w.clock, l.input, t);
  }

  lemma ActorApart(hash: string -> string, w: World, l: Label, t: Id)
    requires SqlRuns.Inv(w) && Leaves(hash, w, l, t)
    requires t in w.store.tasks && w.store.tasks[t].state in {Approved, Completed}
    requires l.Work? ==> l.taskId !in w.workers
    ensures Apart(w.store, Effect(hash, w, l), t)
  {
    hide SqlRuns.CopiesOk;
    hide SqlRuns.Stamped;
    hide LR.TaskOk;
    hide WorkerTurn;
    hide Linked;
  }

  lemma OtherWorkers(hash: string -> string, w: World, l: Label, t: Id)
    requires t in w.store.tasks && w.store.tasks[t].state in {Approved, Completed}
    requires t !in w.workers ==> w.store.tasks[t].state == Completed
    requires (l.Work? ==> l.taskId != t || t !in w.workers) && (l.Crash? ==> l.taskId != t)
    ensures LR.PcOf(Next(hash, w, l), t) == LR.PcOf(w, t)
  {
    hide WorkerTurn;
    hide ApproverTurn;
    hide Exec;
  }

  lemma OtherStep(hash: string -> string, w0: World, w: World, l: Label, t: Id)
    requires SqlRuns.Inv(w) && Resuming(hash, w0, w, t) && Leaves(hash, w, l, t)
    requires l.Work? ==> l.taskId != t || t !in w.workers
    ensures Resuming(hash, w0, Next(hash, w, l), t)
  {
    hide SqlRuns.Inv;
    hide Stage;
    hide SameView;
    hide Apart;
    hide Unmoved;
    hide Leaves;
    hide Effect;
    hide Executes;
    var w' := Next(hash, w, l);
    ViewHasTask(w0.store, w.store, t);
    LeavesWorker(hash, w, l, t);
    OtherStepApart(hash, w, l, t);
    OtherWorkers(hash, w, l, t);
    ApartUnmoved(w.store, Effect(hash, w, l), t);
    ViewStays(w0.store, w.store, w'.store, t);
    StageStays(hash, w0.store, w.store, w'.store, t, LR.PcOf(w, t), Since(w0, w, t));
    var e := Executes(hash, w, l);
    if e.Some? {
      OwnRunsAppend(w.execs, e.value, t);
    }
    UnmovedRow(w.store, w'.store, t);
    assert OwnRuns(w'.execs, t) == OwnRuns(w.execs, t);
    assert LR.PcOf(w', t) == LR.PcOf(w, t);
    assert Since(w0, w', t) == Since(w0, w, t);
    assert Stage(hash, w0.store, w'.store, t, LR.PcOf(w', t), Since(w0, w', t));
    assert t !in w'.workers ==> t !in w.workers;
  }

  lemma ViewHasTask(s0: Store, s: Store, t: Id)
    requires SameView(s0, s, t)
    ensures t in s.tasks && t in s0.tasks
  {
  }

  lemma UnmovedRow(s: Store, s': Store, t: Id)
    requires Unmoved(s, s', t)
    ensures t in s'.tasks && s'.tasks[t] == s.tasks[t]
  {
  }

  lemma LeavesWorker(hash: string -> string, w: World, l: Label, t: Id)
    requires Leaves(hash, w, l, t)
    ensures l.Crash? ==> l.taskId != t
  {
  }

  // ---- Steps of the task's own worker --------------------------------------------------------

  function RunOf(hash: string -> string, s0: Store, call: ToolCall, out: Outcome): seq<Execution> {
    if Cleared(hash, s0, call) then [Execution(call, Some(s0.approvals[call.approvalRecordId.value]), out)] else []
  }

  /** One call is settled, by one upsert or by none. */
  lemma SettleProgress(hash: string -> string, s0: Store, s: Store, t: Id, calls: seq<ToolCall>, k: nat,
                       runs: seq<Execution>, now: ToolCall, out: Outcome)
    requires Progress(hash, s0, s, t, calls, k, runs) && k < |calls| && SettledBy(hash, s0, calls[k], now)
    requires Cleared(hash, s0, calls[k]) ==> RecordedFrom(now, out)
    ensures Progress(hash, s0, Exec(s, PutCall(now)), t, calls, k + 1, runs + RunOf(hash, s0, calls[k], out))
    ensures now == calls[k] ==> Progress(hash, s0, s, t, calls, k + 1, runs + RunOf(hash, s0, calls[k], out))
  {
    hide Cleared;
    hide Refused;
    RanStep(hash, s0, calls, k, runs, t, out);
    RecordedStep(hash, s0, s, calls, k, runs, now, out);
    assert !Cleared(hash, s0, calls[k]) ==> runs + RunOf(hash, s0, calls[k], out) == runs;
    assert now.callId == calls[k].callId;
    assert forall i :: 0 <= i < |calls| && i != k ==> calls[i].callId != calls[k].callId;
    hide SettledBy;
    hide RanCleared;
    hide RunOf;
    hide Recorded;
  }

  lemma RecordedStep(hash: string -> string, s0: Store, s: Store, calls: seq<ToolCall>, k: nat, runs: seq<Execution>,
                     now: ToolCall, out: Outcome)
    requires k < |calls| && (Cleared(hash, s0, calls[k]) ==> RecordedFrom(now, out))
    ensures forall was, held :: Recorded(runs, was, held) ==> Recorded(runs + RunOf(hash, s0, calls[k], out), was, held)
    ensures Cleared(hash, s0, calls[k]) ==> Recorded(runs + RunOf(hash, s0, calls[k], out), calls[k], now)
  {
    hide Cleared;
    hide RecordedFrom;
    var more := runs + RunOf(hash, s0, calls[k], out);
    forall was, held | Recorded(runs, was, held) ensures Recorded(more, was, held) {
      var j :| 0 <= j < |runs| && runs[j].call == was && RecordedFrom(held, runs[j].outcome);
      assert more[j] == runs[j];
    }
    if Cleared(hash, s0, calls[k]) {
      assert more[|runs|].call == calls[k];
    }
  }

  lemma ProgressDone(hash: string -> string, s0: Store, s: Store, t: Id, calls: seq<ToolCall>, runs: seq<Execution>)
    requires Progress(hash, s0, s, t, calls, |calls|, runs)
    ensures Done(hash, s0, s, t, runs)
  {
    hide Cleared;
    hide SettledBy;
    assert calls[..|calls|] == calls;
    forall c | Own(s0, t, c)
      ensures c in s.calls && SettledBy(hash, s0, s0.calls[c], s.calls[c])
      ensures Cleared(hash, s0, s0.calls[c]) ==> Recorded(runs, s0.calls[c], s.calls[c])
    {
      var i :| 0 <= i < |calls| && calls[i] == s0.calls[c];
    }
  }

  lemma StageAfter(hash: string -> string, s0: Store, s: Store, t: Id, calls: seq<ToolCall>, k: nat,
                   runs: seq<Execution>)
    requires t in s0.tasks && Progress(hash, s0, s, t, calls, k, runs)
    ensures Stage(hash, s0, s, t, Some(AfterCall(calls, k)), runs)
  {
    if k == |calls| {
      ProgressDone(hash, s0, s, t, calls, runs);
    }
    hide Progress;
    hide Done;
  }

  /** Settling a call of the task keeps its view: owner, tenant and link stay. */
  lemma SettledView(s0: Store, s: Store, t: Id, now: ToolCall)
    requires SameView(s0, s, t) && Own(s, t, now.callId)
    requires now.taskId == s.calls[now.callId].taskId && now.tenantId == s.calls[now.callId].tenantId
    requires now.approvalRecordId == s.calls[now.callId].approvalRecordId
    ensures SameView(s0, Exec(s, PutCall(now)), t)
  {
    var s' := Exec(s, PutCall(now));
    assert forall c :: Own(s', t, c) <==> Own(s, t, c);
    assert s'.approvals == s.approvals;
    hide Own;
  }

  /** What a turn of the resuming worker leaves. */
  ghost predicate TurnResumes(hash: string -> string, s0: Store, s: Store, t: Id, turn: Turn, runs: seq<Execution>)
    requires t in s0.tasks
  {
    var s' := ExecSome(s, turn.call);
    && SameView(s0, s', t) && s'.tasks[t].state == (if turn.next.None? then Completed else Approved)
    && (turn.ran.Some? ==> turn.ran.value.gate.Some? && turn.ran.value.call.taskId == t)
    && Stage(hash, s0, s', t, turn.next, runs + (if turn.ran.Some? then [turn.ran.value] else []))
  }

  lemma BeginTurn(hash: string -> string, s0: Store, s: Store, t: Id, pc: WorkerPc, now: nat, input: Input,
                  runs: seq<Execution>)
    requires SameView(s0, s, t) && s.tasks[t].state == Approved && Stage(hash, s0, s, t, Some(pc), runs)
    requires pc.Resume? || pc.ResumeRecheck?
    ensures TurnResumes(hash, s0, s, t, WorkerTurn(hash, s, t, pc, now, input), runs)
  {
    assert runs + [] == runs;
    hide SameRecord;
    hide Own;
  }

  lemma ListedSame(s0: Store, s: Store, t: Id, calls: seq<ToolCall>)
    requires SameView(s0, s, t) && Listing(s, t, calls)
    requires forall c :: Own(s0, t, c) ==> c in s.calls && s.calls[c] == s0.calls[c]
    ensures Listing(s0, t, calls)
  {
    hide Own;
  }

  lemma ListTurn(hash: string -> string, s0: Store, s: Store, t: Id, pc: WorkerPc, now: nat, input: Input,
                 runs: seq<Execution>)
    requires SameView(s0, s, t) && s.tasks[t].state == Approved && Stage(hash, s0, s, t, Some(pc), runs)
    requires pc.ListPending? && Below(s, now)
    ensures TurnResumes(hash, s0, s, t, WorkerTurn(hash, s, t, pc, now, input), runs)
  {
    var calls := ListCalls(s.calls, s.callOrder, t, s.tasks[t].tenantId);
    ListingIs(s, now, t);
    ListedSame(s0, s, t, calls);
    assert Progress(hash, s0, s, t, calls, 0, []);
    StageAfter(hash, s0, s, t, calls, 0, []);
    assert runs + [] == [];
    hide Stage;
    hide SameView;
    hide Listing;
    hide Progress;
    hide ListCalls;
    hide AfterCall;
  }

  lemma FetchStep(hash: string -> string, s0: Store, s: Store, t: Id, pc: WorkerPc, now: nat, input: Input,
                  runs: seq<Execution>)
    requires SameView(s0, s, t) && s.tasks[t].state == Approved && Stage(hash, s0, s, t, Some(pc), runs)
    requires pc.FetchRecord?
    ensures TurnResumes(hash, s0, s, t, WorkerTurn(hash, s, t, pc, now, input), runs)
  {
    var calls, k := pc.calls, pc.k;
    assert Own(s0, t, calls[k].callId) && s0.calls[calls[k].callId] == calls[k];
    assert calls[k].approvalRecordId.Some? ==> SameRecord(s0, s, calls[k].approvalRecordId.value);
    assert runs + [] == runs;
    if !(calls[k].approvalRecordId.Some? && calls[k].approvalRecordId.value in s0.approvals) {
      assert SettledBy(hash, s0, calls[k], calls[k]) && RunOf(hash, s0, calls[k], NO_OUTCOME) == [];
      SettleProgress(hash, s0, s, t, calls, k, runs, calls[k], NO_OUTCOME);
      StageAfter(hash, s0, s, t, calls, k + 1, runs);
    }
    hide Progress;
    hide SameView;
    hide AfterCall;
    hide SettledBy;
  }

  /** The call of a fetched record, once it is settled by that record. */
  lemma SettleStage(hash: string -> string, s0: Store, s: Store, t: Id, pc: WorkerPc, runs: seq<Execution>,
                    settled: ToolCall, out: Outcome)
    requires SameView(s0, s, t) && pc.Settle? && Stage(hash, s0, s, t, Some(pc), runs)
    requires settled == if IsApproved(hash, pc.record, pc.calls[pc.k].parameters) then ExecutedCall(pc.calls[pc.k], out)
                        else if pc.record.decision == Reject then pc.calls[pc.k].(status := CallRejected)
                        else pc.calls[pc.k]
    ensures SameView(s0, Exec(s, PutCall(settled)), t)
    ensures var after := Some(AfterCall(pc.calls, pc.k + 1));
            var more := runs + RunOf(hash, s0, pc.calls[pc.k], out);
            && Stage(hash, s0, Exec(s, PutCall(settled)), t, after, more)
            && (settled == pc.calls[pc.k] ==> Stage(hash, s0, s, t, after, more))
  {
    hide IsApproved;
    hide AfterCall;
    var calls, k, call := pc.calls, pc.k, pc.calls[pc.k];
    assert Own(s0, t, call.callId) && s0.calls[call.callId] == call && s.calls[call.callId] == call;
    assert IsApproved(hash, pc.record, call.parameters) <==> Cleared(hash, s0, call);
    assert Refused(s0, call) <==> pc.record.decision == Reject;
    SettleProgress(hash, s0, s, t, calls, k, runs, settled, out);
    SettledView(s0, s, t, settled);
    StageAfter(hash, s0, Exec(s, PutCall(settled)), t, calls, k + 1, runs + RunOf(hash, s0, call, out));
    if settled == call {
      StageAfter(hash, s0, s, t, calls, k + 1, runs + RunOf(hash, s0, call, out));
    }
    hide Progress;
    hide SameView;
  }

  lemma SettleTurn(hash: string -> string, s0: Store, s: Store, t: Id, pc: WorkerPc, now: nat, input: Input,
                   runs: seq<Execution>)
    requires SameView(s0, s, t) && s.tasks[t].state == Approved && Stage(hash, s0, s, t, Some(pc), runs)
    requires pc.Settle?
    ensures TurnResumes(hash, s0, s, t, WorkerTurn(hash, s, t, pc, now, input), runs)
  {
    hide IsApproved;
    hide AfterCall;
    var call := pc.calls[pc.k];
    assert Own(s0, t, call.callId) && s0.calls[call.callId] == call;
    assert runs + [] == runs;
    var cleared := IsApproved(hash, pc.record, call.parameters);
    assert cleared <==> Cleared(hash, s0, call);
    if !cleared || input.Ran? {
      var settled := if cleared then ExecutedCall(call, input.outcome)
                     else if pc.record.decision == Reject then call.(status := CallRejected) else call;
      SettleStage(hash, s0, s, t, pc, runs, settled, if cleared then input.outcome else NO_OUTCOME);
    }
    hide Stage;
    hide SameView;
    hide Cleared;
    hide Own;
  }

  lemma FinishTurn(hash: string -> string, s0: Store, s: Store, t: Id, pc: WorkerPc, now: nat, input: Input,
                   runs: seq<Execution>)
    requires SameView(s0, s, t) && s.tasks[t].state == Approved && Stage(hash, s0, s, t, Some(pc), runs)
    requires pc.Finish?
    ensures TurnResumes(hash, s0, s, t, WorkerTurn(hash, s, t, pc, now, input), runs)
  {
    var s' := ExecSome(s, WorkerTurn(hash, s, t, pc, now, input).call);
    assert runs + [] == runs;
    assert s'.calls == s.calls && s'.approvals == s.approvals;
    assert forall c :: Own(s', t, c) <==> Own(s, t, c);
    hide SettledBy;
    hide Cleared;
    hide SameRecord;
    hide Own;
  }

  lemma OwnTurn(hash: string -> string, s0: Store, s: Store, t: Id, pc: WorkerPc, now: nat, input: Input,
                runs: seq<Execution>)
    requires SameView(s0, s, t) && s.tasks[t].state == Approved && Stage(hash, s0, s, t, Some(pc), runs)
    requires Below(s, now)
    ensures TurnResumes(hash, s0, s, t, WorkerTurn(hash, s, t, pc, now, input), runs)
  {
    if pc.Resume? || pc.ResumeRecheck? {
      BeginTurn(hash, s0, s, t, pc, now, input, runs);
    } else if pc.ListPending? {
      ListTurn(hash, s0, s, t, pc, now, input, runs);
    } else if pc.FetchRecord? {
      FetchStep(hash, s0, s, t, pc, now, input, runs);
    } else if pc.Settle? {
      SettleTurn(hash, s0, s, t, pc, now, input, runs);
    } else {
      FinishTurn(hash, s0, s, t, pc, now, input, runs);
    }
    hide WorkerTurn;
    hide TurnResumes;
    hide Progress;
    hide SameView;
    hide Done;
  }

  lemma InvBelow(w: World)
    requires SqlRuns.Inv(w)
    ensures Below(w.store, w.clock)
  {
    hide LR.Inv;
  }

  lemma OwnStep(hash: string -> string, w0: World, w: World, t: Id, input: Input)
    requires SqlRuns.Inv(w) && Resuming(hash, w0, w, t) && t in w.workers
    ensures Resuming(hash, w0, Next(hash, w, Work(t, input)), t)
  {
    hide WorkerTurn;
    hide SqlRuns.Inv;
    hide Stage;
    hide SameView;
    hide Below;
    hide Next;
    StillApproved(hash, w0, w, t);
    InvBelow(w);
    var turn, w' := WorkShows(hash, w, t, input);
    OwnTurn(hash, w0.store, w.store, t, w.workers[t], w.clock, input, Since(w0, w, t));
    assert Since(w0, w', t) == Since(w0, w, t) + (if turn.ran.Some? then [turn.ran.value] else []);
    ViewHasTask(w0.store, w'.store, t);
  }

  /** While its worker is in the resume, the task is approved. */
  lemma StillApproved(hash: string -> string, w0: World, w: World, t: Id)
    requires SqlRuns.Inv(w) && Resuming(hash, w0, w, t) && t in w.workers
    ensures t in w.store.tasks && w.store.tasks[t].state == Approved
  {
    LR.PcFacts(w, t);
    hide Progress;
    hide Done;
    hide NotBegun;
  }

  /** How a turn of the task's worker shows in the world. */
  lemma WorkShows(hash: string -> string, w: World, t: Id, input: Input) returns (turn: Turn, w': World)
    requires t in w.workers && t in w.store.tasks
    ensures turn == WorkerTurn(hash, w.store, t, w.workers[t], w.clock, input) && w' == Next(hash, w, Work(t, input))
    ensures w'.store == ExecSome(w.store, turn.call) && LR.PcOf(w', t) == turn.next
    ensures t in w'.workers <==> turn.next.Some?
    ensures OwnRuns(w'.execs, t)
         == OwnRuns(w.execs, t) + (if turn.ran.Some? && turn.ran.value.gate.Some? && turn.ran.value.call.taskId == t
                                   then [turn.ran.value] else [])
  {
    hide WorkerTurn;
    turn := WorkerTurn(hash, w.store, t, w.workers[t], w.clock, input);
    w' := Next(hash, w, Work(t, input));
    if turn.ran.Some? {
      OwnRunsAppend(w.execs, turn.ran.value, t);
    }
  }

  // ---- Whole runs ----------------------------------------------------------------------------

  lemma StartResumes(hash: string -> string, w: World, t: Id)
    requires SqlRuns.Inv(w) && t in w.workers && w.workers[t].Resume?
    ensures Resuming(hash, w, w, t)
  {
    LR.PcFacts(w, t);
    hide SqlRuns.CopiesOk;
    hide SqlRuns.Stamped;
    hide LR.TaskOk;
    hide LR.PcOwns;
    hide LR.PcHolds;
  }

  lemma {:induction false} RunResumes(hash: string -> string, w0: World, labels: seq<Label>, t: Id)
    requires SqlRuns.Inv(w0) && t in w0.workers && w0.workers[t].Resume? && LeavesAll(hash, w0, labels, t)
    ensures SqlRuns.Inv(Run(hash, w0, labels)) && Resuming(hash, w0, Run(hash, w0, labels), t)
  {
    if labels == [] {
      StartResumes(hash, w0, t);
    } else {
      var before, l := labels[..|labels| - 1], labels[|labels| - 1];
      RunResumes(hash, w0, before, t);
      var w := Run(hash, w0, before);
      SqlRuns.InvKept(hash, w, l);
      if l.Work? && l.taskId == t && t in w.workers {
        OwnStep(hash, w0, w, t, l.input);
      } else {
        OtherStep(hash, w0, w, l, t);
      }
    }
    hide Next;
    hide Leaves;
    hide Resuming;
    hide SqlRuns.Inv;
  }

  /** From any reachable world whose worker of t is about to resume, over any interleaving that leaves t's
      calls, their records and its worker alone: once t is completed, each of its calls is settled by its
      record as it stood, and exactly the cleared ones ran since, each once. */
  lemma ResumeCompletes(hash: string -> string, past: seq<Label>, w0: World, labels: seq<Label>, w: World, t: Id)
    requires w0 == Run(hash, INITIAL, past) && w == Run(hash, w0, labels)
    requires t in w0.workers && w0.workers[t].Resume? && LeavesAll(hash, w0, labels, t)
    requires t in w.store.tasks && w.store.tasks[t].state == Completed
    ensures t in w0.store.tasks && OwnRuns(w0.execs, t) <= OwnRuns(w.execs, t)
    ensures Done(hash, w0.store, w.store, t, Since(w0, w, t))
  {
    hide Run;
    hide LeavesAll;
    hide SqlRuns.Inv;
    hide Stage;
    hide SameView;
    SqlRuns.InvAlways(hash, past);
    RunResumes(hash, w0, labels, t);
    ResumingEnds(hash, w0, w, t);
    if t in w.workers {
      StillApproved(hash, w0, w, t);
    }
  }

  lemma ResumingEnds(hash: string -> string, w0: World, w: World, t: Id)
    requires Resuming(hash, w0, w, t)
    ensures t in w0.store.tasks
    ensures t !in w.workers ==> Done(hash, w0.store, w.store, t, Since(w0, w, t))
  {
    hide Done;
  }

  lemma {:induction false} RunJoins(hash: string -> string, w: World, past: seq<Label>, labels: seq<Label>)
    ensures Run(hash, Run(hash, w, past), labels) == Run(hash, w, past + labels)
  {
    hide Next;
    if labels == [] {
      assert past + labels == past;
    } else {
      var before := labels[..|labels| - 1];
      RunJoins(hash, w, past, before);
      assert (past + labels)[..|past + labels| - 1] == past + before;
    }
  }

  lemma DoneRan(hash: string -> string, s0: Store, s: Store, t: Id, runs: seq<Execution>, c: Id) returns (k: nat)
    requires Done(hash, s0, s, t, runs) && Own(s0, t, c) && Cleared(hash, s0, s0.calls[c])
    ensures k < |runs| && runs[k].call == s0.calls[c] && runs[k].gate.Some?
  {
    hide Cleared;
    hide SettledBy;
    hide RecordedFrom;
    assert Recorded(runs, s0.calls[c], s.calls[c]);
    k :| 0 <= k < |runs| && runs[k].call == s0.calls[c];
  }

  /** Over the whole run, when nothing crashed in it, each cleared call is executed exactly once. */
  lemma ClearedRunExactlyOnce(hash: string -> string, past: seq<Label>, w0: World, labels: seq<Label>, w: World, t: Id,
                              c: Id) returns (i: nat)
    requires w0 == Run(hash, INITIAL, past) && w == Run(hash, w0, labels) && CrashFree(past) && CrashFree(labels)
    requires t in w0.workers && w0.workers[t].Resume? && LeavesAll(hash, w0, labels, t)
    requires t in w.store.tasks && w.store.tasks[t].state == Completed
    requires Own(w0.store, t, c) && Cleared(hash, w0.store, w0.store.calls[c])
    ensures i < |w.execs| && w.execs[i].gate.Some? && w.execs[i].call == w0.store.calls[c]
    ensures forall j :: 0 <= j < |w.execs| && j != i ==>
              w.execs[j].gate.None? || w.execs[j].call.callId != w.execs[i].call.callId
  {
    hide Run;
    hide LeavesAll;
    hide Cleared;
    ResumeCompletes(hash, past, w0, labels, w, t);
    var runs := Since(w0, w, t);
    var k := DoneRan(hash, w0.store, w.store, t, runs, c);
    hide Done;
    hide Own;
    OwnRunsIn(w.execs, t);
    assert runs[k] == OwnRuns(w.execs, t)[|OwnRuns(w0.execs, t)| + k];
    i :| 0 <= i < |w.execs| && w.execs[i] == runs[k];
    RunJoins(hash, INITIAL, past, labels);
    forall j | 0 <= j < |w.execs| && w.execs[j].gate.Some? && w.execs[j].call.callId == w.execs[i].call.callId
      ensures j == i
    {
      if j < i {
        EO.ExecutesAtMostOnce(hash, past + labels, w, j, i);
      } else if i < j {
        EO.ExecutesAtMostOnce(hash, past + labels, w, i, j);
      }
    }
  }
}
