/** The protocol run on SQL reads: every actor acts on what the tables read back, so the rows its locals hold carry
    the database's time stamps. It stays in step with the in-memory run and makes the same calls. */
module SqlWorkers {
  import opened Lifecycle
  import opened Records
  import opened Protocol
  import opened SqlTables
  import opened SqlRuns

  // ---- Equal up to task time stamps ----------------------------------------------------------

  function Bare(task: TaskRecord): TaskRecord {
    task.(createdAt := 0, updatedAt := 0)
  }

  /** The same point of `process`, with locals equal up to task time stamps. */
  predicate Alike(pc: WorkerPc, pc': WorkerPc) {
    match pc
    case Claim(task) => pc'.Claim? && pc' == Claim(pc'.task) && Bare(pc'.task) == Bare(task)
    case RunMesh(task) => pc'.RunMesh? && pc' == RunMesh(pc'.task) && Bare(pc'.task) == Bare(task)
    case HaltTask(task) => pc'.HaltTask? && pc' == HaltTask(pc'.task) && Bare(pc'.task) == Bare(task)
    case Recheck(task, result) => pc'.Recheck? && pc' == Recheck(pc'.task, result) && Bare(pc'.task) == Bare(task)
    case ReadCall(task, result, i, evidence) =>
      pc'.ReadCall? && pc' == ReadCall(pc'.task, result, i, evidence) && Bare(pc'.task) == Bare(task)
    case Complete(task, result, evidence) =>
      pc'.Complete? && pc' == Complete(pc'.task, result, evidence) && Bare(pc'.task) == Bare(task)
    case Summarize(done, summary) =>
      pc'.Summarize? && pc' == Summarize(pc'.done, summary) && Bare(pc'.done) == Bare(done)
    case OpenCall(task, result, j, tokens) =>
      pc'.OpenCall? && pc' == OpenCall(pc'.task, result, j, tokens) && Bare(pc'.task) == Bare(task)
    case OpenApproval(task, result, j, tokens, call) =>
      pc'.OpenApproval? && pc' == OpenApproval(pc'.task, result, j, tokens, call) && Bare(pc'.task) == Bare(task)
    case LinkCall(task, result, j, tokens, call, r) =>
      pc'.LinkCall? && pc' == LinkCall(pc'.task, result, j, tokens, call, r) && Bare(pc'.task) == Bare(task)
    case Stash(current, tokens) =>
      pc'.Stash? && pc' == Stash(pc'.current, tokens) && Bare(pc'.current) == Bare(current)
    case ResumeRecheck(task) => pc'.ResumeRecheck? && pc' == ResumeRecheck(pc'.task) && Bare(pc'.task) == Bare(task)
    case ListPending(task) => pc'.ListPending? && pc' == ListPending(pc'.task) && Bare(pc'.task) == Bare(task)
    case _ => pc' == pc
  }

  predicate AlikeSome(pc: Option<WorkerPc>, pc': Option<WorkerPc>) {
    if pc.Some? then pc'.Some? && Alike(pc.value, pc'.value) else pc'.None?
  }

  function BareCall(c: RepoCall): RepoCall {
    match c
    case PutTask(task) => PutTask(Bare(task))
    case _ => c
  }

  function BareCallSome(c: Option<RepoCall>): Option<RepoCall> {
    if c.Some? then Some(BareCall(c.value)) else None
  }

  predicate SameTurn(a: Turn, b: Turn) {
    BareCallSome(a.call) == BareCallSome(b.call) && AlikeSome(a.next, b.next) && a.ran == b.ran
  }

  /** The two stores read the same, task time stamps aside. */
  ghost predicate SameReads(s: Store, s': Store) {
    && (forall t :: t in s.tasks <==> t in s'.tasks)
    && (forall t :: t in s.tasks ==> Bare(s.tasks[t]) == Bare(s'.tasks[t]))
    && s'.calls == s.calls && s'.callOrder == s.callOrder && s'.approvals == s.approvals
  }

  // ---- What the tables read back -------------------------------------------------------------

  /** The store the tables read back as, listed in the order the rows were inserted. */
  function Reads(db: Db, callOrder: seq<Id>, approvalOrder: seq<Id>): Store {
    Store(map t | t in db.tasks :: ReadTask(db, t), db.events, db.calls, callOrder, db.approvals, approvalOrder,
          db.gateway)
  }

  lemma AgreeReads(s: Store, db: Db)
    requires Agree(s, db)
    ensures SameReads(s, Reads(db, s.callOrder, s.approvalOrder))
  {
    forall t | t in s.tasks ensures Bare(s.tasks[t]) == Bare(ReadTask(db, t)) {
      assert SameTask(s.tasks[t], ReadTask(db, t));
    }
    hide ReadTask;
  }

  // ---- One turn ------------------------------------------------------------------------------

  lemma SameRow(s: Store, s': Store, t: Id)
    requires SameReads(s, s') && t in s.tasks
    ensures t in s'.tasks && Bare(s'.tasks[t]) == Bare(s.tasks[t]) && s'.tasks[t].state == s.tasks[t].state
  {
    assert Bare(s.tasks[t]).state == s.tasks[t].state && Bare(s'.tasks[t]).state == s'.tasks[t].state;
  }

  lemma SameCalls(s: Store, s': Store)
    requires SameReads(s, s')
    ensures s'.calls == s.calls && s'.callOrder == s.callOrder && s'.approvals == s.approvals
  {
  }

  lemma SameMoves(s: Store, s': Store, t: Id)
    requires SameReads(s, s') && t in s.tasks
    ensures t in s'.tasks && Bare(s'.tasks[t]) == Bare(s.tasks[t]) && s'.tasks[t].state == s.tasks[t].state
    ensures forall target :: Legal(s', t, target) <==> Legal(s, t, target)
    ensures s'.calls == s.calls && s'.callOrder == s.callOrder && s'.approvals == s.approvals
  {
    assert Bare(s.tasks[t]).state == s.tasks[t].state && Bare(s'.tasks[t]).state == s'.tasks[t].state;
  }

  lemma BareFields(a: TaskRecord, b: TaskRecord)
    requires Bare(a) == Bare(b)
    ensures a.taskId == b.taskId && a.tenantId == b.tenantId && a.requesterId == b.requesterId && a.state == b.state
    ensures a.metadata == b.metadata
  {
    assert Bare(a).taskId == a.taskId;
  }

  lemma BareChanged(a: TaskRecord, b: TaskRecord, state: TaskState, at: nat, summary: Option<string>, m: Metadata)
    requires Bare(a) == Bare(b)
    ensures Bare(a.(state := state, updatedAt := at)) == Bare(b.(state := state, updatedAt := at))
    ensures Bare(a.(resultSummary := summary)) == Bare(b.(resultSummary := summary))
    ensures Bare(a.(metadata := m)) == Bare(b.(metadata := m))
  {
  }

  lemma ClaimTurn(hash: string -> string, s: Store, s': Store, t: Id, task: TaskRecord, task': TaskRecord, now: nat,
                  input: Input)
    requires SameReads(s, s') && t in s.tasks && t in s'.tasks && Bare(task) == Bare(task')
    ensures SameTurn(WorkerTurn(hash, s, t, Claim(task), now, input), WorkerTurn(hash, s', t, Claim(task'), now, input))
  {
    SameMoves(s, s', t);
    hide SameReads;
    hide Legal;
    hide Bare;
  }

  lemma MeshTurn(hash: string -> string, s: Store, s': Store, t: Id, task: TaskRecord, task': TaskRecord, now: nat,
                 input: Input)
    requires SameReads(s, s') && t in s.tasks && t in s'.tasks && Bare(task) == Bare(task')
    ensures SameTurn(WorkerTurn(hash, s, t, RunMesh(task), now, input),
                     WorkerTurn(hash, s', t, RunMesh(task'), now, input))
  {
    hide SameReads;
    hide Bare;
  }

  lemma HaltTurn(hash: string -> string, s: Store, s': Store, t: Id, task: TaskRecord, task': TaskRecord, now: nat,
                 input: Input)
    requires SameReads(s, s') && t in s.tasks && t in s'.tasks && Bare(task) == Bare(task')
    ensures SameTurn(WorkerTurn(hash, s, t, HaltTask(task), now, input),
                     WorkerTurn(hash, s', t, HaltTask(task'), now, input))
  {
    hide SameReads;
    hide Bare;
  }

  lemma RecheckTurn(hash: string -> string, s: Store, s': Store, t: Id, task: TaskRecord, task': TaskRecord,
                    result: MeshResult, now: nat, input: Input)
    requires SameReads(s, s') && t in s.tasks && t in s'.tasks && Bare(task) == Bare(task')
    ensures SameTurn(WorkerTurn(hash, s, t, Recheck(task, result), now, input),
                     WorkerTurn(hash, s', t, Recheck(task', result), now, input))
  {
    assert s'.tasks[t].state == s.tasks[t].state by {
      SameRow(s, s', t);
    }
    hide SameReads;
    hide Bare;
    hide IsTerminal;
  }

  lemma ReadTurn(hash: string -> string, s: Store, s': Store, t: Id, task: TaskRecord, task': TaskRecord,
                 result: MeshResult, i: nat, evidence: seq<string>, now: nat, input: Input)
    requires SameReads(s, s') && t in s.tasks && t in s'.tasks && Bare(task) == Bare(task')
    ensures SameTurn(WorkerTurn(hash, s, t, ReadCall(task, result, i, evidence), now, input),
                     WorkerTurn(hash, s', t, ReadCall(task', result, i, evidence), now, input))
  {
    hide SameReads;
    BareFields(task, task');
    hide Bare;
    hide ReadSummary;
  }

  lemma CompleteTurn(hash: string -> string, s: Store, s': Store, t: Id, task: TaskRecord, task': TaskRecord,
                     result: MeshResult, evidence: seq<string>, now: nat, input: Input)
    requires SameReads(s, s') && t in s.tasks && t in s'.tasks && Bare(task) == Bare(task')
    ensures SameTurn(WorkerTurn(hash, s, t, Complete(task, result, evidence), now, input),
                     WorkerTurn(hash, s', t, Complete(task', result, evidence), now, input))
  {
    SameMoves(s, s', t);
    hide SameReads;
    hide Legal;
    BareChanged(s.tasks[t], s'.tasks[t], Completed, now, None, s.tasks[t].metadata);
    hide Bare;
    hide CompletionSummary;
  }

  lemma SummarizeTurn(hash: string -> string, s: Store, s': Store, t: Id, task: TaskRecord, task': TaskRecord,
                      summary: string, now: nat, input: Input)
    requires SameReads(s, s') && t in s.tasks && t in s'.tasks && Bare(task) == Bare(task')
    ensures SameTurn(WorkerTurn(hash, s, t, Summarize(task, summary), now, input),
                     WorkerTurn(hash, s', t, Summarize(task', summary), now, input))
  {
    hide SameReads;
    BareChanged(task, task', Completed, now, Some(summary), task.metadata);
    hide Bare;
  }

  lemma OpenCallTurn(hash: string -> string, s: Store, s': Store, t: Id, task: TaskRecord, task': TaskRecord,
                     result: MeshResult, j: nat, tokens: map<Id, Token>, now: nat, input: Input)
    requires SameReads(s, s') && t in s.tasks && t in s'.tasks && Bare(task) == Bare(task')
    ensures SameTurn(WorkerTurn(hash, s, t, OpenCall(task, result, j, tokens), now, input),
                     WorkerTurn(hash, s', t, OpenCall(task', result, j, tokens), now, input))
  {
    hide SameReads;
    BareFields(task, task');
    hide Bare;
  }

  lemma OpenTurn(hash: string -> string, s: Store, s': Store, t: Id, task: TaskRecord, task': TaskRecord,
                 result: MeshResult, j: nat, tokens: map<Id, Token>, call: ToolCall, now: nat, input: Input)
    requires SameReads(s, s') && t in s.tasks && t in s'.tasks && Bare(task) == Bare(task')
    ensures SameTurn(WorkerTurn(hash, s, t, OpenApproval(task, result, j, tokens, call), now, input),
                     WorkerTurn(hash, s', t, OpenApproval(task', result, j, tokens, call), now, input))
  {
    hide SameReads;
    hide Bare;
    hide PendingRecord;
  }

  lemma LinkTurn(hash: string -> string, s: Store, s': Store, t: Id, task: TaskRecord, task': TaskRecord,
                 result: MeshResult, j: nat, tokens: map<Id, Token>, call: ToolCall, r: Id, now: nat, input: Input)
    requires SameReads(s, s') && t in s.tasks && t in s'.tasks && Bare(task) == Bare(task')
    ensures SameTurn(WorkerTurn(hash, s, t, LinkCall(task, result, j, tokens, call, r), now, input),
                     WorkerTurn(hash, s', t, LinkCall(task', result, j, tokens, call, r), now, input))
  {
    hide SameReads;
    hide Bare;
  }

  lemma ReadBackTurn(hash: string -> string, s: Store, s': Store, t: Id, tokens: map<Id, Token>, now: nat, input: Input)
    requires SameReads(s, s') && t in s.tasks && t in s'.tasks
    ensures SameTurn(WorkerTurn(hash, s, t, ReadBack(tokens), now, input),
                     WorkerTurn(hash, s', t, ReadBack(tokens), now, input))
  {
    SameRow(s, s', t);
    hide SameReads;
    hide Bare;
  }

  lemma StashTurn(hash: string -> string, s: Store, s': Store, t: Id, task: TaskRecord, task': TaskRecord,
                  tokens: map<Id, Token>, now: nat, input: Input)
    requires SameReads(s, s') && t in s.tasks && t in s'.tasks && Bare(task) == Bare(task')
    ensures SameTurn(WorkerTurn(hash, s, t, Stash(task, tokens), now, input),
                     WorkerTurn(hash, s', t, Stash(task', tokens), now, input))
  {
    hide SameReads;
    BareFields(task, task');
    BareChanged(task, task', Completed, now, None, Stashed(task.metadata, tokens));
    hide Bare;
    hide Stashed;
  }

  lemma ParkTurn(hash: string -> string, s: Store, s': Store, t: Id, now: nat, input: Input)
    requires SameReads(s, s') && t in s.tasks && t in s'.tasks
    ensures SameTurn(WorkerTurn(hash, s, t, Park, now, input), WorkerTurn(hash, s', t, Park, now, input))
  {
    hide SameReads;
    hide Bare;
  }

  lemma ResumeTurn(hash: string -> string, s: Store, s': Store, t: Id, now: nat, input: Input)
    requires SameReads(s, s') && t in s.tasks && t in s'.tasks
    ensures SameTurn(WorkerTurn(hash, s, t, Resume, now, input), WorkerTurn(hash, s', t, Resume, now, input))
  {
    SameRow(s, s', t);
    hide SameReads;
    hide Bare;
  }

  lemma ResumeRecheckTurn(hash: string -> string, s: Store, s': Store, t: Id, task: TaskRecord, task': TaskRecord,
                          now: nat, input: Input)
    requires SameReads(s, s') && t in s.tasks && t in s'.tasks && Bare(task) == Bare(task')
    ensures SameTurn(WorkerTurn(hash, s, t, ResumeRecheck(task), now, input),
                     WorkerTurn(hash, s', t, ResumeRecheck(task'), now, input))
  {
    assert s'.tasks[t].state == s.tasks[t].state by {
      SameRow(s, s', t);
    }
    hide SameReads;
    var stops := IsTerminal(s.tasks[t].state);
    assert WorkerTurn(hash, s, t, ResumeRecheck(task), now, input)
        == Quiet(if stops then None else Some(ListPending(task)));
    assert WorkerTurn(hash, s', t, ResumeRecheck(task'), now, input)
        == Quiet(if stops then None else Some(ListPending(task')));
    hide *;
    ListsAlike(task, task', stops);
  }

  lemma ListsAlike(task: TaskRecord, task': TaskRecord, stops: bool)
    requires Bare(task) == Bare(task')
    ensures SameTurn(Quiet(if stops then None else Some(ListPending(task))),
                     Quiet(if stops then None else Some(ListPending(task'))))
  {
  }

  lemma ListTurn(hash: string -> string, s: Store, s': Store, t: Id, task: TaskRecord, task': TaskRecord, now: nat,
                 input: Input)
    requires SameReads(s, s') && t in s.tasks && t in s'.tasks && Bare(task) == Bare(task')
    ensures SameTurn(WorkerTurn(hash, s, t, ListPending(task), now, input),
                     WorkerTurn(hash, s', t, ListPending(task'), now, input))
  {
    SameCalls(s, s');
    hide SameReads;
    BareFields(task, task');
    hide Bare;
    hide ListCalls;
  }

  lemma SelfTurn(turn: Turn)
    ensures SameTurn(turn, turn)
  {
  }

  lemma FetchTurn(hash: string -> string, s: Store, s': Store, t: Id, calls: seq<ToolCall>, k: nat, now: nat,
                  input: Input)
    requires SameReads(s, s') && t in s.tasks && t in s'.tasks
    ensures SameTurn(WorkerTurn(hash, s, t, FetchRecord(calls, k), now, input),
                     WorkerTurn(hash, s', t, FetchRecord(calls, k), now, input))
  {
    SameCalls(s, s');
    hide SameReads;
    SelfTurn(WorkerTurn(hash, s, t, FetchRecord(calls, k), now, input));
    hide Bare;
    hide SameTurn;
  }

  lemma SettleTurn(hash: string -> string, s: Store, s': Store, t: Id, calls: seq<ToolCall>, k: nat,
                   record: ApprovalRecord, now: nat, input: Input)
    requires SameReads(s, s') && t in s.tasks && t in s'.tasks
    ensures SameTurn(WorkerTurn(hash, s, t, Settle(calls, k, record), now, input),
                     WorkerTurn(hash, s', t, Settle(calls, k, record), now, input))
  {
    hide SameReads;
    SelfTurn(WorkerTurn(hash, s, t, Settle(calls, k, record), now, input));
    hide Bare;
    hide SameTurn;
    hide IsApproved;
    hide ExecutedCall;
  }

  lemma FinishTurn(hash: string -> string, s: Store, s': Store, t: Id, now: nat, input: Input)
    requires SameReads(s, s') && t in s.tasks && t in s'.tasks
    ensures SameTurn(WorkerTurn(hash, s, t, Finish, now, input), WorkerTurn(hash, s', t, Finish, now, input))
  {
    hide SameReads;
    hide Bare;
  }

  lemma FreshTurns(hash: string -> string, s: Store, s': Store, t: Id, pc: WorkerPc, pc': WorkerPc, now: nat,
                   input: Input)
    requires SameReads(s, s') && t in s.tasks && t in s'.tasks && Alike(pc, pc')
    requires pc.Claim? || pc.RunMesh? || pc.HaltTask? || pc.Recheck? || pc.ReadCall? || pc.Complete? || pc.Summarize?
    ensures SameTurn(WorkerTurn(hash, s, t, pc, now, input), WorkerTurn(hash, s', t, pc', now, input))
  {
    hide WorkerTurn;
    hide SameTurn;
    hide SameReads;
    hide Bare;
    match pc
    case Claim(task) => ClaimTurn(hash, s, s', t, task, pc'.task, now, input);
    case RunMesh(task) => MeshTurn(hash, s, s', t, task, pc'.task, now, input);
    case HaltTask(task) => HaltTurn(hash, s, s', t, task, pc'.task, now, input);
    case Recheck(task, result) => RecheckTurn(hash, s, s', t, task, pc'.task, result, now, input);
    case ReadCall(task, result, i, evidence) =>
      ReadTurn(hash, s, s', t, task, pc'.task, result, i, evidence, now, input);
    case Complete(task, result, evidence) => CompleteTurn(hash, s, s', t, task, pc'.task, result, evidence, now, input);
    case Summarize(done, summary) => SummarizeTurn(hash, s, s', t, done, pc'.done, summary, now, input);
  }

  lemma GatingTurns(hash: string -> string, s: Store, s': Store, t: Id, pc: WorkerPc, pc': WorkerPc, now: nat,
                    input: Input)
    requires SameReads(s, s') && t in s.tasks && t in s'.tasks && Alike(pc, pc')
    requires pc.OpenCall? || pc.OpenApproval? || pc.LinkCall? || pc.ReadBack? || pc.Stash? || pc.Park?
    ensures SameTurn(WorkerTurn(hash, s, t, pc, now, input), WorkerTurn(hash, s', t, pc', now, input))
  {
    hide WorkerTurn;
    hide SameTurn;
    hide SameReads;
    hide Bare;
    match pc
    case OpenCall(task, result, j, tokens) =>
      OpenCallTurn(hash, s, s', t, task, pc'.task, result, j, tokens, now, input);
    case OpenApproval(task, result, j, tokens, call) =>
      OpenTurn(hash, s, s', t, task, pc'.task, result, j, tokens, call, now, input);
    case LinkCall(task, result, j, tokens, call, r) =>
      LinkTurn(hash, s, s', t, task, pc'.task, result, j, tokens, call, r, now, input);
    case ReadBack(tokens) => ReadBackTurn(hash, s, s', t, tokens, now, input);
    case Stash(current, tokens) => StashTurn(hash, s, s', t, current, pc'.current, tokens, now, input);
    case Park => ParkTurn(hash, s, s', t, now, input);
  }

  lemma ResumeTurns(hash: string -> string, s: Store, s': Store, t: Id, pc: WorkerPc, pc': WorkerPc, now: nat,
                    input: Input)
    requires SameReads(s, s') && t in s.tasks && t in s'.tasks && Alike(pc, pc')
    requires pc.Resume? || pc.ResumeRecheck? || pc.ListPending? || pc.FetchRecord? || pc.Settle? || pc.Finish?
    ensures SameTurn(WorkerTurn(hash, s, t, pc, now, input), WorkerTurn(hash, s', t, pc', now, input))
  {
    hide WorkerTurn;
    hide SameTurn;
    hide SameReads;
    hide Bare;
    match pc
    case Resume => ResumeTurn(hash, s, s', t, now, input);
    case ResumeRecheck(task) => ResumeRecheckTurn(hash, s, s', t, task, pc'.task, now, input);
    case ListPending(task) => ListTurn(hash, s, s', t, task, pc'.task, now, input);
    case FetchRecord(calls, k) => FetchTurn(hash, s, s', t, calls, k, now, input);
    case Settle(calls, k, record) => SettleTurn(hash, s, s', t, calls, k, record, now, input);
    case Finish => FinishTurn(hash, s, s', t, now, input);
  }

  lemma Turns(hash: string -> string, s: Store, s': Store, t: Id, pc: WorkerPc, pc': WorkerPc, now: nat, input: Input)
    requires SameReads(s, s') && t in s.tasks && Alike(pc, pc')
    ensures t in s'.tasks
    ensures SameTurn(WorkerTurn(hash, s, t, pc, now, input), WorkerTurn(hash, s', t, pc', now, input))
  {
    SameMoves(s, s', t);
    hide WorkerTurn;
    hide SameTurn;
    hide SameReads;
    hide Alike;
    if pc.Resume? || pc.ResumeRecheck? || pc.ListPending? || pc.FetchRecord? || pc.Settle? || pc.Finish? {
      ResumeTurns(hash, s, s', t, pc, pc', now, input);
    } else if pc.OpenCall? || pc.OpenApproval? || pc.LinkCall? || pc.ReadBack? || pc.Stash? || pc.Park? {
      GatingTurns(hash, s, s', t, pc, pc', now, input);
    } else {
      FreshTurns(hash, s, s', t, pc, pc', now, input);
    }
  }

  // ---- Whole steps ---------------------------------------------------------------------------

  /** One step on what the tables read back; the call it makes goes to the tables. */
  function SqlNext(hash: string -> string, q: World, db: Db, l: Label, now: nat): (World, Db) {
    var c := Effect(hash, q, l);
    var db' := if c.Some? then SqlExec(db, c.value, now) else db;
    var q' := Next(hash, q, l);
    (q'.(store := Reads(db', q'.store.callOrder, q'.store.approvalOrder)), db')
  }

  /** The run of the protocol on SQL, with the database clock read at each step. */
  function SqlWorld(hash: string -> string, labels: seq<Label>, now: nat -> nat): (World, Db) {
    if labels == [] then (INITIAL, NO_ROWS)
    else
      var (q, db) := SqlWorld(hash, labels[..|labels| - 1], now);
      SqlNext(hash, q, db, labels[|labels| - 1], now(|labels|))
  }

  ghost predicate InStep(w: World, q: World, db: Db) {
    && q.store == Reads(db, w.store.callOrder, w.store.approvalOrder)
    && q.ingress == w.ingress && q.approvers == w.approvers && q.clock == w.clock
    && q.proposed == w.proposed && q.openedFor == w.openedFor && q.execs == w.execs
    && AllAlike(w.workers, q.workers)
  }

  /** Time stamps of tasks reach no table: the database sets its own. */
  lemma BareExec(db: Db, c: RepoCall, c': RepoCall, now: nat)
    requires BareCall(c) == BareCall(c')
    ensures SqlExec(db, c, now) == SqlExec(db, c', now)
  {
    if c.PutTask? {
      assert Bare(c.task).metadata == c.task.metadata && Bare(c'.task).metadata == c'.task.metadata;
    }
  }

  lemma BareExecSome(db: Db, c: Option<RepoCall>, c': Option<RepoCall>, now: nat)
    requires BareCallSome(c) == BareCallSome(c')
    ensures c.Some? <==> c'.Some?
    ensures c.Some? ==> SqlExec(db, c.value, now) == SqlExec(db, c'.value, now)
  {
    hide BareCall;
    hide SqlExec;
    if c.Some? {
      BareExec(db, c.value, c'.value, now);
    }
  }

  lemma OrdersAfter(s: Store, c: RepoCall)
    ensures Exec(s, c).callOrder
         == s.callOrder + (if c.PutCall? && c.call.callId !in s.calls then [c.call.callId] else [])
    ensures Exec(s, c).approvalOrder
         == s.approvalOrder + (if c.PutApproval? && c.record.recordId !in s.approvals then [c.record.recordId] else [])
  {
    hide Legal;
  }

  /** Calls equal up to task time stamps add the same rows in the same places. */
  lemma SameOrders(s: Store, s': Store, c: Option<RepoCall>, c': Option<RepoCall>)
    requires SameReads(s, s') && s'.approvalOrder == s.approvalOrder && BareCallSome(c) == BareCallSome(c')
    ensures ExecSome(s', c').callOrder == ExecSome(s, c).callOrder
    ensures ExecSome(s', c').approvalOrder == ExecSome(s, c).approvalOrder
  {
    hide Exec;
    hide Bare;
    SameCalls(s, s');
    hide SameReads;
    if c.Some? {
      OrdersAfter(s, c.value);
      OrdersAfter(s', c'.value);
    }
  }

  lemma WorkTurns(hash: string -> string, w: World, q: World, db: Db, t: Id, input: Input)
    requires Agree(w.store, db) && InStep(w, q, db) && t in w.workers && t in w.store.tasks
    ensures t in q.workers && t in q.store.tasks && SameReads(w.store, q.store) && Alike(w.workers[t], q.workers[t])
    ensures SameTurn(WorkerTurn(hash, w.store, t, w.workers[t], w.clock, input),
                     WorkerTurn(hash, q.store, t, q.workers[t], q.clock, input))
  {
    hide WorkerTurn;
    hide SameTurn;
    hide Alike;
    hide Agree;
    AgreeReads(w.store, db);
    Turns(hash, w.store, q.store, t, w.workers[t], q.workers[t], w.clock, input);
  }

  lemma SameEffects(hash: string -> string, w: World, q: World, db: Db, l: Label)
    requires Agree(w.store, db) && InStep(w, q, db)
    ensures SameReads(w.store, q.store)
    ensures BareCallSome(Effect(hash, w, l)) == BareCallSome(Effect(hash, q, l))
    ensures Executes(hash, q, l) == Executes(hash, w, l)
  {
    hide WorkerTurn;
    hide Agree;
    hide Alike;
    hide Bare;
    AgreeReads(w.store, db);
    hide Reads;
    if l.Work? && l.taskId in w.workers && l.taskId in w.store.tasks {
      WorkTurns(hash, w, q, db, l.taskId, l.input);
    }
    hide AlikeSome;
    hide SqlRuns.TaskCopy;
  }

  lemma EntriesAlike(s: Store, s': Store, t: Id)
    requires SameReads(s, s') && t in s.tasks
    ensures t in s'.tasks && AlikeSome(Entry(s.tasks[t]), Entry(s'.tasks[t]))
  {
    SameRow(s, s', t);
    hide SameReads;
    hide Bare;
  }

  ghost predicate AllAlike(m: map<Id, WorkerPc>, m': map<Id, WorkerPc>) {
    && (forall t :: t in m' <==> t in m)
    && (forall t :: t in m ==> Alike(m[t], m'[t]))
  }

  lemma SetAlike(m: map<Id, WorkerPc>, m': map<Id, WorkerPc>, t: Id, pc: Option<WorkerPc>, pc': Option<WorkerPc>)
    requires AllAlike(m, m') && AlikeSome(pc, pc')
    ensures AllAlike(Set(m, t, pc), Set(m', t, pc'))
  {
    hide Alike;
  }

  lemma CrashAlike(m: map<Id, WorkerPc>, m': map<Id, WorkerPc>, t: Id)
    requires AllAlike(m, m')
    ensures AllAlike(m - {t}, m' - {t})
  {
    hide Alike;
  }

  lemma WorkersAlike(hash: string -> string, w: World, q: World, db: Db, l: Label)
    requires Agree(w.store, db) && InStep(w, q, db)
    ensures AllAlike(NextWorkers(hash, w, l), NextWorkers(hash, q, l))
  {
    hide WorkerTurn;
    hide Agree;
    hide Alike;
    hide AlikeSome;
    hide Entry;
    AgreeReads(w.store, db);
    hide Reads;
    assert AllAlike(w.workers, q.workers);
    hide AllAlike;
    SameTasks(w.store, q.store);
    match l {
      case Work(t, input) =>
        if t in w.workers && t in w.store.tasks {
          WorkTurns(hash, w, q, db, t, input);
          SetAlike(w.workers, q.workers, t, WorkerTurn(hash, w.store, t, w.workers[t], w.clock, input).next,
                   WorkerTurn(hash, q.store, t, q.workers[t], q.clock, input).next);
        }
      case Deliver(t) =>
        if t in w.store.tasks && t !in w.workers {
          EntriesAlike(w.store, q.store, t);
          SetAlike(w.workers, q.workers, t, Entry(w.store.tasks[t]), Entry(q.store.tasks[t]));
        }
      case Crash(t) => CrashAlike(w.workers, q.workers, t);
      case _ =>
    }
    hide SameReads;
    hide Set;
  }

  lemma SameTasks(s: Store, s': Store)
    requires SameReads(s, s')
    ensures forall t :: t in s.tasks <==> t in s'.tasks
  {
  }

  lemma SameActors(hash: string -> string, w: World, q: World, db: Db, l: Label)
    requires Agree(w.store, db) && InStep(w, q, db)
    ensures var w', q' := Next(hash, w, l), Next(hash, q, l);
            q'.ingress == w'.ingress && q'.approvers == w'.approvers && q'.clock == w'.clock && q'.execs == w'.execs
  {
    hide WorkerTurn;
    hide Agree;
    SameEffects(hash, w, q, db, l);
    hide Effect;
    hide Exec;
    hide NextWorkers;
    hide Executes;
    hide Reads;
    hide Bare;
    hide Alike;
  }

  /** What the history variables of a step read of a worker. */
  lemma SameHistory(hash: string -> string, w: World, q: World, db: Db, l: Label)
    requires Agree(w.store, db) && InStep(w, q, db)
    ensures var w', q' := Next(hash, w, l), Next(hash, q, l);
            q'.proposed == w'.proposed && q'.openedFor == w'.openedFor
  {
    hide WorkerTurn;
    hide Agree;
    hide Effect;
    hide Exec;
    hide NextWorkers;
    hide NextApprovers;
    hide Executes;
    AgreeReads(w.store, db);
    hide Reads;
    hide Bare;
    if l.Work? && l.taskId in w.workers && l.taskId in w.store.tasks {
      Opens(w.workers[l.taskId], q.workers[l.taskId]);
    }
    hide Alike;
  }

  lemma Opens(pc: WorkerPc, pc': WorkerPc)
    requires Alike(pc, pc')
    ensures pc'.OpenCall? <==> pc.OpenCall?
    ensures pc'.OpenApproval? <==> pc.OpenApproval?
    ensures pc.OpenCall? ==> pc'.j == pc.j && pc'.result == pc.result
    ensures pc.OpenApproval? ==> pc'.call == pc.call
  {
  }

  lemma SqlStep(hash: string -> string, w: World, q: World, db: Db, l: Label, now: nat)
    requires SqlRuns.Inv(w) && Agree(w.store, db) && InStep(w, q, db)
    ensures var c := Effect(hash, w, l);
            var (q', db') := SqlNext(hash, q, db, l, now);
            && db' == (if c.Some? then SqlExec(db, c.value, now) else db)
            && Agree(Next(hash, w, l).store, db') && InStep(Next(hash, w, l), q', db')
  {
    hide SqlRuns.Inv;
    hide Agree;
    hide SqlExec;
    hide Alike;
    StepSimulates(hash, w, db, l, now);
    SameEffects(hash, w, q, db, l);
    BareExecSome(db, Effect(hash, w, l), Effect(hash, q, l), now);
    SameOrders(w.store, q.store, Effect(hash, w, l), Effect(hash, q, l));
    WorkersAlike(hash, w, q, db, l);
    SameActors(hash, w, q, db, l);
    SameHistory(hash, w, q, db, l);
    StoreAfter(hash, w, l);
    StoreAfter(hash, q, l);
    hide Next;
    hide Effect;
    hide ExecSome;
    hide SameReads;
    hide BareCallSome;
    hide NextWorkers;
  }

  lemma StoreAfter(hash: string -> string, w: World, l: Label)
    ensures Next(hash, w, l).store == ExecSome(w.store, Effect(hash, w, l))
    ensures Next(hash, w, l).workers == NextWorkers(hash, w, l)
  {
    hide Effect;
    hide ExecSome;
    hide NextWorkers;
  }

  /** The run on SQL and the run in memory stay in step at every step: the same actors at the same points, with
      locals equal up to task time stamps, the same executions, and tables that read back as the in-memory
      records do. The tables are those the in-memory calls would make. */
  lemma {:induction false} SqlInStep(hash: string -> string, labels: seq<Label>, now: nat -> nat)
    ensures var w, qd := Run(hash, INITIAL, labels), SqlWorld(hash, labels, now);
            && SqlRuns.Inv(w) && Agree(w.store, qd.1) && InStep(w, qd.0, qd.1)
            && qd.1 == RunSql(hash, INITIAL, NO_ROWS, labels, now)
  {
    hide Next;
    hide Effect;
    hide SqlExec;
    hide SqlNext;
    hide SqlRuns.Inv;
    if labels != [] {
      var before, l := labels[..|labels| - 1], labels[|labels| - 1];
      SqlInStep(hash, before, now);
      var w, qd := Run(hash, INITIAL, before), SqlWorld(hash, before, now);
      SqlRuns.InvKept(hash, w, l);
      hide InStep;
      hide Agree;
      SqlStep(hash, w, qd.0, qd.1, l, now(|labels|));
    } else {
      SqlSimulates(hash, [], now);
    }
  }
}
