/** Every run of the protocol, driven against the SQL tables, reads the same as in memory: no caller
    changes a column its upsert omits, and none empties a task's metadata. */
module SqlRuns {
  import opened Lifecycle
  import opened Records
  import opened Protocol
  import opened SqlListings
  import opened SqlTables
  import LR = LogReplay
  import SR = SingleRun

  /** A copy of a task row that differs from the row at most in updatable columns. */
  predicate TaskCopy(s: Store, t: Id, copy: TaskRecord) {
    && copy.taskId == t && t in s.tasks
    && SameTask(copy, s.tasks[t].(state := copy.state, resultSummary := copy.resultSummary, error := copy.error,
                                  modelRouteProfile := copy.modelRouteProfile))
  }

  predicate CallCopy(s: Store, copy: ToolCall) {
    copy.callId in s.calls && copy == UpdatedCall(s.calls[copy.callId], copy)
  }

  predicate RecordCopy(s: Store, copy: ApprovalRecord) {
    copy.recordId in s.approvals && copy == UpdatedApproval(s.approvals[copy.recordId], copy)
  }

  predicate PcCopies(s: Store, t: Id, pc: WorkerPc) {
    match pc
    case Claim(task) => TaskCopy(s, t, task)
    case RunMesh(task) => TaskCopy(s, t, task)
    case Summarize(done, _) => TaskCopy(s, t, done)
    case Stash(current, _) => TaskCopy(s, t, current)
    case OpenApproval(_, _, _, _, call) => CallCopy(s, call)
    case LinkCall(_, _, _, _, call, _) => CallCopy(s, call)
    case FetchRecord(calls, _) => forall i :: 0 <= i < |calls| ==> CallCopy(s, calls[i])
    case Settle(calls, _, _) => forall i :: 0 <= i < |calls| ==> CallCopy(s, calls[i])
    case _ => true
  }

  ghost predicate Keyed(s: Store, now: Id) {
    && (forall c :: c in s.calls ==> c < now && s.calls[c].callId == c)
    && (forall r :: r in s.approvals ==> r < now && s.approvals[r].recordId == r)
  }

  ghost predicate CopiesOk(w: World) {
    && (forall t :: t in w.workers ==> PcCopies(w.store, t, w.workers[t]))
    && (forall a :: a in w.approvers && w.approvers[a].WriteDecision? ==> RecordCopy(w.store, w.approvers[a].record))
  }

  ghost predicate CallsStamped(s: Store, now: nat) {
    StampedInOrder(s) && forall c :: c in s.calls ==> s.calls[c].createdAt < now
  }

  ghost predicate RecordsStamped(s: Store, now: nat) {
    RecordsInOrder(s) && forall r :: r in s.approvals ==> s.approvals[r].createdAt < now
  }

  /** Stamps grow with the clock, so insertion order is stamp order. */
  ghost predicate Stamped(s: Store, now: nat) {
    CallsStamped(s, now) && RecordsStamped(s, now)
  }

  ghost predicate Inv(w: World) {
    LR.Inv(w) && CopiesOk(w) && Keyed(w.store, w.clock) && Stamped(w.store, w.clock)
  }

  // ---- Worker turns --------------------------------------------------------------------------

  lemma {:induction false} ListedAreRows(s: Store, order: seq<Id>, t: Id, tenantId: string)
    requires forall c :: c in s.calls ==> s.calls[c].callId == c
    ensures forall i :: 0 <= i < |ListCalls(s.calls, order, t, tenantId)| ==>
              CallCopy(s, ListCalls(s.calls, order, t, tenantId)[i])
  {
    if order != [] {
      ListedAreRows(s, order[..|order| - 1], t, tenantId);
    }
  }

  /** New rows of a turn carry the fresh id and stamp. */
  predicate FreshRows(now: Id, s: Store, c: RepoCall) {
    && (c.PutCall? && c.call.callId !in s.calls ==> c.call.callId == now && c.call.createdAt == now)
    && (c.PutApproval? && c.record.recordId !in s.approvals ==>
          c.record.recordId == now && c.record.createdAt == now)
  }

  ghost predicate TurnOk(s: Store, t: Id, now: Id, turn: Turn) {
    && (turn.call.Some? ==> Benign(s, turn.call.value) && FreshRows(now, s, turn.call.value))
    && (turn.next.Some? ==> PcCopies(ExecSome(s, turn.call), t, turn.next.value))
  }

  lemma TaskTurnOk(hash: string -> string, s: Store, t: Id, pc: WorkerPc, now: nat, input: Input)
    requires t in s.tasks && s.tasks[t].taskId == t && PcCopies(s, t, pc)
    requires pc.Complete? || pc.Summarize? || pc.ReadBack? || pc.Stash?
    ensures TurnOk(s, t, now, WorkerTurn(hash, s, t, pc, now, input))
  {
    hide CompletionSummary;
  }

  lemma CallTurnOk(hash: string -> string, s: Store, t: Id, pc: WorkerPc, now: nat, input: Input)
    requires t in s.tasks && PcCopies(s, t, pc) && Keyed(s, now)
    requires pc.ReadCall? || pc.OpenCall? || pc.OpenApproval? || pc.LinkCall?
    ensures TurnOk(s, t, now, WorkerTurn(hash, s, t, pc, now, input))
  {
    hide ReadSummary;
  }

  lemma ResumeTurnOk(hash: string -> string, s: Store, t: Id, pc: WorkerPc, now: nat, input: Input)
    requires t in s.tasks && PcCopies(s, t, pc) && Keyed(s, now)
    requires pc.ListPending? || pc.FetchRecord? || pc.Settle?
    ensures TurnOk(s, t, now, WorkerTurn(hash, s, t, pc, now, input))
  {
    hide IsApproved;
    hide ListCalls;
    if pc.ListPending? {
      ListedAreRows(s, s.callOrder, t, pc.task.tenantId);
    }
  }

  lemma PlainTurnOk(hash: string -> string, s: Store, t: Id, pc: WorkerPc, now: nat, input: Input)
    requires t in s.tasks && s.tasks[t].taskId == t && PcCopies(s, t, pc)
    requires pc.Claim? || pc.RunMesh? || pc.HaltTask? || pc.Recheck? || pc.Park? || pc.Resume? || pc.ResumeRecheck?
             || pc.Finish?
    ensures TurnOk(s, t, now, WorkerTurn(hash, s, t, pc, now, input))
  {
  }

  lemma WorkerTurnOk(hash: string -> string, s: Store, t: Id, pc: WorkerPc, now: nat, input: Input)
    requires t in s.tasks && s.tasks[t].taskId == t && PcCopies(s, t, pc) && Keyed(s, now)
    ensures TurnOk(s, t, now, WorkerTurn(hash, s, t, pc, now, input))
  {
    hide WorkerTurn;
    hide TurnOk;
    if pc.Complete? || pc.Summarize? || pc.ReadBack? || pc.Stash? {
      TaskTurnOk(hash, s, t, pc, now, input);
    } else if pc.ReadCall? || pc.OpenCall? || pc.OpenApproval? || pc.LinkCall? {
      CallTurnOk(hash, s, t, pc, now, input);
    } else if pc.ListPending? || pc.FetchRecord? || pc.Settle? {
      ResumeTurnOk(hash, s, t, pc, now, input);
    } else {
      PlainTurnOk(hash, s, t, pc, now, input);
    }
  }

  // ---- Frames --------------------------------------------------------------------------------

  predicate PutsTask(c: RepoCall, t: Id) {
    c.PutTask? && c.task.taskId == t
  }

  lemma CallCopyStays(s: Store, c: RepoCall, copy: ToolCall)
    requires CallCopy(s, copy) && Benign(s, c)
    ensures CallCopy(Exec(s, c), copy)
  {
  }

  lemma RecordCopyStays(s: Store, c: RepoCall, copy: ApprovalRecord)
    requires RecordCopy(s, copy) && Benign(s, c)
    ensures RecordCopy(Exec(s, c), copy)
  {
  }

  lemma TaskCopyStays(s: Store, c: RepoCall, t: Id, copy: TaskRecord)
    requires TaskCopy(s, t, copy) && !PutsTask(c, t)
    ensures TaskCopy(Exec(s, c), t, copy)
  {
  }

  lemma PcStays(s: Store, c: RepoCall, t: Id, pc: WorkerPc)
    requires PcCopies(s, t, pc) && Benign(s, c) && !PutsTask(c, t)
    ensures PcCopies(Exec(s, c), t, pc)
  {
    forall copy | CallCopy(s, copy) ensures CallCopy(Exec(s, c), copy) {
      CallCopyStays(s, c, copy);
    }
    forall copy | TaskCopy(s, t, copy) ensures TaskCopy(Exec(s, c), t, copy) {
      TaskCopyStays(s, c, t, copy);
    }
    hide CallCopy;
    hide TaskCopy;
    hide Exec;
    hide Benign;
  }

  lemma KeysStay(s: Store, c: RepoCall, now: Id)
    requires Keyed(s, now) && Stamped(s, now) && Benign(s, c) && FreshRows(now, s, c)
    ensures Keyed(Exec(s, c), now + 1) && Stamped(Exec(s, c), now + 1)
  {
    hide TaskBenign;
    hide CallBenign;
    hide ApprovalBenign;
    hide Legal;
    hide CallsStamped;
    hide RecordsStamped;
    if c.PutCall? {
      CallKeys(s, c.call, now);
      RecordsLater(s, Exec(s, c), now);
    } else if c.PutApproval? {
      RecordKeys(s, c.record, now);
      CallsLater(s, Exec(s, c), now);
    } else {
      CallsLater(s, Exec(s, c), now);
      RecordsLater(s, Exec(s, c), now);
    }
  }

  lemma CallsLater(s: Store, s': Store, now: nat)
    requires CallsStamped(s, now) && s'.calls == s.calls && s'.callOrder == s.callOrder
    ensures CallsStamped(s', now + 1)
  {
  }

  lemma RecordsLater(s: Store, s': Store, now: nat)
    requires RecordsStamped(s, now) && s'.approvals == s.approvals && s'.approvalOrder == s.approvalOrder
    ensures RecordsStamped(s', now + 1)
  {
  }

  lemma CallKeys(s: Store, call: ToolCall, now: Id)
    requires CallsStamped(s, now) && CallBenign(s, call) && FreshRows(now, s, PutCall(call))
    ensures CallsStamped(Exec(s, PutCall(call)), now + 1)
  {
    var s' := Exec(s, PutCall(call));
    if call.callId in s.calls {
      assert s'.callOrder == s.callOrder && call.createdAt == s.calls[call.callId].createdAt;
    } else {
      NewCallStamped(s, call, now);
    }
  }

  lemma NewCallStamped(s: Store, call: ToolCall, now: Id)
    requires CallsStamped(s, now) && call.callId !in s.calls && call.createdAt == now
    ensures CallsStamped(s.(calls := s.calls[call.callId := call], callOrder := s.callOrder + [call.callId]), now + 1)
  {
    var order := s.callOrder + [call.callId];
    assert forall c :: c in order <==> c in s.callOrder || c == call.callId;
  }

  lemma RecordKeys(s: Store, record: ApprovalRecord, now: Id)
    requires RecordsStamped(s, now) && ApprovalBenign(s, record) && FreshRows(now, s, PutApproval(record))
    ensures RecordsStamped(Exec(s, PutApproval(record)), now + 1)
  {
    var s', r := Exec(s, PutApproval(record)), record.recordId;
    if r in s.approvals {
      assert s'.approvalOrder == s.approvalOrder && record.createdAt == s.approvals[r].createdAt;
    } else {
      NewRecordStamped(s, record, now);
    }
  }

  lemma NewRecordStamped(s: Store, record: ApprovalRecord, now: Id)
    requires RecordsStamped(s, now) && record.recordId !in s.approvals && record.createdAt == now
    ensures RecordsStamped(s.(approvals := s.approvals[record.recordId := record],
                              approvalOrder := s.approvalOrder + [record.recordId]), now + 1)
  {
    var order := s.approvalOrder + [record.recordId];
    assert forall r :: r in order <==> r in s.approvalOrder || r == record.recordId;
  }

  /** After a benign call, copies held before are still copies. */
  lemma CopiesStay(w: World, w': World, c: Option<RepoCall>)
    requires CopiesOk(w) && w'.store == ExecSome(w.store, c) && (c.Some? ==> Benign(w.store, c.value))
    requires forall t :: t in w'.workers ==>
               || PcCopies(w'.store, t, w'.workers[t])
               || (t in w.workers && w'.workers[t] == w.workers[t] && (c.Some? ==> !PutsTask(c.value, t)))
    requires forall a :: a in w'.approvers && w'.approvers[a].WriteDecision? ==>
               || RecordCopy(w'.store, w'.approvers[a].record)
               || (a in w.approvers && w'.approvers[a] == w.approvers[a])
    ensures CopiesOk(w')
  {
    hide PcCopies;
    hide RecordCopy;
    hide Exec;
    hide Benign;
    hide PutsTask;
    if c.Some? {
      forall t | t in w.workers && !PutsTask(c.value, t) ensures PcCopies(w'.store, t, w.workers[t]) {
        PcStays(w.store, c.value, t, w.workers[t]);
      }
      forall r | RecordCopy(w.store, r) ensures RecordCopy(w'.store, r) {
        RecordCopyStays(w.store, c.value, r);
      }
    }
  }

  lemma KeysStaySome(s: Store, c: Option<RepoCall>, now: Id)
    requires Keyed(s, now) && Stamped(s, now)
    requires c.Some? ==> Benign(s, c.value) && FreshRows(now, s, c.value)
    ensures Keyed(ExecSome(s, c), now + 1) && Stamped(ExecSome(s, c), now + 1)
  {
    if c.Some? {
      KeysStay(s, c.value, now);
    } else {
      LaterKeys(s, now);
    }
  }

  // ---- Whole steps ---------------------------------------------------------------------------

  ghost predicate TablesKept(w': World) {
    CopiesOk(w') && Keyed(w'.store, w'.clock) && Stamped(w'.store, w'.clock)
  }

  lemma WorkKeeps(hash: string -> string, w: World, t: Id, input: Input)
    requires Inv(w) && t in w.workers
    ensures TablesKept(Next(hash, w, Work(t, input)))
    ensures var c := Effect(hash, w, Work(t, input)); c.Some? ==> Benign(w.store, c.value)
  {
    hide LR.Inv;
    hide WorkerTurn;
    hide Benign;
    hide PcCopies;
    hide RecordCopy;
    hide PutsTask;
    hide FreshRows;
    hide ExecSome;
    hide Keyed;
    hide Stamped;
    WorkersKnown(w);
    WorkerOwner(hash, w, t, input);
    var turn := WorkerTurn(hash, w.store, t, w.workers[t], w.clock, input);
    WorkerTurnOk(hash, w.store, t, w.workers[t], w.clock, input);
    KeysStaySome(w.store, turn.call, w.clock);
    CopiesStay(w, Next(hash, w, Work(t, input)), turn.call);
  }

  lemma LaterKeys(s: Store, now: nat)
    requires Keyed(s, now) && Stamped(s, now)
    ensures Keyed(s, now + 1) && Stamped(s, now + 1)
  {
  }

  lemma WorkerOwner(hash: string -> string, w: World, t: Id, input: Input)
    requires LR.Inv(w) && t in w.workers
    ensures t in w.store.tasks
    ensures w.store.tasks[t].taskId == t
    ensures var c := WorkerTurn(hash, w.store, t, w.workers[t], w.clock, input).call;
            forall u :: c.Some? && u != t ==> !PutsTask(c.value, u)
  {
    assert LR.TaskOk(w.store, t, LR.PcOf(w, t));
    LR.WorkerTurnFits(hash, w.store, t, w.workers[t], w.clock, input);
    hide WorkerTurn;
  }

  /** The calls of ingress, approvers and rewriting actors are benign too. */
  lemma OtherBenign(hash: string -> string, w: World, l: Label)
    requires Inv(w) && !l.Work?
    ensures var c := Effect(hash, w, l);
            c.Some? ==> Benign(w.store, c.value) && FreshRows(w.clock, w.store, c.value)
                        && forall u :: u in w.store.tasks ==> !PutsTask(c.value, u)
  {
    hide LR.TaskOk;
    hide Stamped;
  }

  lemma OtherPcs(hash: string -> string, w: World, l: Label)
    requires Inv(w) && (l.Work? ==> l.taskId !in w.workers)
    ensures var w' := Next(hash, w, l);
            forall t :: t in w'.workers ==>
              PcCopies(w'.store, t, w'.workers[t]) || (t in w.workers && w'.workers[t] == w.workers[t])
  {
    hide Keyed;
    hide Stamped;
    hide CopiesOk;
    hide WorkerTurn;
    hide ApproverTurn;
    hide Exec;
    if l.Deliver? {
      WorkersKnown(w);
      if l.taskId in w.store.tasks {
        EntryCopies(w.store, l.taskId);
      }
      hide PcCopies;
    }
    hide LR.Inv;
    hide Entry;
  }

  lemma EntryCopies(s: Store, t: Id)
    requires t in s.tasks && s.tasks[t].taskId == t
    ensures Entry(s.tasks[t]).Some? ==> PcCopies(s, t, Entry(s.tasks[t]).value)
  {
  }

  lemma OtherRecords(hash: string -> string, w: World, l: Label)
    requires Inv(w) && (l.Work? ==> l.taskId !in w.workers)
    ensures var w' := Next(hash, w, l);
            forall a :: a in w'.approvers && w'.approvers[a].WriteDecision? ==>
              RecordCopy(w'.store, w'.approvers[a].record) || (a in w.approvers && w'.approvers[a] == w.approvers[a])
  {
    hide LR.Inv;
    hide CopiesOk;
    hide WorkerTurn;
    hide Stamped;
  }

  lemma OthersKeep(hash: string -> string, w: World, l: Label)
    requires Inv(w) && (l.Work? ==> l.taskId !in w.workers)
    ensures TablesKept(Next(hash, w, l))
    ensures var c := Effect(hash, w, l); c.Some? ==> Benign(w.store, c.value)
  {
    hide LR.Inv;
    hide WorkerTurn;
    hide ApproverTurn;
    hide MayRewrite;
    hide Benign;
    hide PcCopies;
    hide RecordCopy;
    hide PutsTask;
    hide FreshRows;
    hide Exec;
    hide Keyed;
    hide Stamped;
    WorkersKnown(w);
    if !l.Work? {
      OtherBenign(hash, w, l);
    }
    OtherPcs(hash, w, l);
    OtherRecords(hash, w, l);
    KeysStaySome(w.store, Effect(hash, w, l), w.clock);
    CopiesStay(w, Next(hash, w, l), Effect(hash, w, l));
  }

  lemma WorkersKnown(w: World)
    requires LR.Inv(w)
    ensures forall t :: t in w.workers ==> t in w.store.tasks
    ensures KeyedRight(w.store)
  {
    forall t | t in w.store.tasks ensures w.store.tasks[t].taskId == t {
      assert LR.TaskOk(w.store, t, LR.PcOf(w, t));
    }
  }

  // ---- The simulation ------------------------------------------------------------------------

  /** The tables after the repository calls of a run, with the database clock read at each. */
  function RunSql(hash: string -> string, w: World, db: Db, labels: seq<Label>, now: nat -> nat): Db {
    if labels == [] then db
    else
      var before := labels[..|labels| - 1];
      var c := Effect(hash, Run(hash, w, before), labels[|labels| - 1]);
      var db' := RunSql(hash, w, db, before, now);
      if c.Some? then SqlExec(db', c.value, now(|labels|)) else db'
  }

  lemma InvKept(hash: string -> string, w: World, l: Label)
    requires Inv(w)
    ensures Inv(Next(hash, w, l))
  {
    hide WorkerTurn;
    LR.InvKept(hash, w, l);
    if l.Work? && l.taskId in w.workers {
      WorkKeeps(hash, w, l.taskId, l.input);
    } else {
      OthersKeep(hash, w, l);
    }
    hide Next;
    hide LR.Inv;
  }

  lemma {:induction false} InvAlways(hash: string -> string, labels: seq<Label>)
    ensures Inv(Run(hash, INITIAL, labels))
  {
    if labels != [] {
      InvAlways(hash, labels[..|labels| - 1]);
      InvKept(hash, Run(hash, INITIAL, labels[..|labels| - 1]), labels[|labels| - 1]);
    }
    hide Next;
    hide Inv;
  }

  lemma StepSimulates(hash: string -> string, w: World, db: Db, l: Label, now: nat)
    requires Inv(w) && Agree(w.store, db)
    ensures Inv(Next(hash, w, l))
    ensures var c := Effect(hash, w, l);
            Agree(Next(hash, w, l).store, if c.Some? then SqlExec(db, c.value, now) else db)
  {
    LR.InvKept(hash, w, l);
    WorkersKnown(w);
    hide LR.Inv;
    hide WorkerTurn;
    hide Benign;
    hide Agree;
    hide SqlExec;
    hide Exec;
    if l.Work? && l.taskId in w.workers {
      WorkKeeps(hash, w, l.taskId, l.input);
    } else {
      OthersKeep(hash, w, l);
    }
    var c := Effect(hash, w, l);
    if c.Some? {
      AgreeIffBenign(w.store, db, c.value, now);
    }
  }

  /** After every run, whatever the database clock shows, the tables read back as the in-memory
      records do, and list a task's calls and approval records in the same order. */
  lemma {:induction false} SqlSimulates(hash: string -> string, labels: seq<Label>, now: nat -> nat)
    ensures var w, db := Run(hash, INITIAL, labels), RunSql(hash, INITIAL, NO_ROWS, labels, now);
            && Inv(w) && Agree(w.store, db)
            && (forall t, tenantId, rows :: IsListing(db, t, tenantId, rows) ==>
                  rows == ListCalls(w.store.calls, w.store.callOrder, t, tenantId))
            && (forall t, tenantId, rows :: IsApprovalListing(db, t, tenantId, rows) ==>
                  rows == ListApprovals(w.store.approvals, w.store.approvalOrder, t, tenantId))
  {
    if labels != [] {
      var before := labels[..|labels| - 1];
      SqlSimulates(hash, before, now);
      StepSimulates(hash, Run(hash, INITIAL, before), RunSql(hash, INITIAL, NO_ROWS, before, now),
                    labels[|labels| - 1], now(|labels|));
    }
    var w, db := Run(hash, INITIAL, labels), RunSql(hash, INITIAL, NO_ROWS, labels, now);
    hide Next;
    hide Effect;
    hide SqlExec;
    forall t, tenantId, rows | IsListing(db, t, tenantId, rows)
      ensures rows == ListCalls(w.store.calls, w.store.callOrder, t, tenantId)
    {
      ListingsAgree(w.store, db, t, tenantId, rows);
    }
    forall t, tenantId, rows | IsApprovalListing(db, t, tenantId, rows)
      ensures rows == ListApprovals(w.store.approvals, w.store.approvalOrder, t, tenantId)
    {
      ApprovalListingsAgree(w.store, db, t, tenantId, rows);
    }
  }

  // ---- Events, stamped by the database -------------------------------------------------------

  /** The steps of a run that wrote an event. */
  ghost function EventSteps(hash: string -> string, labels: seq<Label>): seq<nat> {
    if labels == [] then []
    else
      var before := labels[..|labels| - 1];
      EventSteps(hash, before)
      + if Run(hash, INITIAL, labels).store.events == Run(hash, INITIAL, before).store.events then []
        else [|labels|]
  }

  lemma StampStep(s: Store, db: Db, c: RepoCall, now: nat)
    requires Agree(s, db)
    ensures var s', db' := Exec(s, c), SqlExec(db, c, now);
            db'.eventStamps == db.eventStamps + if s'.events == s.events then [] else [now]
  {
    if c.Transition? && c.taskId in s.tasks {
      var t := c.taskId;
      assert SameTask(s.tasks[t], ReadTask(db, t));
      if Legal(s, t, c.target) {
        assert |Exec(s, c).events| == |s.events| + 1;
      }
    }
  }

  /** Each event's stamp is the time the database clock showed at its step, and the steps ascend. */
  lemma {:induction false} StampedAtSteps(hash: string -> string, labels: seq<Label>, now: nat -> nat)
    ensures var db, steps := RunSql(hash, INITIAL, NO_ROWS, labels, now), EventSteps(hash, labels);
            && |db.eventStamps| == |steps|
            && (forall k :: 0 <= k < |steps| ==> 1 <= steps[k] <= |labels| && db.eventStamps[k] == now(steps[k]))
            && (forall i, j :: 0 <= i < j < |steps| ==> steps[i] < steps[j])
  {
    if labels != [] {
      var before := labels[..|labels| - 1];
      StampedAtSteps(hash, before, now);
      SqlSimulates(hash, before, now);
      var w, db := Run(hash, INITIAL, before), RunSql(hash, INITIAL, NO_ROWS, before, now);
      var c := Effect(hash, w, labels[|labels| - 1]);
      if c.Some? {
        StampStep(w.store, db, c.value, now(|labels|));
      }
      assert Next(hash, w, labels[|labels| - 1]).store == ExecSome(w.store, c);
    }
    hide Agree;
    hide Inv;
    hide SqlExec;
    hide Effect;
    hide Next;
  }

  ghost predicate Rises(now: nat -> nat, n: nat) {
    forall i, j :: 1 <= i < j <= n ==> now(i) <= now(j)
  }

  ghost predicate AlwaysRises(now: nat -> nat, n: nat) {
    forall i, j :: 1 <= i < j <= n ==> now(i) < now(j)
  }

  lemma StampsRise(hash: string -> string, labels: seq<Label>, now: nat -> nat)
    ensures var stamps := RunSql(hash, INITIAL, NO_ROWS, labels, now).eventStamps;
            && (Rises(now, |labels|) ==> forall i, j :: 0 <= i < j < |stamps| ==> stamps[i] <= stamps[j])
            && (AlwaysRises(now, |labels|) ==> forall i, j :: 0 <= i < j < |stamps| ==> stamps[i] < stamps[j])
  {
    StampedAtSteps(hash, labels, now);
    hide RunSql;
    hide EventSteps;
  }

  /** Over a run whose database clock never steps back, SQL may list a task's events as the in-memory
      repository does; over one that moves forth at every step, it must. */
  lemma EventsListed(hash: string -> string, labels: seq<Label>, now: nat -> nat, t: Id, tenantId: string)
    ensures var w, db := Run(hash, INITIAL, labels), RunSql(hash, INITIAL, NO_ROWS, labels, now);
            var own := EventsOf(w.store.events, t, tenantId);
            && Agree(w.store, db)
            && (Rises(now, |labels|) ==> IsEventListing(db, t, tenantId, own))
            && (AlwaysRises(now, |labels|) ==>
                  forall places :: IsEventListing(db, t, tenantId, places) <==> places == own)
  {
    SqlSimulates(hash, labels, now);
    StampsRise(hash, labels, now);
    hide RunSql;
    hide Run;
    hide Inv;
    hide IsListing;
    hide IsApprovalListing;
    hide IsEventListing;
    hide Rises;
    hide AlwaysRises;
    var db := RunSql(hash, INITIAL, NO_ROWS, labels, now);
    EventsOfAre(db.events, t, tenantId);
    EventOrderPossibleIff(db, t, tenantId);
    EventOrderIff(db, t, tenantId);
    var own := EventsOf(db.events, t, tenantId);
    hide EventsOf;
    forall i | 0 <= i < |own| ensures own[i] < |db.eventStamps| {
      assert own[i] in own;
    }
  }

  function Claiming(request: TaskRecord): seq<Label> {
    [Submit(request), Enqueue(0), Deliver(0), Work(0, Nothing)]
  }

  lemma Enqueued(hash: string -> string, request: TaskRecord) returns (w: World)
    ensures w == Next(hash, Next(hash, Next(hash, INITIAL, Submit(request)), Enqueue(0)), Deliver(0))
    ensures w.store.events == [TaskEvent(0, request.tenantId, Queued, "enqueued by ingress")]
    ensures 0 in w.store.tasks && w.store.tasks[0].state == Queued && w.store.tasks[0].tenantId == request.tenantId
    ensures 0 in w.workers && w.workers[0] == Claim(w.store.tasks[0])
  {
    var w1 := Next(hash, INITIAL, Submit(request));
    assert w1.store.tasks[0] == RequestedTask(request, 0) && 0 in w1.ingress && w1.store.events == [];
    var w2 := Next(hash, w1, Enqueue(0));
    assert 0 in w2.store.tasks && 0 !in w2.workers;
    w := Next(hash, w2, Deliver(0));
  }

  lemma Claimed(hash: string -> string, w: World, tenantId: string)
    requires 0 in w.store.tasks && w.store.tasks[0].state == Queued && w.store.tasks[0].tenantId == tenantId
    requires 0 in w.workers && w.workers[0] == Claim(w.store.tasks[0])
    ensures Next(hash, w, Work(0, Nothing)).store.events
         == w.store.events + [TaskEvent(0, tenantId, Running, "worker picked up task")]
  {
  }

  /** Submitted, enqueued, delivered and claimed: a task with two events. */
  lemma ClaimedHasTwo(hash: string -> string, request: TaskRecord)
    ensures EventsOf(Run(hash, INITIAL, Claiming(request)).store.events, 0, request.tenantId) == [0, 1]
  {
    var queued := TaskEvent(0, request.tenantId, Queued, "enqueued by ingress");
    var running := TaskEvent(0, request.tenantId, Running, "worker picked up task");
    var w := Enqueued(hash, request);
    Claimed(hash, w, request.tenantId);
    hide Next;
    FourSteps(hash, Submit(request), Enqueue(0), Deliver(0), Work(0, Nothing));
    hide Run;
    assert [queued] + [running] == [queued, running] && [queued, running][..1] == [queued];
    assert EventsOf([queued], 0, request.tenantId) == [0];
  }

  lemma FourSteps(hash: string -> string, a: Label, b: Label, c: Label, d: Label)
    ensures Run(hash, INITIAL, [a, b, c, d])
         == Next(hash, Next(hash, Next(hash, Next(hash, INITIAL, a), b), c), d)
  {
    hide Next;
    assert Run(hash, INITIAL, []) == INITIAL;
    hide Run;
    SR.RunAppend(hash, INITIAL, [], a);
    SR.RunAppend(hash, INITIAL, [a], b);
    SR.RunAppend(hash, INITIAL, [a, b], c);
    SR.RunAppend(hash, INITIAL, [a, b, c], d);
    assert [] + [a] == [a] && [a] + [b] == [a, b] && [a, b] + [c] == [a, b, c] && [a, b, c] + [d] == [a, b, c, d];
  }

  lemma StampsFall(hash: string -> string, labels: seq<Label>, now: nat -> nat)
    requires forall i, j :: 1 <= i < j <= |labels| ==> now(i) > now(j)
    ensures var stamps := RunSql(hash, INITIAL, NO_ROWS, labels, now).eventStamps;
            forall i, j :: 0 <= i < j < |stamps| ==> stamps[i] > stamps[j]
  {
    StampedAtSteps(hash, labels, now);
    hide RunSql;
    hide EventSteps;
  }

  /** When the database clock steps back between its two events, SQL cannot list them in the in-memory order. */
  lemma SteppingClockReorders(hash: string -> string, request: TaskRecord, now: nat -> nat)
    requires now(1) > now(2) > now(3) > now(4)
    ensures var w := Run(hash, INITIAL, Claiming(request));
            var db := RunSql(hash, INITIAL, NO_ROWS, Claiming(request), now);
            && Agree(w.store, db)
            && !IsEventListing(db, 0, request.tenantId, EventsOf(w.store.events, 0, request.tenantId))
  {
    var labels := Claiming(request);
    ClaimedHasTwo(hash, request);
    SqlSimulates(hash, labels, now);
    StampsFall(hash, labels, now);
    var db := RunSql(hash, INITIAL, NO_ROWS, labels, now);
    hide RunSql;
    hide Run;
    hide Inv;
    hide IsListing;
    hide IsApprovalListing;
    var own := EventsOf(db.events, 0, request.tenantId);
    assert own == [0, 1];
    EventOrderPossibleIff(db, 0, request.tenantId);
    hide IsEventListing;
    EventsOfAre(db.events, 0, request.tenantId);
    assert 1 in own && 1 < |db.eventStamps| && own[0] == 0 && own[1] == 1;
    hide EventsOf;
    assert !NeverBack(db.eventStamps, own);
  }
}
