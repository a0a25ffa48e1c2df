/** When no delivery reads a task that is awaiting approval, a task runs once, crashes or not: its log
    is one of ten, and a failed task has no tool calls and no approvals. */
module SingleRun {
  import opened Lifecycle
  import opened Records
  import opened Protocol
  import LR = LogReplay

  /** A step under the delivery discipline of the single-process queue. */
  predicate Disciplined(w: World, l: Label) {
    l.Deliver? && l.taskId in w.store.tasks && l.taskId !in w.workers ==>
      w.store.tasks[l.taskId].state != AwaitingApproval
  }

  predicate DisciplinedRun(hash: string -> string, w: World, labels: seq<Label>) {
    labels == []
    || var before := labels[..|labels| - 1];
       DisciplinedRun(hash, w, before) && Disciplined(Run(hash, w, before), labels[|labels| - 1])
  }

  /** The only logs a task in each state can have. */
  predicate ShapeOk(state: TaskState, log: seq<TaskState>) {
    match state
    case Received => log == []
    case Queued => log == [Queued]
    case Running => log == [Queued, Running]
    case AwaitingApproval => log == [Queued, Running, AwaitingApproval]
    case Approved => log == [Queued, Running, AwaitingApproval, Approved]
    case Rejected => log == [Queued, Running, AwaitingApproval, Rejected]
    case Completed =>
      log == [Queued, Running, Completed] || log == [Queued, Running, AwaitingApproval, Approved, Completed]
    case Failed => log == [Queued, Running, Failed]
    case _ => false
  }

  /** The task has no tool calls and no approval records. */
  ghost predicate Untouched(s: Store, t: Id) {
    && (forall c :: c in s.calls ==> s.calls[c].taskId != t)
    && (forall r :: r in s.approvals ==> s.approvals[r].taskId != t)
  }

  /** Before the mesh has returned a plan, or after a halt. */
  predicate Early(state: TaskState, pc: Option<WorkerPc>) {
    || state in {Received, Queued, Failed}
    || (pc.Some? && (pc.value.RunMesh? || pc.value.HaltTask? || pc.value.Recheck?))
  }

  ghost predicate FlowOk(s: Store, t: Id, pc: Option<WorkerPc>) {
    && t in s.tasks
    && ShapeOk(s.tasks[t].state, Log(s.events, t))
    && (pc.Some? && pc.value.Claim? ==> s.tasks[t].state in {Received, Queued, Running})
    && (Early(s.tasks[t].state, pc) ==> Untouched(s, t))
  }

  /** Each task's flow, for its own worker. */
  ghost predicate AllFlow(w: World) {
    forall t :: t in w.store.tasks ==> FlowOk(w.store, t, LR.PcOf(w, t))
  }

  /** What ties approvers in flight and unknown tasks to the tables. */
  ghost predicate TablesOk(w: World) {
    && (forall t :: t !in w.store.tasks ==> Untouched(w.store, t))
    && (forall a :: a in w.approvers && w.approvers[a].WriteDecision? ==> SameTask(w.store, w.approvers[a].record))
    && (forall r :: r in w.store.approvals ==> r < w.clock && w.store.approvals[r].recordId == r)
  }

  ghost predicate Inv(w: World) {
    LR.Inv(w) && AllFlow(w) && TablesOk(w)
  }

  predicate SameTask(s: Store, record: ApprovalRecord) {
    record.recordId in s.approvals && s.approvals[record.recordId].taskId == record.taskId
  }

  /** The rows a call adds or replaces beside the task row itself belong to task `t`. */
  predicate CallOwned(c: Option<RepoCall>, t: Id) {
    c.Some? ==>
      match c.value
      case PutTask(task) => task.taskId == t
      case Transition(u, _, _, _) => u == t
      case PutCall(call) => call.taskId == t
      case PutApproval(record) => record.taskId == t
      case PutGateway(event) => event.taskId == t
  }

  /** The moves of the single-run life cycle. */
  predicate Planned(state: TaskState, target: TaskState) {
    match state
    case Received => target == Queued
    case Queued => target == Running
    case Running => target in {AwaitingApproval, Completed, Failed}
    case AwaitingApproval => target in {Approved, Rejected}
    case Approved => target == Completed
    case _ => false
  }

  predicate ClaimFits(state: TaskState, pc: Option<WorkerPc>) {
    pc.Some? && pc.value.Claim? ==> state in {Received, Queued, Running}
  }

  /** A turn as the single-run invariant of its own task sees it. */
  predicate TurnFlows(s: Store, t: Id, pc: Option<WorkerPc>, turn: Turn)
    requires t in s.tasks
  {
    var c, state := turn.call, s.tasks[t].state;
    var state' := LR.StateAfter(c, state);
    && CallOwned(c, t)
    && (c.Some? && c.value.Transition? && CanTransition(state, c.value.target) ==> Planned(state, c.value.target))
    && ClaimFits(state', turn.next)
    && (Early(state', turn.next) ==> Early(state, pc))
    && (Early(state', turn.next) ==> c.Some? ==> !c.value.PutCall? && !c.value.PutApproval?)
  }

  lemma TaskTurnFlows(hash: string -> string, s: Store, t: Id, pc: WorkerPc, now: nat, input: Input)
    requires t in s.tasks && s.tasks[t].taskId == t && LR.PcOwns(pc, t)
    requires LR.PcHolds(pc, s.tasks[t].state) && ClaimFits(s.tasks[t].state, Some(pc))
    requires !pc.ReadCall? && !pc.OpenCall? && !pc.OpenApproval? && !pc.LinkCall? && !pc.FetchRecord? && !pc.Settle?
    ensures TurnFlows(s, t, Some(pc), WorkerTurn(hash, s, t, pc, now, input))
  {
    hide CompletionSummary;
    hide ListCalls;
    hide Stashed;
  }

  lemma ItemTurnFlows(hash: string -> string, s: Store, t: Id, pc: WorkerPc, now: nat, input: Input)
    requires t in s.tasks && LR.PcOwns(pc, t) && LR.PcHolds(pc, s.tasks[t].state)
    requires pc.ReadCall? || pc.OpenCall? || pc.OpenApproval? || pc.LinkCall? || pc.FetchRecord? || pc.Settle?
    ensures TurnFlows(s, t, Some(pc), WorkerTurn(hash, s, t, pc, now, input))
  {
    hide IsApproved;
    hide ReadSummary;
  }

  lemma PlannedShape(state: TaskState, target: TaskState, log: seq<TaskState>)
    requires ShapeOk(state, log) && Planned(state, target)
    ensures ShapeOk(target, log + [target])
  {
  }

  lemma ShapeKept(s: Store, t: Id, pc: Option<WorkerPc>, turn: Turn)
    requires t in s.tasks && ShapeOk(s.tasks[t].state, Log(s.events, t))
    requires LR.TurnFits(s, t, turn) && TurnFlows(s, t, pc, turn)
    ensures var s' := ExecSome(s, turn.call);
            && t in s'.tasks && s'.tasks[t].state == LR.StateAfter(turn.call, s.tasks[t].state)
            && ShapeOk(s'.tasks[t].state, Log(s'.events, t))
  {
    if turn.call.Some? && turn.call.value.Transition? {
      var target := turn.call.value.target;
      LogAppend(s.events, TaskEvent(t, s.tasks[t].tenantId, target, turn.call.value.note), t);
      if CanTransition(s.tasks[t].state, target) {
        PlannedShape(s.tasks[t].state, target, Log(s.events, t));
      }
    }
    hide ShapeOk;
    hide Planned;
    hide Log;
    hide LR.PcHolds;
    hide LR.PcOwns;
  }

  lemma FlowKept(s: Store, t: Id, pc: Option<WorkerPc>, turn: Turn)
    requires FlowOk(s, t, pc) && LR.TurnFits(s, t, turn) && TurnFlows(s, t, pc, turn)
    ensures FlowOk(ExecSome(s, turn.call), t, turn.next)
  {
    ShapeKept(s, t, pc, turn);
    hide LR.TurnFits;
    hide LR.StateAfter;
    hide ShapeOk;
    hide Log;
  }

  /** A turn of another task leaves a task's flow as it was. */
  lemma FlowFramed(s: Store, t: Id, turn: Turn, u: Id, pc: Option<WorkerPc>)
    requires u != t && FlowOk(s, u, pc) && CallOwned(turn.call, t)
    ensures FlowOk(ExecSome(s, turn.call), u, pc)
  {
    LR.Frame(s, turn.call, u);
    if Untouched(s, u) {
      UntouchedFramed(s, t, turn, u);
    }
    hide Log;
    hide ExecSome;
    hide Untouched;
    hide CallOwned;
  }

  lemma UntouchedFramed(s: Store, t: Id, turn: Turn, u: Id)
    requires u != t && CallOwned(turn.call, t) && Untouched(s, u)
    ensures Untouched(ExecSome(s, turn.call), u)
  {
  }

  // ---- Whole steps ---------------------------------------------------------------------------

  lemma FlowsOwned(s: Store, t: Id, pc: Option<WorkerPc>, turn: Turn)
    requires t in s.tasks && TurnFlows(s, t, pc, turn)
    ensures CallOwned(turn.call, t)
  {
  }

  /** A step of whoever acts on task `t` keeps the flow of every task. */
  lemma ActorFlows(w: World, w': World, t: Id, turn: Turn)
    requires AllFlow(w) && t in w.store.tasks
    requires LR.TurnFits(w.store, t, turn) && TurnFlows(w.store, t, LR.PcOf(w, t), turn)
    requires w'.store == ExecSome(w.store, turn.call) && w'.workers == Set(w.workers, t, turn.next)
    ensures AllFlow(w')
  {
    hide FlowOk;
    hide ExecSome;
    hide CallOwned;
    hide LR.TurnFits;
    hide TurnFlows;
    FlowsOwned(w.store, t, LR.PcOf(w, t), turn);
    FlowKept(w.store, t, LR.PcOf(w, t), turn);
    LR.OthersFramed(w.store, t, turn);
    forall u | u in w.store.tasks && u != t ensures FlowOk(w'.store, u, LR.PcOf(w', u)) {
      FlowFramed(w.store, t, turn, u, LR.PcOf(w, u));
    }
  }

  /** What the invariants say about a worker in flight. */
  lemma PcFacts(w: World, t: Id)
    requires Inv(w) && t in w.workers
    ensures t in w.store.tasks && w.store.tasks[t].taskId == t
    ensures LR.PcHolds(w.workers[t], w.store.tasks[t].state) && LR.PcOwns(w.workers[t], t)
    ensures ClaimFits(w.store.tasks[t].state, Some(w.workers[t]))
  {
    assert LR.TaskOk(w.store, t, LR.PcOf(w, t)) && FlowOk(w.store, t, LR.PcOf(w, t));
  }

  lemma WorkerTurnFlows(hash: string -> string, s: Store, t: Id, pc: WorkerPc, now: nat, input: Input)
    requires t in s.tasks && s.tasks[t].taskId == t && LR.PcOwns(pc, t)
    requires LR.PcHolds(pc, s.tasks[t].state) && ClaimFits(s.tasks[t].state, Some(pc))
    ensures TurnFlows(s, t, Some(pc), WorkerTurn(hash, s, t, pc, now, input))
  {
    hide WorkerTurn;
    hide TurnFlows;
    if !pc.ReadCall? && !pc.OpenCall? && !pc.OpenApproval? && !pc.LinkCall? && !pc.FetchRecord? && !pc.Settle? {
      TaskTurnFlows(hash, s, t, pc, now, input);
    } else {
      ItemTurnFlows(hash, s, t, pc, now, input);
    }
  }

  lemma WorkFlows(hash: string -> string, w: World, t: Id, input: Input)
    requires Inv(w) && t in w.workers
    ensures AllFlow(Next(hash, w, Work(t, input)))
  {
    hide WorkerTurn;
    hide TurnFlows;
    hide FlowOk;
    hide LR.TurnFits;
    hide LR.PcHolds;
    hide LR.PcOwns;
    hide ClaimFits;
    PcFacts(w, t);
    var pc := w.workers[t];
    var turn := WorkerTurn(hash, w.store, t, pc, w.clock, input);
    LR.WorkerTurnFits(hash, w.store, t, pc, w.clock, input);
    WorkerTurnFlows(hash, w.store, t, pc, w.clock, input);
    ActorFlows(w, Next(hash, w, Work(t, input)), t, turn);
  }

  lemma DeliverFlows(w: World, t: Id)
    requires Inv(w) && t in w.store.tasks && t !in w.workers && w.store.tasks[t].state != AwaitingApproval
    ensures var turn := Quiet(Entry(w.store.tasks[t]));
            TurnFlows(w.store, t, LR.PcOf(w, t), turn) && LR.TurnFits(w.store, t, turn)
  {
    assert FlowOk(w.store, t, LR.PcOf(w, t)) && LR.TaskOk(w.store, t, LR.PcOf(w, t));
  }

  lemma MoveFlows(s: Store, t: Id, pc: Option<WorkerPc>, target: TaskState, note: string, at: nat)
    requires FlowOk(s, t, pc) && target in {Queued, Approved, Rejected}
    ensures TurnFlows(s, t, pc, Turn(Some(Transition(t, target, note, at)), pc, None))
  {
  }

  /** Steps that leave tasks, events and workers alone keep the flow if they give no task a call
      or record it did not have. */
  lemma QuietFlows(w: World, w': World)
    requires AllFlow(w) && forall t :: t in w'.workers ==> t in w.workers && w'.workers[t] == w.workers[t]
    requires w'.store.tasks == w.store.tasks && w'.store.events == w.store.events
    requires forall t :: Untouched(w.store, t) ==> Untouched(w'.store, t)
    ensures AllFlow(w')
  {
    forall t | t in w'.store.tasks ensures FlowOk(w'.store, t, LR.PcOf(w', t)) {
      assert FlowOk(w.store, t, LR.PcOf(w, t));
    }
  }

  lemma SubmitFlows(w: World, w': World, task: TaskRecord)
    requires Inv(w) && task.taskId == w.clock && task.state == Received
    requires w'.store == Exec(w.store, PutTask(task)) && w'.workers == w.workers
    ensures AllFlow(w')
  {
    forall t | t in w'.store.tasks ensures FlowOk(w'.store, t, LR.PcOf(w', t)) {
      if t != task.taskId {
        assert FlowOk(w.store, t, LR.PcOf(w, t));
      } else {
        assert t !in w.store.tasks && t !in w.workers;
        assert Log(w.store.events, t) == [] && Untouched(w.store, t);
      }
    }
    hide LR.TaskOk;
  }

  lemma RecordKeepsUntouched(s: Store, record: ApprovalRecord, t: Id)
    requires SameTask(s, record) && Untouched(s, t)
    ensures Untouched(Exec(s, PutApproval(record)), t)
  {
  }

  lemma RewriteKeepsUntouched(s: Store, call: ToolCall, t: Id)
    requires MayRewrite(s, call) && Untouched(s, t)
    ensures Untouched(Exec(s, PutCall(call)), t)
  {
  }

  lemma OtherFlows(hash: string -> string, w: World, l: Label)
    requires Inv(w) && Disciplined(w, l) && !l.Work?
    ensures AllFlow(Next(hash, w, l))
  {
    hide FlowOk;
    hide Untouched;
    hide LR.TaskOk;
    hide LR.TurnFits;
    hide TurnFlows;
    var w', c := Next(hash, w, l), Effect(hash, w, l);
    if l.Submit? {
      SubmitFlows(w, w', RequestedTask(l.request, w.clock));
    } else if c.Some? && c.value.Transition? && c.value.taskId in w.store.tasks {
      var t, pc := c.value.taskId, LR.PcOf(w, c.value.taskId);
      assert w'.workers == Set(w.workers, t, pc);
      MoveFlows(w.store, t, pc, c.value.target, c.value.note, c.value.at);
      LR.OthersFit(w.store, t, pc, c.value.target, c.value.note, c.value.at);
      ActorFlows(w, w', t, Turn(c, pc, None));
    } else if l.Deliver? && l.taskId in w.store.tasks && l.taskId !in w.workers {
      DeliverFlows(w, l.taskId);
      ActorFlows(w, w', l.taskId, Quiet(Entry(w.store.tasks[l.taskId])));
    } else {
      if c.Some? && c.value.PutApproval? {
        forall t | Untouched(w.store, t) ensures Untouched(w'.store, t) {
          RecordKeepsUntouched(w.store, c.value.record, t);
        }
      } else if c.Some? && c.value.PutCall? {
        forall t | Untouched(w.store, t) ensures Untouched(w'.store, t) {
          RewriteKeepsUntouched(w.store, c.value.call, t);
        }
      }
      QuietFlows(w, w');
    }
  }

  lemma WorkerOpensFresh(hash: string -> string, s: Store, t: Id, pc: WorkerPc, now: nat, input: Input)
    requires t in s.tasks
    ensures var c := WorkerTurn(hash, s, t, pc, now, input).call;
            c.Some? && c.value.PutApproval? ==> c.value.record.recordId == now
  {
  }

  /** The acting task's own calls keep the tables in step. */
  lemma WorkTables(hash: string -> string, w: World, t: Id, input: Input)
    requires Inv(w) && t in w.workers
    ensures TablesOk(Next(hash, w, Work(t, input)))
  {
    hide WorkerTurn;
    hide TurnFlows;
    hide FlowOk;
    hide LR.TurnFits;
    hide LR.PcHolds;
    hide LR.PcOwns;
    hide ClaimFits;
    PcFacts(w, t);
    var pc := w.workers[t];
    var turn := WorkerTurn(hash, w.store, t, pc, w.clock, input);
    WorkerTurnFlows(hash, w.store, t, pc, w.clock, input);
    FlowsOwned(w.store, t, Some(pc), turn);
    WorkerOpensFresh(hash, w.store, t, pc, w.clock, input);
    OwnedTables(w, Next(hash, w, Work(t, input)), t, turn);
  }

  lemma OwnedTables(w: World, w': World, t: Id, turn: Turn)
    requires TablesOk(w) && t in w.store.tasks && CallOwned(turn.call, t)
    requires turn.call.Some? && turn.call.value.PutApproval? ==> turn.call.value.record.recordId == w.clock
    requires w'.store == ExecSome(w.store, turn.call) && w'.approvers == w.approvers && w'.clock == w.clock + 1
    ensures TablesOk(w')
  {
    forall u | u !in w'.store.tasks ensures Untouched(w'.store, u) {
      UntouchedFramed(w.store, t, turn, u);
    }
    hide Untouched;
    hide Log;
  }

  lemma OtherTables(hash: string -> string, w: World, l: Label)
    requires Inv(w) && !l.Work?
    ensures TablesOk(Next(hash, w, l))
  {
    hide FlowOk;
    hide LR.TaskOk;
    hide Log;
    hide CanTransition;
    hide WorkerTurn;
    hide NextWorkers;
    var w', c := Next(hash, w, l), Effect(hash, w, l);
    forall u | u !in w'.store.tasks ensures Untouched(w'.store, u) {
      assert Untouched(w.store, u);
    }
  }

  lemma InvKept(hash: string -> string, w: World, l: Label)
    requires Inv(w) && Disciplined(w, l)
    ensures Inv(Next(hash, w, l))
  {
    LR.InvKept(hash, w, l);
    if l.Work? {
      if l.taskId in w.workers {
        WorkFlows(hash, w, l.taskId, l.input);
        WorkTables(hash, w, l.taskId, l.input);
      }
    } else {
      OtherFlows(hash, w, l);
      OtherTables(hash, w, l);
    }
    hide WorkerTurn;
  }

  lemma {:induction false} RunKeeps(hash: string -> string, w: World, labels: seq<Label>)
    requires Inv(w) && DisciplinedRun(hash, w, labels)
    ensures Inv(Run(hash, w, labels))
  {
    if labels != [] {
      var before := labels[..|labels| - 1];
      RunKeeps(hash, w, before);
      InvKept(hash, Run(hash, w, before), labels[|labels| - 1]);
    }
  }

  function TimesRunning(w: World, t: Id): nat {
    multiset(Log(w.store.events, t))[Running]
  }

  lemma ShapeBounds(state: TaskState, log: seq<TaskState>)
    requires ShapeOk(state, log)
    ensures |log| <= 5 && multiset(log)[Running] <= 1
  {
  }

  // ---- The theorems --------------------------------------------------------------------------

  /** Without a delivery of a task that awaits approval, and with any crashes, a task's log is one of the
      ten single-run logs: at most five events, and Running entered at most once. */
  lemma RunsOnce(hash: string -> string, labels: seq<Label>, w: World, t: Id)
    requires DisciplinedRun(hash, INITIAL, labels) && w == Run(hash, INITIAL, labels)
    requires t in w.store.tasks
    ensures ShapeOk(w.store.tasks[t].state, Log(w.store.events, t))
    ensures |Log(w.store.events, t)| <= 5 && TimesRunning(w, t) <= 1
  {
    RunKeeps(hash, INITIAL, labels);
    assert FlowOk(w.store, t, LR.PcOf(w, t));
    ShapeBounds(w.store.tasks[t].state, Log(w.store.events, t));
  }

  /** Under the same condition a failed task has no tool calls and no approvals. */
  lemma FailedIsUntouched(hash: string -> string, labels: seq<Label>, w: World, t: Id)
    requires DisciplinedRun(hash, INITIAL, labels) && w == Run(hash, INITIAL, labels)
    requires t in w.store.tasks && w.store.tasks[t].state == Failed
    ensures Untouched(w.store, t)
  {
    RunKeeps(hash, INITIAL, labels);
    assert FlowOk(w.store, t, LR.PcOf(w, t));
  }

  lemma RunAppend(hash: string -> string, w: World, labels: seq<Label>, l: Label)
    ensures Run(hash, w, labels + [l]) == Next(hash, Run(hash, w, labels), l)
  {
    assert (labels + [l])[..|labels|] == labels;
  }

  lemma DisciplinedAppend(hash: string -> string, w: World, labels: seq<Label>, l: Label)
    requires DisciplinedRun(hash, w, labels) && Disciplined(Run(hash, w, labels), l)
    ensures DisciplinedRun(hash, w, labels + [l])
  {
    hide Run;
    hide Disciplined;
    assert (labels + [l])[..|labels|] == labels;
  }

  /** An approval is posted: the ledger is written and the task found; its move comes next. */
  lemma Posts(hash: string -> string, w: World, t: Id, r: Id, a: Id) returns (w': World)
    requires a !in w.approvers && t in w.store.tasks && r in w.store.approvals && w.store.approvals[r].taskId == t
    ensures w' == Next(hash, Next(hash, Next(hash, w, Decide(a, r, Approve, "", "api")), Advance(a)), Advance(a))
    ensures w'.workers == w.workers && w'.approvers == w.approvers[a := MoveTask(t, Approve, "api")]
    ensures w'.store.tasks == w.store.tasks && w'.store.events == w.store.events
    ensures var record := w.store.approvals[r].(decision := Approve, approverId := Some(""), channel := Some("api"),
                                                decidedAt := Some(w.clock + 1));
            w'.store.approvals == w.store.approvals[w.store.approvals[r].recordId := record]
  {
    var w1 := Next(hash, w, Decide(a, r, Approve, "", "api"));
    assert w1.approvers[a] == WriteDecision(w.store.approvals[r], Approve, "", "api");
    var w2 := Next(hash, w1, Advance(a));
    assert w2.approvers[a] == FindTask(t, Approve, "api");
    w' := Next(hash, w2, Advance(a));
  }

  /** The posted approval moves its task, or is refused the move. */
  lemma PostedMoves(hash: string -> string, w: World, t: Id, a: Id)
    requires a in w.approvers && w.approvers[a] == MoveTask(t, Approve, "api")
    ensures var w' := Next(hash, w, Advance(a));
            && w'.store == Exec(w.store, Transition(t, Approved, "approved via api", w.clock))
            && w'.workers == w.workers && w'.approvers == w.approvers - {a}
  {
    hide Exec;
    assert "approved via " + "api" == "approved via api";
  }

  /** The second run, step by step: the delivery read AwaitingApproval, an approver decides before
      the claim, and the table lets Approved move to Running. */
  lemma ApproverOvertakes(hash: string -> string, w: World, t: Id, r: Id, a: Id) returns (w': World)
    requires t in w.workers && w.workers[t].Claim? && a !in w.approvers
    requires t in w.store.tasks && w.store.tasks[t].state == AwaitingApproval
    requires r in w.store.approvals && w.store.approvals[r].taskId == t
    ensures w' == Next(hash, Next(hash, Next(hash, Next(hash, w, Decide(a, r, Approve, "", "api")),
                                             Advance(a)), Advance(a)), Advance(a))
    ensures w'.workers == w.workers && t in w'.store.tasks && w'.store.tasks[t].state == Approved
    ensures Log(w'.store.events, t) == Log(w.store.events, t) + [Approved]
    ensures r in w'.store.approvals && w'.store.approvals[r].taskId == t
  {
    hide Next;
    var w3 := Posts(hash, w, t, r, a);
    PostedMoves(hash, w3, t, a);
    w' := Next(hash, w3, Advance(a));
    LogAppend(w.store.events, TaskEvent(t, w.store.tasks[t].tenantId, Approved, "approved via api"), t);
  }

  lemma ClaimAgain(hash: string -> string, w: World, t: Id)
    requires t in w.workers && w.workers[t].Claim?
    requires t in w.store.tasks && w.store.tasks[t].state == Approved
    ensures Log(Next(hash, w, Work(t, Nothing)).store.events, t) == Log(w.store.events, t) + [Running]
  {
    LogAppend(w.store.events, TaskEvent(t, w.store.tasks[t].tenantId, Running, "worker picked up task"), t);
  }

  lemma DeliveredAwaiting(hash: string -> string, w: World, t: Id)
    requires Inv(w) && t in w.store.tasks && t !in w.workers
    requires w.store.tasks[t].state == AwaitingApproval
    ensures var w1 := Next(hash, w, Deliver(t));
            && w1.store == w.store && w1.approvers == w.approvers
            && t in w1.workers && w1.workers[t].Claim?
            && Log(w1.store.events, t) == [Queued, Running, AwaitingApproval]
  {
    assert FlowOk(w.store, t, LR.PcOf(w, t));
  }

  lemma OvertakenRunsTwice(hash: string -> string, w: World, t: Id, r: Id, a: Id) returns (labels: seq<Label>)
    requires Inv(w) && t in w.store.tasks && t !in w.workers && a !in w.approvers
    requires r in w.store.approvals && w.store.approvals[r].taskId == t
    requires w.store.tasks[t].state == AwaitingApproval
    ensures DisciplinedRun(hash, Next(hash, w, Deliver(t)), labels)
    ensures TimesRunning(Run(hash, Next(hash, w, Deliver(t)), labels), t) > 1
  {
    hide Next;
    hide Run;
    hide Inv;
    hide DisciplinedRun;
    var w1 := Next(hash, w, Deliver(t));
    DeliveredAwaiting(hash, w, t);
    var w5 := ApproverOvertakes(hash, w1, t, r, a);
    ClaimAgain(hash, w5, t);
    labels := OvertakingLabels(hash, w1, t, r, a);
    assert Log(Run(hash, w1, labels).store.events, t) == [Queued, Running, AwaitingApproval, Approved, Running];
  }

  lemma OrdinaryRunsOnce(hash: string -> string, w: World, t: Id, labels: seq<Label>)
    requires Inv(w) && t in w.store.tasks && t !in w.workers
    requires w.store.tasks[t].state != AwaitingApproval
    requires DisciplinedRun(hash, Next(hash, w, Deliver(t)), labels)
    ensures TimesRunning(Run(hash, Next(hash, w, Deliver(t)), labels), t) <= 1
  {
    var w1 := Next(hash, w, Deliver(t));
    InvKept(hash, w, Deliver(t));
    RunKeeps(hash, w1, labels);
    StaysKnown(hash, w1, labels, t);
    hide Next;
    hide Run;
    var w2 := Run(hash, w1, labels);
    assert FlowOk(w2.store, t, LR.PcOf(w2, t));
    ShapeBounds(w2.store.tasks[t].state, Log(w2.store.events, t));
  }

  /** In a world reached under the discipline, delivering a known idle task can lead to a second
      entry into Running exactly when the delivery reads the task awaiting approval. */
  lemma SecondRunIff(hash: string -> string, w: World, t: Id, r: Id, a: Id)
    requires Inv(w) && t in w.store.tasks && t !in w.workers && a !in w.approvers
    requires r in w.store.approvals && w.store.approvals[r].taskId == t
    ensures (exists labels :: DisciplinedRun(hash, Next(hash, w, Deliver(t)), labels)
                           && TimesRunning(Run(hash, Next(hash, w, Deliver(t)), labels), t) > 1)
       <==> w.store.tasks[t].state == AwaitingApproval
  {
    hide Next;
    hide Run;
    hide Inv;
    hide TimesRunning;
    hide DisciplinedRun;
    if w.store.tasks[t].state == AwaitingApproval {
      var labels := OvertakenRunsTwice(hash, w, t, r, a);
    } else {
      forall labels | DisciplinedRun(hash, Next(hash, w, Deliver(t)), labels)
        ensures TimesRunning(Run(hash, Next(hash, w, Deliver(t)), labels), t) <= 1
      {
        OrdinaryRunsOnce(hash, w, t, labels);
      }
    }
  }

  lemma OvertakingLabels(hash: string -> string, w: World, t: Id, r: Id, a: Id) returns (labels: seq<Label>)
    ensures DisciplinedRun(hash, w, labels)
    ensures Run(hash, w, labels)
         == Next(hash, Next(hash, Next(hash, Next(hash, Next(hash, w, Decide(a, r, Approve, "", "api")),
                                                        Advance(a)), Advance(a)), Advance(a)), Work(t, Nothing))
  {
    hide Next;
    labels := [];
    var steps := [Decide(a, r, Approve, "", "api"), Advance(a), Advance(a), Advance(a), Work(t, Nothing)];
    for i := 0 to 5
      invariant labels == steps[..i] && DisciplinedRun(hash, w, labels)
    {
      DisciplinedAppend(hash, w, labels, steps[i]);
      labels := labels + [steps[i]];
    }
    assert labels == steps;
    RunAppend(hash, w, steps[..4], steps[4]);
    RunAppend(hash, w, steps[..3], steps[3]);
    RunAppend(hash, w, steps[..2], steps[2]);
    RunAppend(hash, w, steps[..1], steps[1]);
    RunAppend(hash, w, [], steps[0]);
    assert steps[..5] == steps[..4] + [steps[4]] && steps[..4] == steps[..3] + [steps[3]];
    assert steps[..3] == steps[..2] + [steps[2]] && steps[..2] == steps[..1] + [steps[1]];
    assert steps[..1] == [] + [steps[0]];
  }

  lemma {:induction false} StaysKnown(hash: string -> string, w: World, labels: seq<Label>, t: Id)
    requires t in w.store.tasks
    ensures t in Run(hash, w, labels).store.tasks
  {
    if labels != [] {
      StaysKnown(hash, w, labels[..|labels| - 1], t);
      KnownStep(hash, Run(hash, w, labels[..|labels| - 1]), labels[|labels| - 1], t);
    }
  }

  lemma KnownStep(hash: string -> string, w: World, l: Label, t: Id)
    requires t in w.store.tasks
    ensures t in Next(hash, w, l).store.tasks
  {
    hide WorkerTurn;
    hide ApproverTurn;
  }
}
