/** Budget halts. While no worker crashes, a task is failed exactly when it has its one halt event; that a
    failed task has no calls and no approvals depends on what its deliveries read. */
module Halts {
  import opened Lifecycle
  import opened Records
  import opened Protocol
  import LR = LogReplay
  import SR = SingleRun

  /** The halt events a task in this state, with its worker at this point, has had. */
  function Halted(state: TaskState, pc: Option<WorkerPc>): nat {
    if state == Failed || (pc.Some? && pc.value.HaltTask?) then 1 else 0
  }

  ghost predicate HaltOk(s: Store, t: Id, pc: Option<WorkerPc>) {
    t in s.tasks && HaltCount(s.gateway, t) == Halted(s.tasks[t].state, pc)
  }

  ghost predicate Inv(w: World) {
    && LR.Inv(w)
    && (forall t :: t in w.store.tasks ==> HaltOk(w.store, t, LR.PcOf(w, t)))
    && (forall t :: t !in w.store.tasks ==> HaltCount(w.store.gateway, t) == 0)
  }

  /** A turn that writes a halt event is about to fail its task, and no other turn changes the count. */
  predicate TurnHalts(state: TaskState, t: Id, pc: Option<WorkerPc>, turn: Turn) {
    var c := turn.call;
    && (c.Some? && c.value.PutGateway? ==> c.value.event.taskId == t && c.value.event.modelRoute == "budget_halt")
    && Halted(LR.StateAfter(c, state), turn.next)
       == Halted(state, pc) + (if c.Some? && c.value.PutGateway? then 1 else 0)
  }

  lemma WorkerTurnHalts(hash: string -> string, s: Store, t: Id, pc: WorkerPc, now: nat, input: Input)
    requires t in s.tasks && LR.PcHolds(pc, s.tasks[t].state)
    ensures TurnHalts(s.tasks[t].state, t, Some(pc), WorkerTurn(hash, s, t, pc, now, input))
  {
    hide CompletionSummary;
    hide ReadSummary;
    hide ListCalls;
    hide Stashed;
    hide IsApproved;
  }

  /** A turn of task `t`, on every task's count. */
  lemma CountsKept(s: Store, t: Id, pc: Option<WorkerPc>, turn: Turn, u: Id)
    requires t in s.tasks && LR.TurnFits(s, t, turn) && TurnHalts(s.tasks[t].state, t, pc, turn)
    ensures u != t ==> HaltCount(ExecSome(s, turn.call).gateway, u) == HaltCount(s.gateway, u)
    ensures u == t && HaltOk(s, t, pc) ==> HaltOk(ExecSome(s, turn.call), t, turn.next)
  {
    if turn.call.Some? && turn.call.value.PutGateway? {
      HaltCountAppend(s.gateway, turn.call.value.event, u);
    }
    hide HaltCount;
    hide LR.PcHolds;
    hide LR.PcOwns;
  }

  lemma ActorCounts(w: World, w': World, t: Id, turn: Turn)
    requires Inv(w) && t in w.store.tasks && LR.TurnFits(w.store, t, turn) && LR.Inv(w')
    requires TurnHalts(w.store.tasks[t].state, t, LR.PcOf(w, t), turn)
    requires w'.store == ExecSome(w.store, turn.call) && w'.workers == Set(w.workers, t, turn.next)
    ensures Inv(w')
  {
    hide LR.Inv;
    hide LR.TurnFits;
    hide TurnHalts;
    hide HaltCount;
    hide ExecSome;
    LR.OthersFramed(w.store, t, turn);
    CountsKept(w.store, t, LR.PcOf(w, t), turn, t);
    forall u | u != t
      ensures HaltCount(w'.store.gateway, u) == HaltCount(w.store.gateway, u) && LR.PcOf(w', u) == LR.PcOf(w, u)
    {
      CountsKept(w.store, t, LR.PcOf(w, t), turn, u);
    }
  }

  lemma WorkKeeps(hash: string -> string, w: World, t: Id, input: Input)
    requires Inv(w) && t in w.workers
    ensures Inv(Next(hash, w, Work(t, input)))
  {
    hide WorkerTurn;
    hide TurnHalts;
    hide HaltOk;
    LR.InvKept(hash, w, Work(t, input));
    var turn := WorkerTurn(hash, w.store, t, w.workers[t], w.clock, input);
    assert LR.TaskOk(w.store, t, LR.PcOf(w, t));
    LR.WorkerTurnFits(hash, w.store, t, w.workers[t], w.clock, input);
    WorkerTurnHalts(hash, w.store, t, w.workers[t], w.clock, input);
    hide LR.Inv;
    hide LR.TaskOk;
    hide LR.TurnFits;
    ActorCounts(w, Next(hash, w, Work(t, input)), t, turn);
  }

  lemma MoveHalts(s: Store, t: Id, pc: Option<WorkerPc>, target: TaskState, note: string, at: nat)
    requires LR.TaskOk(s, t, pc) && target in {Queued, Approved, Rejected}
    ensures TurnHalts(s.tasks[t].state, t, pc, Turn(Some(Transition(t, target, note, at)), pc, None))
  {
  }

  lemma EntryHalts(s: Store, t: Id)
    requires t in s.tasks
    ensures TurnHalts(s.tasks[t].state, t, None, Quiet(Entry(s.tasks[t])))
  {
  }

  /** Calls of ingress, approvers and rewriting actors that move no task leave every count alone. */
  lemma QuietCounts(w: World, w': World)
    requires Inv(w) && LR.Inv(w') && w'.workers == w.workers && w'.store.gateway == w.store.gateway
    requires w'.store.tasks == w.store.tasks
    ensures Inv(w')
  {
    forall t | t in w'.store.tasks ensures HaltOk(w'.store, t, LR.PcOf(w', t)) {
      assert HaltOk(w.store, t, LR.PcOf(w, t));
    }
  }

  lemma SubmitCounts(w: World, w': World, task: TaskRecord)
    requires Inv(w) && LR.Inv(w') && task.taskId == w.clock && task.state == Received
    requires w'.store == Exec(w.store, PutTask(task)) && w'.workers == w.workers
    ensures Inv(w')
  {
    hide HaltCount;
    forall t | t in w'.store.tasks ensures HaltOk(w'.store, t, LR.PcOf(w', t)) {
      assert t != task.taskId ==> HaltOk(w.store, t, LR.PcOf(w, t));
    }
  }

  lemma OthersKeep(hash: string -> string, w: World, l: Label)
    requires Inv(w) && !l.Crash? && !l.Work?
    ensures Inv(Next(hash, w, l))
  {
    hide HaltOk;
    hide HaltCount;
    hide LR.TaskOk;
    hide LR.TurnFits;
    hide TurnHalts;
    hide Log;
    LR.InvKept(hash, w, l);
    var w', c := Next(hash, w, l), Effect(hash, w, l);
    if l.Submit? {
      SubmitCounts(w, w', RequestedTask(l.request, w.clock));
    } else if c.Some? && c.value.Transition? && c.value.taskId in w.store.tasks {
      var t, pc := c.value.taskId, LR.PcOf(w, c.value.taskId);
      assert w'.workers == Set(w.workers, t, pc);
      MoveHalts(w.store, t, pc, c.value.target, c.value.note, c.value.at);
      LR.OthersFit(w.store, t, pc, c.value.target, c.value.note, c.value.at);
      ActorCounts(w, w', t, Turn(c, pc, None));
    } else if l.Deliver? && l.taskId in w.store.tasks && l.taskId !in w.workers {
      LR.RowOwn(w, l.taskId);
      EntryHalts(w.store, l.taskId);
      LR.EntryFits(w.store, l.taskId);
      ActorCounts(w, w', l.taskId, Quiet(Entry(w.store.tasks[l.taskId])));
    } else {
      QuietCounts(w, w');
    }
  }

  lemma {:induction false} RunKeeps(hash: string -> string, w: World, labels: seq<Label>)
    requires Inv(w) && CrashFree(labels)
    ensures Inv(Run(hash, w, labels))
  {
    if labels != [] {
      var w', l := Run(hash, w, labels[..|labels| - 1]), labels[|labels| - 1];
      RunKeeps(hash, w, labels[..|labels| - 1]);
      if l.Work? && l.taskId in w'.workers {
        WorkKeeps(hash, w', l.taskId, l.input);
      } else if l.Work? {
        IdleWork(hash, w', l);
      } else {
        OthersKeep(hash, w', l);
      }
    }
    hide Next;
    hide Inv;
  }

  lemma IdleWork(hash: string -> string, w: World, l: Label)
    requires Inv(w) && l.Work? && l.taskId !in w.workers
    ensures Inv(Next(hash, w, l))
  {
    hide HaltCount;
    hide HaltOk;
    LR.InvKept(hash, w, l);
    hide LR.Inv;
    QuietCounts(w, Next(hash, w, l));
  }

  /** In every run without crashes a task has at most one halt event, and it has one exactly when it is
      failed or its worker is between writing the event and failing the task. */
  lemma GovernedHalt(hash: string -> string, labels: seq<Label>, w: World, t: Id)
    requires CrashFree(labels) && w == Run(hash, INITIAL, labels) && t in w.store.tasks
    ensures HaltCount(w.store.gateway, t) <= 1
    ensures HaltCount(w.store.gateway, t) == 1
       <==> w.store.tasks[t].state == Failed || (t in w.workers && w.workers[t].HaltTask?)
  {
    RunKeeps(hash, INITIAL, labels);
    assert HaltOk(w.store, t, LR.PcOf(w, t));
  }

  // ---- Failed with calls ---------------------------------------------------------------------

  ghost predicate FailedWithRecords(s: Store, t: Id) {
    t in s.tasks && s.tasks[t].state == Failed && !SR.Untouched(s, t)
  }

  /** The claimed task halts in two more steps. */
  lemma HaltsAfterClaim(hash: string -> string, w: World, t: Id, r: Id)
    requires t in w.workers && w.workers[t].RunMesh? && t in w.store.tasks && w.store.tasks[t].state == Running
    requires r in w.store.approvals && w.store.approvals[r].taskId == t
    ensures FailedWithRecords(Next(hash, Next(hash, w, Work(t, Halt(""))), Work(t, Nothing)).store, t)
  {
    var w1 := Next(hash, w, Work(t, Halt("")));
    assert t in w1.workers && w1.workers[t].HaltTask? && w1.store.tasks == w.store.tasks;
    var w2 := Next(hash, w1, Work(t, Nothing));
    assert w2.store.approvals == w.store.approvals && w2.store.tasks[t].state == Failed;
  }

  lemma ClaimsAgain(hash: string -> string, w: World, t: Id)
    requires t in w.workers && w.workers[t].Claim? && t in w.store.tasks && w.store.tasks[t].state == Approved
    ensures var w' := Next(hash, w, Work(t, Nothing));
            && t in w'.workers && w'.workers[t].RunMesh? && t in w'.store.tasks && w'.store.tasks[t].state == Running
            && w'.store.approvals == w.store.approvals
  {
  }

  /** A parked task, delivered, approved before the claim, claimed again and halted: failed, with the
      approvals of its first run. */
  lemma OvertakenHalt(hash: string -> string, w: World, t: Id, r: Id, a: Id) returns (labels: seq<Label>)
    requires SR.Inv(w) && t in w.store.tasks && t !in w.workers && a !in w.approvers
    requires r in w.store.approvals && w.store.approvals[r].taskId == t
    requires w.store.tasks[t].state == AwaitingApproval
    ensures SR.DisciplinedRun(hash, Next(hash, w, Deliver(t)), labels)
    ensures FailedWithRecords(Run(hash, Next(hash, w, Deliver(t)), labels).store, t)
  {
    hide Next;
    hide Run;
    hide SR.Inv;
    hide SR.DisciplinedRun;
    hide FailedWithRecords;
    var w1 := Next(hash, w, Deliver(t));
    SR.DeliveredAwaiting(hash, w, t);
    var w5 := SR.ApproverOvertakes(hash, w1, t, r, a);
    ClaimsAgain(hash, w5, t);
    labels := SR.OvertakingLabels(hash, w1, t, r, a);
    HaltsAfterClaim(hash, Run(hash, w1, labels), t, r);
    SR.DisciplinedAppend(hash, w1, labels, Work(t, Halt("")));
    SR.RunAppend(hash, w1, labels, Work(t, Halt("")));
    labels := labels + [Work(t, Halt(""))];
    SR.DisciplinedAppend(hash, w1, labels, Work(t, Nothing));
    SR.RunAppend(hash, w1, labels, Work(t, Nothing));
    labels := labels + [Work(t, Nothing)];
  }

  lemma OrdinaryHalt(hash: string -> string, w: World, t: Id, labels: seq<Label>)
    requires SR.Inv(w) && t in w.store.tasks && t !in w.workers && w.store.tasks[t].state != AwaitingApproval
    requires SR.DisciplinedRun(hash, Next(hash, w, Deliver(t)), labels)
    ensures !FailedWithRecords(Run(hash, Next(hash, w, Deliver(t)), labels).store, t)
  {
    var w1 := Next(hash, w, Deliver(t));
    SR.InvKept(hash, w, Deliver(t));
    SR.RunKeeps(hash, w1, labels);
    hide Next;
    hide Run;
    var w2 := Run(hash, w1, labels);
    assert t in w2.store.tasks ==> SR.FlowOk(w2.store, t, LR.PcOf(w2, t));
  }

  /** In a world reached under the delivery discipline, delivering a known idle task with an approval
      record can lead to it being failed with records exactly when the delivery reads it awaiting
      approval. */
  lemma FailedWithRecordsIff(hash: string -> string, w: World, t: Id, r: Id, a: Id)
    requires SR.Inv(w) && t in w.store.tasks && t !in w.workers && a !in w.approvers
    requires r in w.store.approvals && w.store.approvals[r].taskId == t
    ensures (exists labels :: SR.DisciplinedRun(hash, Next(hash, w, Deliver(t)), labels)
                           && FailedWithRecords(Run(hash, Next(hash, w, Deliver(t)), labels).store, t))
       <==> w.store.tasks[t].state == AwaitingApproval
  {
    hide Next;
    hide Run;
    hide SR.Inv;
    hide SR.DisciplinedRun;
    hide FailedWithRecords;
    if w.store.tasks[t].state == AwaitingApproval {
      var labels := OvertakenHalt(hash, w, t, r, a);
    } else {
      forall labels | SR.DisciplinedRun(hash, Next(hash, w, Deliver(t)), labels)
        ensures !FailedWithRecords(Run(hash, Next(hash, w, Deliver(t)), labels).store, t)
      {
        OrdinaryHalt(hash, w, t, labels);
      }
    }
  }
}
