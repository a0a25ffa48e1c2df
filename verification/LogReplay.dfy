/** Under any interleaving and any crashes, a task's events replay to its stored state. */
module LogReplay {
  import opened Lifecycle
  import opened Records
  import opened Protocol

  /** The states a worker at this point relies on nobody else to leave. */
  predicate PcHolds(pc: WorkerPc, state: TaskState) {
    match pc
    case Claim(_) => true
    case RunMesh(_) => state == Running
    case HaltTask(_) => state == Running
    case Recheck(_, _) => state in {Running, Failed}
    case ReadCall(_, _, _, _) => state == Running
    case Complete(_, _, _) => state == Running
    case Summarize(done, _) => state == Completed && done.state == Completed
    case OpenCall(_, _, _, _) => state == Running
    case OpenApproval(_, _, _, _, _) => state == Running
    case LinkCall(_, _, _, _, _, _) => state == Running
    case ReadBack(_) => state == Running
    case Stash(current, _) => state == Running && current.state == Running
    case Park => state == Running
    case _ => state == Approved
  }

  /** Every row and call a worker holds a copy of is of its own task. */
  predicate PcOwns(pc: WorkerPc, t: Id) {
    match pc
    case Claim(task) => task.taskId == t
    case RunMesh(task) => task.taskId == t
    case HaltTask(task) => task.taskId == t
    case Recheck(task, _) => task.taskId == t
    case ReadCall(task, _, _, _) => task.taskId == t
    case Complete(task, _, _) => task.taskId == t
    case Summarize(done, _) => done.taskId == t
    case OpenCall(task, _, _, _) => task.taskId == t
    case OpenApproval(task, _, _, _, call) => task.taskId == t && call.taskId == t
    case LinkCall(task, _, _, _, call, _) => task.taskId == t && call.taskId == t
    case Stash(current, _) => current.taskId == t
    case FetchRecord(calls, _) => forall i :: 0 <= i < |calls| ==> calls[i].taskId == t
    case Settle(calls, _, _) => forall i :: 0 <= i < |calls| ==> calls[i].taskId == t
    case _ => true
  }

  lemma {:induction false} ListedAreOwn(calls: map<Id, ToolCall>, order: seq<Id>, t: Id, tenantId: string)
    ensures forall i :: 0 <= i < |ListCalls(calls, order, t, tenantId)| ==>
              ListCalls(calls, order, t, tenantId)[i].taskId == t
  {
    if order != [] {
      ListedAreOwn(calls, order[..|order| - 1], t, tenantId);
    }
  }

  function PcOf(w: World, t: Id): Option<WorkerPc> {
    if t in w.workers then Some(w.workers[t]) else None
  }

  ghost predicate TaskOk(s: Store, t: Id, pc: Option<WorkerPc>) {
    && t in s.tasks && s.tasks[t].taskId == t
    && LegalPath(Log(s.events, t))
    && Replay(Log(s.events, t)) == s.tasks[t].state
    && (pc.Some? ==> PcHolds(pc.value, s.tasks[t].state) && PcOwns(pc.value, t))
  }

  ghost predicate Inv(w: World) {
    && (forall t :: t in w.store.tasks ==> t < w.clock && TaskOk(w.store, t, PcOf(w, t)))
    && (forall t :: t in w.workers ==> t in w.store.tasks)
    && (forall t :: t !in w.store.tasks ==> Log(w.store.events, t) == [])
  }

  /** The one task whose row or log a repository call can touch. */
  predicate Touches(c: Option<RepoCall>, t: Id) {
    c.Some? && ((c.value.PutTask? && c.value.task.taskId == t) || (c.value.Transition? && c.value.taskId == t))
  }

  /** Calls about other tasks leave a task's row and log alone. */
  lemma Frame(s: Store, c: Option<RepoCall>, t: Id)
    requires !Touches(c, t)
    ensures t in ExecSome(s, c).tasks <==> t in s.tasks
    ensures t in s.tasks ==> ExecSome(s, c).tasks[t] == s.tasks[t]
    ensures Log(ExecSome(s, c).events, t) == Log(s.events, t)
  {
    hide Log;
    hide CanTransition;
    if c.Some? && c.value.Transition? {
      var u := c.value.taskId;
      if Legal(s, u, c.value.target) {
        LogAppend(s.events, TaskEvent(u, s.tasks[u].tenantId, c.value.target, c.value.note), t);
      }
    }
  }

  /** The state a call leaves its task in, when the task had state `state` before. */
  function StateAfter(c: Option<RepoCall>, state: TaskState): TaskState {
    if c.Some? && c.value.Transition? && CanTransition(state, c.value.target) then c.value.target else state
  }

  /** A turn as its own task sees it: it moves only that task's row, a raw row write-back carries
      the state the row already has, and what the worker relies on next holds afterwards. */
  predicate TurnFits(s: Store, t: Id, turn: Turn)
    requires t in s.tasks
  {
    && (turn.call.Some? && turn.call.value.PutTask? ==>
          turn.call.value.task.taskId == t && turn.call.value.task.state == s.tasks[t].state)
    && (turn.call.Some? && turn.call.value.Transition? ==> turn.call.value.taskId == t)
    && (turn.next.Some? ==>
          PcOwns(turn.next.value, t) && PcHolds(turn.next.value, StateAfter(turn.call, s.tasks[t].state)))
  }

  lemma WorkerTurnFits(hash: string -> string, s: Store, t: Id, pc: WorkerPc, now: nat, input: Input)
    requires t in s.tasks && s.tasks[t].taskId == t
    requires PcHolds(pc, s.tasks[t].state) && PcOwns(pc, t)
    ensures TurnFits(s, t, WorkerTurn(hash, s, t, pc, now, input))
  {
    if pc.ReadCall? || pc.OpenCall? || pc.OpenApproval? || pc.LinkCall? || pc.ReadBack? || pc.Stash? {
      ItemTurnFits(hash, s, t, pc, now, input);
    } else if pc.Resume? || pc.ResumeRecheck? || pc.ListPending? || pc.FetchRecord? || pc.Settle? || pc.Finish? {
      ResumeTurnFits(hash, s, t, pc, now, input);
    } else {
      TaskTurnFits(hash, s, t, pc, now, input);
    }
  }

  lemma TaskTurnFits(hash: string -> string, s: Store, t: Id, pc: WorkerPc, now: nat, input: Input)
    requires t in s.tasks && s.tasks[t].taskId == t
    requires PcHolds(pc, s.tasks[t].state) && PcOwns(pc, t)
    requires pc.Claim? || pc.RunMesh? || pc.HaltTask? || pc.Recheck? || pc.Complete? || pc.Summarize? || pc.Park?
    ensures TurnFits(s, t, WorkerTurn(hash, s, t, pc, now, input))
  {
  }

  lemma ItemTurnFits(hash: string -> string, s: Store, t: Id, pc: WorkerPc, now: nat, input: Input)
    requires t in s.tasks && s.tasks[t].taskId == t
    requires PcHolds(pc, s.tasks[t].state) && PcOwns(pc, t)
    requires pc.ReadCall? || pc.OpenCall? || pc.OpenApproval? || pc.LinkCall? || pc.ReadBack? || pc.Stash?
    ensures TurnFits(s, t, WorkerTurn(hash, s, t, pc, now, input))
  {
  }

  lemma ResumeTurnFits(hash: string -> string, s: Store, t: Id, pc: WorkerPc, now: nat, input: Input)
    requires t in s.tasks && s.tasks[t].taskId == t
    requires PcHolds(pc, s.tasks[t].state) && PcOwns(pc, t)
    requires pc.Resume? || pc.ResumeRecheck? || pc.ListPending? || pc.FetchRecord? || pc.Settle? || pc.Finish?
    ensures TurnFits(s, t, WorkerTurn(hash, s, t, pc, now, input))
  {
    hide IsApproved;
    hide ExecutedCall;
    hide ListCalls;
    if pc.ListPending? {
      ListedAreOwn(s.calls, s.callOrder, t, pc.task.tenantId);
    }
  }

  /** A fitting call keeps a task's log and state together, raw row write-backs included. */
  lemma FittingKeeps(s: Store, t: Id, turn: Turn)
    requires TaskOk(s, t, None) && TurnFits(s, t, turn)
    ensures TaskOk(ExecSome(s, turn.call), t, turn.next)
  {
    if turn.call.Some? {
      match turn.call.value
      case Transition(_, target, note, at) =>
        if CanTransition(s.tasks[t].state, target) {
          LogAppend(s.events, TaskEvent(t, s.tasks[t].tenantId, target, note), t);
          LegalPathExtend(Log(s.events, t), target);
        }
      case _ =>
    }
  }

  /** One step of whoever acts on task `t` keeps the invariant of every task. */
  lemma ActorKeeps(w: World, w': World, t: Id, turn: Turn)
    requires Inv(w) && t in w.store.tasks && TurnFits(w.store, t, turn)
    requires w'.store == ExecSome(w.store, turn.call) && w'.clock == w.clock + 1
    requires w'.workers == Set(w.workers, t, turn.next)
    ensures Inv(w')
  {
    hide Exec;
    hide ExecSome;
    hide LegalPath;
    hide PcHolds;
    hide PcOwns;
    hide TurnFits;
    hide Log;
    FittingKeeps(w.store, t, turn);
    OthersFramed(w.store, t, turn);
  }

  lemma OthersFramed(s: Store, t: Id, turn: Turn)
    requires t in s.tasks && TurnFits(s, t, turn)
    ensures var s' := ExecSome(s, turn.call);
            forall u :: u != t ==>
              && (u in s'.tasks <==> u in s.tasks)
              && (u in s.tasks ==> s'.tasks[u] == s.tasks[u])
              && Log(s'.events, u) == Log(s.events, u)
  {
    forall u | u != t
      ensures var s' := ExecSome(s, turn.call);
              && (u in s'.tasks <==> u in s.tasks)
              && (u in s.tasks ==> s'.tasks[u] == s.tasks[u])
              && Log(s'.events, u) == Log(s.events, u)
    {
      Frame(s, turn.call, u);
    }
  }

  lemma SubmitKeeps(w: World, w': World, task: TaskRecord)
    requires Inv(w) && task.taskId == w.clock && task.state == Received
    requires w'.store == Exec(w.store, PutTask(task)) && w'.clock == w.clock + 1
    requires w'.workers == w.workers
    ensures Inv(w')
  {
  }

  lemma WorkKeeps(hash: string -> string, w: World, t: Id, input: Input)
    requires Inv(w)
    ensures Inv(Next(hash, w, Work(t, input)))
  {
    hide WorkerTurn;
    hide TurnFits;
    hide Log;
    hide LegalPath;
    hide PcHolds;
    hide PcOwns;
    if t in w.workers {
      RowOwn(w, t);
      WorkerTurnFits(hash, w.store, t, w.workers[t], w.clock, input);
      var turn := WorkerTurn(hash, w.store, t, w.workers[t], w.clock, input);
      ActorKeeps(w, Next(hash, w, Work(t, input)), t, turn);
    }
  }

  /** The rely of a worker: no move of ingress or of an approver disturbs it. */
  lemma OthersFit(s: Store, t: Id, pc: Option<WorkerPc>, target: TaskState, note: string, at: nat)
    requires TaskOk(s, t, pc) && target in {Queued, Approved, Rejected}
    ensures TurnFits(s, t, Turn(Some(Transition(t, target, note, at)), pc, None))
  {
  }

  lemma EntryFits(s: Store, t: Id)
    requires t in s.tasks && s.tasks[t].taskId == t
    ensures TurnFits(s, t, Quiet(Entry(s.tasks[t])))
  {
  }

  lemma NothingMoves(w: World, w': World)
    requires Inv(w) && w'.clock == w.clock + 1
    requires w'.store.tasks == w.store.tasks && w'.store.events == w.store.events
    requires forall t :: t in w'.workers ==> t in w.workers && w'.workers[t] == w.workers[t]
    ensures Inv(w')
  {
    forall t | t in w'.store.tasks ensures TaskOk(w'.store, t, PcOf(w', t)) {
      assert TaskOk(w.store, t, PcOf(w, t));
    }
  }

  /** What the invariant says about a worker in flight. */
  lemma PcFacts(w: World, t: Id)
    requires Inv(w) && t in w.workers
    ensures t in w.store.tasks && w.store.tasks[t].taskId == t
    ensures PcHolds(w.workers[t], w.store.tasks[t].state) && PcOwns(w.workers[t], t)
  {
    assert TaskOk(w.store, t, PcOf(w, t));
  }

  lemma RowOwn(w: World, t: Id)
    requires Inv(w) && t in w.store.tasks
    ensures w.store.tasks[t].taskId == t
  {
    assert TaskOk(w.store, t, PcOf(w, t));
  }

  lemma OthersKeep(hash: string -> string, w: World, l: Label)
    requires Inv(w) && !l.Work?
    ensures Inv(Next(hash, w, l))
  {
    hide LegalPath;
    hide PcHolds;
    hide PcOwns;
    hide Legal;
    hide TaskOk;
    hide TurnFits;
    hide Log;
    var w', c := Next(hash, w, l), Effect(hash, w, l);
    if l.Submit? {
      SubmitKeeps(w, w', RequestedTask(l.request, w.clock));
    } else if c.Some? && c.value.Transition? {
      MoveKeeps(w, w', c.value.taskId, c.value.target, c.value.note, c.value.at);
    } else if l.Deliver? && l.taskId in w.store.tasks && l.taskId !in w.workers {
      RowOwn(w, l.taskId);
      EntryFits(w.store, l.taskId);
      ActorKeeps(w, w', l.taskId, Quiet(Entry(w.store.tasks[l.taskId])));
    } else {
      NothingMoves(w, w');
    }
  }

  lemma MoveKeeps(w: World, w': World, t: Id, target: TaskState, note: string, at: nat)
    requires Inv(w) && target in {Queued, Approved, Rejected}
    requires w'.store == Exec(w.store, Transition(t, target, note, at))
    requires w'.workers == w.workers && w'.clock == w.clock + 1
    ensures Inv(w')
  {
    hide Log;
    hide LegalPath;
    hide PcHolds;
    hide PcOwns;
    hide TurnFits;
    hide CanTransition;
    if t in w.store.tasks {
      OthersFit(w.store, t, PcOf(w, t), target, note, at);
      assert w'.workers == Set(w.workers, t, PcOf(w, t));
      ActorKeeps(w, w', t, Turn(Some(Transition(t, target, note, at)), PcOf(w, t), None));
    } else {
      NothingMoves(w, w');
    }
  }

  lemma InvKept(hash: string -> string, w: World, l: Label)
    requires Inv(w)
    ensures Inv(Next(hash, w, l))
  {
    if l.Work? {
      WorkKeeps(hash, w, l.taskId, l.input);
    } else {
      OthersKeep(hash, w, l);
    }
  }

  lemma {:induction false} RunKeeps(hash: string -> string, w: World, labels: seq<Label>)
    requires Inv(w)
    ensures Inv(Run(hash, w, labels))
  {
    if labels != [] {
      RunKeeps(hash, w, labels[..|labels| - 1]);
      InvKept(hash, Run(hash, w, labels[..|labels| - 1]), labels[|labels| - 1]);
    }
  }

  /** In every world any interleaving can reach, each task's events replay to its stored state
      along legal transitions. */
  lemma LogReplaysToState(hash: string -> string, labels: seq<Label>, w: World, t: Id)
    requires w == Run(hash, INITIAL, labels) && t in w.store.tasks
    ensures LegalPath(Log(w.store.events, t)) && Replay(Log(w.store.events, t)) == w.store.tasks[t].state
  {
    RunKeeps(hash, INITIAL, labels);
  }

  /** Whatever happens later, a terminal task keeps its state and its log. */
  lemma {:induction false} TerminalIsFinal(hash: string -> string, w: World, labels: seq<Label>, t: Id)
    requires Inv(w) && t in w.store.tasks && IsTerminal(w.store.tasks[t].state)
    ensures var s := Run(hash, w, labels).store;
            t in s.tasks && s.tasks[t].state == w.store.tasks[t].state
            && Log(s.events, t) == Log(w.store.events, t)
  {
    if labels != [] {
      var before := labels[..|labels| - 1];
      TerminalIsFinal(hash, w, before, t);
      RunKeeps(hash, w, before);
      TerminalStep(hash, Run(hash, w, before), labels[|labels| - 1], t);
    }
  }

  lemma TerminalStep(hash: string -> string, w: World, l: Label, t: Id)
    requires Inv(w) && t in w.store.tasks && IsTerminal(w.store.tasks[t].state)
    ensures var s := Next(hash, w, l).store;
            t in s.tasks && s.tasks[t].state == w.store.tasks[t].state
            && Log(s.events, t) == Log(w.store.events, t)
  {
    if l.Work? && l.taskId in w.workers {
      TerminalWork(hash, w, l.taskId, l.input, t);
    } else {
      TerminalOther(hash, w, l, t);
    }
  }

  lemma TerminalOther(hash: string -> string, w: World, l: Label, t: Id)
    requires Inv(w) && t in w.store.tasks && IsTerminal(w.store.tasks[t].state)
    requires l.Work? ==> l.taskId !in w.workers
    ensures var s := Next(hash, w, l).store;
            t in s.tasks && s.tasks[t].state == w.store.tasks[t].state
            && Log(s.events, t) == Log(w.store.events, t)
  {
    ActorTouches(hash, w, l, t);
    hide Inv;
    hide Effect;
    hide Log;
    hide CanTransition;
    if !Touches(Effect(hash, w, l), t) {
      Frame(w.store, Effect(hash, w, l), t);
    }
  }

  /** Nobody but its worker moves a terminal task, or replaces its row. */
  lemma ActorTouches(hash: string -> string, w: World, l: Label, t: Id)
    requires Inv(w) && t in w.store.tasks && IsTerminal(w.store.tasks[t].state)
    requires l.Work? ==> l.taskId !in w.workers
    ensures var c := Effect(hash, w, l);
            Touches(c, t) ==> c.value.Transition? && !Legal(w.store, t, c.value.target)
  {
    hide WorkerTurn;
    hide TaskOk;
  }

  lemma TerminalWork(hash: string -> string, w: World, u: Id, input: Input, t: Id)
    requires Inv(w) && t in w.store.tasks && IsTerminal(w.store.tasks[t].state) && u in w.workers
    ensures var s := Next(hash, w, Work(u, input)).store;
            t in s.tasks && s.tasks[t].state == w.store.tasks[t].state
            && Log(s.events, t) == Log(w.store.events, t)
  {
    var turn := WorkerTurn(hash, w.store, u, w.workers[u], w.clock, input);
    WorkerTurnFits(hash, w.store, u, w.workers[u], w.clock, input);
    hide WorkerTurn;
    hide TurnFits;
    TerminalTurn(w.store, u, turn, t);
  }

  lemma TerminalTurn(s: Store, u: Id, turn: Turn, t: Id)
    requires u in s.tasks && TurnFits(s, u, turn)
    requires t in s.tasks && IsTerminal(s.tasks[t].state)
    ensures var s' := ExecSome(s, turn.call);
            t in s'.tasks && s'.tasks[t].state == s.tasks[t].state && Log(s'.events, t) == Log(s.events, t)
  {
    hide Log;
    hide PcHolds;
    hide PcOwns;
    if !Touches(turn.call, t) {
      Frame(s, turn.call, t);
    }
  }
}
