/** Single-process mode: the task service publishes to an in-process queue, and a drain loop empties
    it. Between calls the queue and the task states agree. */
module SingleProcess {
  import opened Lifecycle
  import opened Records
  import opened Protocol
  import opened Repository
  import opened Runner
  import Halts
  import LR = LogReplay
  import SR = SingleRun
  import WriteGate

  class InProcessDispatcher {
    var queue: seq<Id>

    constructor ()
      ensures queue == []
    {
      queue := [];
    }

    method PublishTask(t: Id)
      modifies this
      ensures queue == old(queue) + [t]
    {
      queue := queue + [t];
    }

    /** The oldest published task; nothing, where the source raises, when none is left. */
    method Get() returns (t: Option<Id>)
      modifies this
      ensures t.None? <==> old(queue) == []
      ensures t.None? ==> queue == old(queue)
      ensures t.Some? ==> [t.value] + queue == old(queue)
    {
      if queue == [] {
        return None;
      }
      t := Some(queue[0]);
      queue := queue[1..];
    }
  }

  // ---- The invariant between calls -----------------------------------------------------------

  predicate Waiting(state: TaskState) {
    state in {Queued, Approved}
  }

  /** A task is in the queue exactly once when it waits for a worker, and not at all otherwise. */
  ghost predicate QueueAgrees(tasks: map<Id, TaskRecord>, queue: seq<Id>) {
    forall t :: multiset(queue)[t] == if t in tasks && Waiting(tasks[t].state) then 1 else 0
  }

  /** Nothing is in flight, and every step so far kept the delivery discipline. */
  ghost predicate Idle(hash: string -> string, w: World, trail: seq<Label>) {
    && w.workers == map[] && w.approvers == map[] && w.ingress == {}
    && SR.DisciplinedRun(hash, INITIAL, trail) && CrashFree(trail)
  }

  // ---- Steps of the service ------------------------------------------------------------------

  lemma SubmitStep(hash: string -> string, w: World, request: TaskRecord)
    ensures var w' := Next(hash, w, Submit(request));
            && Effect(hash, w, Submit(request)) == Some(PutTask(RequestedTask(request, w.clock)))
            && w'.store == Exec(w.store, PutTask(RequestedTask(request, w.clock)))
            && w'.workers == w.workers && w'.approvers == w.approvers && w'.ingress == w.ingress + {w.clock}
  {
  }

  lemma EnqueueStep(hash: string -> string, w: World, t: Id)
    requires t in w.ingress
    ensures var w' := Next(hash, w, Enqueue(t));
            && Effect(hash, w, Enqueue(t)) == Some(Transition(t, Queued, "enqueued by ingress", w.clock))
            && w'.store == Exec(w.store, Transition(t, Queued, "enqueued by ingress", w.clock))
            && w'.workers == w.workers && w'.approvers == w.approvers && w'.ingress == w.ingress - {t}
  {
  }

  lemma DecideStep(hash: string -> string, w: World, a: Id, r: Id, decision: Decision, who: string, channel: string)
    requires a !in w.approvers
    ensures var w' := Next(hash, w, Decide(a, r, decision, who, channel));
            && Effect(hash, w, Decide(a, r, decision, who, channel)) == None && w'.store == w.store
            && w'.workers == w.workers && w'.ingress == w.ingress
            && w'.approvers == if r in w.store.approvals
                               then w.approvers[a := WriteDecision(w.store.approvals[r], decision, who, channel)]
                               else w.approvers
  {
  }

  lemma AdvanceStep(hash: string -> string, w: World, a: Id)
    requires a in w.approvers
    ensures var w' := Next(hash, w, Advance(a));
            && Effect(hash, w, Advance(a)) == ApproverTurn(w.store, w.approvers[a], w.clock).0
            && w'.store == ExecSome(w.store, ApproverTurn(w.store, w.approvers[a], w.clock).0)
            && w'.workers == w.workers && w'.ingress == w.ingress
            && w'.approvers == Set(w.approvers, a, ApproverTurn(w.store, w.approvers[a], w.clock).1)
  {
  }

  /** Steps that are neither deliveries nor crashes keep the discipline. */
  lemma {:induction false} ServiceDisciplined(hash: string -> string, trail: seq<Label>, more: seq<Label>)
    requires SR.DisciplinedRun(hash, INITIAL, trail)
    requires forall i :: 0 <= i < |more| ==> !more[i].Deliver? && !more[i].Crash?
    ensures SR.DisciplinedRun(hash, INITIAL, trail + more)
  {
    hide Next;
    hide Run;
    hide SR.DisciplinedRun;
    if more == [] {
      assert trail + more == trail;
    } else {
      var before := more[..|more| - 1];
      ServiceDisciplined(hash, trail, before);
      SR.DisciplinedAppend(hash, INITIAL, trail + before, more[|more| - 1]);
      assert trail + more == trail + before + [more[|more| - 1]];
    }
  }

  /** Processing a task that does not await approval keeps the discipline. */
  lemma ProcessDisciplined(hash: string -> string, w: World, trail: seq<Label>, w': World, trail': seq<Label>, t: Id)
    requires SR.DisciplinedRun(hash, INITIAL, trail) && w == Run(hash, INITIAL, trail)
    requires t in w.store.tasks ==> w.store.tasks[t].state != AwaitingApproval
    requires OnlyProcesses(w, trail, w', trail', t)
    ensures SR.DisciplinedRun(hash, INITIAL, trail') && (CrashFree(trail) ==> CrashFree(trail'))
  {
    hide Next;
    hide Run;
    hide SR.DisciplinedRun;
    SR.DisciplinedAppend(hash, INITIAL, trail, Deliver(t));
    var more := trail'[|trail| + 1..];
    ServiceDisciplined(hash, trail + [Deliver(t)], more);
    assert trail' == trail + [Deliver(t)] + more;
  }

  // ---- Queue agreement, on maps --------------------------------------------------------------

  lemma Published(tasks: map<Id, TaskRecord>, tasks': map<Id, TaskRecord>, queue: seq<Id>, t: Id)
    requires QueueAgrees(tasks, queue) && t in tasks' && tasks' == tasks[t := tasks'[t]]
    requires (t in tasks ==> !Waiting(tasks[t].state)) && Waiting(tasks'[t].state)
    ensures QueueAgrees(tasks', queue + [t])
  {
  }

  lemma Drained(tasks: map<Id, TaskRecord>, tasks': map<Id, TaskRecord>, queue: seq<Id>, t: Id)
    requires QueueAgrees(tasks, [t] + queue) && t in tasks' && tasks' == tasks[t := tasks'[t]]
    requires !Waiting(tasks'[t].state)
    ensures QueueAgrees(tasks', queue)
  {
    assert multiset([t] + queue) == multiset{t} + multiset(queue);
  }

  lemma HeadWaits(tasks: map<Id, TaskRecord>, t: Id, queue: seq<Id>)
    requires QueueAgrees(tasks, [t] + queue)
    ensures t in tasks && Waiting(tasks[t].state)
  {
    assert multiset([t] + queue)[t] >= 1;
  }

  lemma Unmoved(tasks: map<Id, TaskRecord>, tasks': map<Id, TaskRecord>, queue: seq<Id>, t: Id)
    requires QueueAgrees(tasks, queue) && t in tasks' && tasks' == tasks[t := tasks'[t]]
    requires (t in tasks ==> !Waiting(tasks[t].state)) && !Waiting(tasks'[t].state)
    ensures QueueAgrees(tasks', queue)
  {
  }

  /** A store before and after a submission that goes through. */
  predicate Submitting(s: Store, s': Store, request: TaskRecord, id: Id) {
    && id in s'.tasks && s'.tasks == s.tasks[id := s'.tasks[id]]
    && s'.tasks[id] == RequestedTask(request, id).(state := Queued, updatedAt := s'.tasks[id].updatedAt)
    && s'.events == s.events + [TaskEvent(id, request.tenantId, Queued, "enqueued by ingress")]
    && s'.calls == s.calls && s'.approvals == s.approvals
  }

  lemma SubmissionIs(s: Store, request: TaskRecord, id: Id, at: nat)
    ensures var s1 := Exec(s, PutTask(RequestedTask(request, id)));
            && Legal(s1, id, Queued)
            && Submitting(s, Exec(s1, Transition(id, Queued, "enqueued by ingress", at)), request, id)
  {
  }

  // ---- The service ---------------------------------------------------------------------------

  /** What a service call returns, or the error it raises. */
  datatype Submitted = Recorded(record: ApprovalRecord) | UnknownApproval | RefusedMove(record: ApprovalRecord)

  /** The record after a decision: who decided what, over which channel and when; all else as it was. */
  predicate Decided(was: ApprovalRecord, record: ApprovalRecord, decision: Decision, approverId: string,
                    channel: string) {
    && record == ApprovalRecord(was.recordId, was.requestId, was.taskId, was.tenantId, was.toolCallId, decision,
                                Some(approverId), Some(channel), was.payloadHash, record.decidedAt, was.createdAt)
    && record.decidedAt.Some?
  }

  /** The event a decision leaves with its task. */
  function Noted(task: TaskRecord, t: Id, decision: Decision, channel: string): TaskEvent {
    if decision == Approve then TaskEvent(t, task.tenantId, Approved, "approved via " + channel)
    else TaskEvent(t, task.tenantId, Rejected, "rejected via " + channel)
  }

  class TaskService {
    const repo: InMemoryRepository
    const dispatcher: InProcessDispatcher

    constructor (repo: InMemoryRepository, dispatcher: InProcessDispatcher)
      ensures this.repo == repo && this.dispatcher == dispatcher
    {
      this.repo, this.dispatcher := repo, dispatcher;
    }

    ghost predicate Ready()
      reads repo, dispatcher
    {
      repo.Valid() && Idle(repo.hash, repo.world, repo.trail) && QueueAgrees(repo.tasks, dispatcher.queue)
    }

    /** Persists the task, moves it to Queued, and only then publishes it. */
    method CreateTask(request: TaskRecord) returns (task: TaskRecord)
      requires Ready()
      modifies repo, dispatcher
      ensures Ready()
      ensures task.taskId !in old(repo.tasks) && repo.tasks == old(repo.tasks)[task.taskId := task]
      ensures task == TaskRecord(task.taskId, request.tenantId, request.clientSlug, request.entrypoint,
                                 request.requesterId, request.sessionId, request.prompt, Queued,
                                 request.modelRouteProfile, None, None, request.metadata, task.taskId, task.updatedAt)
      ensures repo.events
           == old(repo.events) + [TaskEvent(task.taskId, request.tenantId, Queued, "enqueued by ingress")]
      ensures Log(repo.events, task.taskId) == [Queued]
      ensures dispatcher.queue == old(dispatcher.queue) + [task.taskId]
      ensures repo.calls == old(repo.calls) && repo.approvals == old(repo.approvals)
    {
      hide Next;
      hide Run;
      hide Effect;
      hide SR.DisciplinedRun;
      hide QueueAgrees;
      hide Exec;
      hide Legal;
      ghost var w, trail := repo.world, repo.trail;
      var id := repo.clock;
      NewId(repo.hash, repo.trail);
      SubmitStep(repo.hash, repo.world, request);
      repo.CreateTask(RequestedTask(request, id), Submit(request));
      SubmissionIs(w.store, request, id, repo.clock);
      EnqueueStep(repo.hash, repo.world, id);
      LogAppend(w.store.events, TaskEvent(id, request.tenantId, Queued, "enqueued by ingress"), id);
      var queued := repo.TransitionTask(id, Queued, "enqueued by ingress", Enqueue(id));
      task := queued.value;
      ServiceDisciplined(repo.hash, trail, [Submit(request), Enqueue(id)]);
      assert repo.trail == trail + [Submit(request), Enqueue(id)];
      dispatcher.PublishTask(id);
      Published(w.store.tasks, repo.tasks, old(dispatcher.queue), id);
    }

    /** Writes a decision to the ledger, whatever the record said before. */
    method RecordDecision(ghost a: Id, r: Id, decision: Decision, approverId: string, channel: string)
      returns (record: Option<ApprovalRecord>)
      requires repo.Valid() && repo.world.approvers == map[]
      modifies repo
      ensures repo.Valid() && repo.world.workers == old(repo.world.workers)
      ensures repo.world.ingress == old(repo.world.ingress)
      ensures record.Some? <==> r in old(repo.approvals)
      ensures record.None? ==> repo.Model() == old(repo.Model()) && repo.world.approvers == map[]
      ensures record.None? ==> repo.trail == old(repo.trail) + [Decide(a, r, decision, approverId, channel)]
      ensures record.Some? ==>
                && Decided(old(repo.approvals)[r], record.value, decision, approverId, channel)
                && repo.Model() == Exec(old(repo.Model()), PutApproval(record.value))
                && repo.world.approvers == map[a := FindTask(record.value.taskId, decision, channel)]
                && repo.trail == old(repo.trail) + [Decide(a, r, decision, approverId, channel), Advance(a)]
    {
      hide Next;
      hide Run;
      hide Effect;
      DecideStep(repo.hash, repo.world, a, r, decision, approverId, channel);
      record := repo.GetApproval(r, Decide(a, r, decision, approverId, channel));
      if record.Some? {
        var updated := record.value.(decision := decision, approverId := Some(approverId), channel := Some(channel),
                                     decidedAt := Some(repo.clock));
        AdvanceStep(repo.hash, repo.world, a);
        repo.UpsertApproval(updated, Advance(a));
        record := Some(updated);
      }
    }

    /** Moves the task on after a decision: to Approved, and back into the queue, or to Rejected.
        Nothing when the lifecycle refuses the move. */
    method MoveTask(ghost a: Id, t: Id, decision: Decision, channel: string) returns (moved: bool)
      requires repo.Valid() && repo.world.approvers == map[a := Protocol.MoveTask(t, decision, channel)]
      requires t in repo.tasks && decision in {Approve, Reject} && QueueAgrees(repo.tasks, dispatcher.queue)
      modifies repo, dispatcher
      ensures repo.Valid() && repo.world.workers == old(repo.world.workers)
      ensures repo.world.ingress == old(repo.world.ingress)
      ensures repo.world.approvers == map[] && repo.trail == old(repo.trail) + [Advance(a)]
      ensures moved <==> old(repo.tasks)[t].state == AwaitingApproval
      ensures !moved ==> repo.Model() == old(repo.Model())
      ensures moved ==>
                && repo.calls == old(repo.calls) && repo.approvals == old(repo.approvals) && t in repo.tasks
                && repo.events == old(repo.events) + [Noted(old(repo.tasks)[t], t, decision, channel)]
                && repo.tasks == old(repo.tasks)[t := repo.tasks[t]]
                && repo.tasks[t] == old(repo.tasks)[t].(state := if decision == Approve then Approved else Rejected,
                                                        updatedAt := repo.tasks[t].updatedAt)
      ensures dispatcher.queue == old(dispatcher.queue) + (if moved && decision == Approve then [t] else [])
      ensures QueueAgrees(repo.tasks, dispatcher.queue)
    {
      hide Next;
      hide Run;
      hide Effect;
      hide QueueAgrees;
      ghost var was := repo.tasks;
      OnlyAwaitingMoves(was[t].state);
      AdvanceStep(repo.hash, repo.world, a);
      if decision == Approve {
        var approved := repo.TransitionTask(t, Approved, "approved via " + channel, Advance(a));
        moved := approved.Some?;
        if moved {
          dispatcher.PublishTask(t);
          Published(was, repo.tasks, old(dispatcher.queue), t);
        }
      } else {
        var rejected := repo.TransitionTask(t, Rejected, "rejected via " + channel, Advance(a));
        moved := rejected.Some?;
        if moved {
          Unmoved(was, repo.tasks, dispatcher.queue, t);
        }
      }
    }

    /** Records a decision and moves the task forward. The ledger is written even when the move is then
        refused. */
    method SubmitApprovalDecision(r: Id, decision: Decision, approverId: string, channel: string) returns (s: Submitted)
      requires Ready()
      modifies repo, dispatcher
      ensures Ready()
      ensures s.UnknownApproval? <==> r !in old(repo.approvals)
      ensures s.UnknownApproval? ==> repo.Model() == old(repo.Model()) && dispatcher.queue == old(dispatcher.queue)
      ensures !s.UnknownApproval? ==>
                && repo.approvals == old(repo.approvals)[r := s.record] && repo.calls == old(repo.calls)
                && Decided(old(repo.approvals)[r], s.record, decision, approverId, channel)
      ensures s.RefusedMove? <==>
                && r in old(repo.approvals) && decision in {Approve, Reject}
                && old(repo.approvals)[r].taskId in old(repo.tasks)
                && old(repo.tasks)[old(repo.approvals)[r].taskId].state != AwaitingApproval
      ensures s.RefusedMove? ==>
                && repo.tasks == old(repo.tasks) && repo.events == old(repo.events)
                && dispatcher.queue == old(dispatcher.queue)
      ensures s.Recorded? && s.record.taskId in old(repo.tasks) && decision in {Approve, Reject} ==>
                var t := s.record.taskId;
                && t in repo.tasks && repo.tasks == old(repo.tasks)[t := repo.tasks[t]]
                && repo.tasks[t] == old(repo.tasks)[t].(state := if decision == Approve then Approved else Rejected,
                                                        updatedAt := repo.tasks[t].updatedAt)
                && repo.events == old(repo.events) + [Noted(old(repo.tasks)[t], t, decision, channel)]
                && dispatcher.queue == old(dispatcher.queue) + (if decision == Approve then [t] else [])
      ensures s.Recorded? && (s.record.taskId !in old(repo.tasks) || decision !in {Approve, Reject}) ==>
                && repo.tasks == old(repo.tasks) && repo.events == old(repo.events)
                && dispatcher.queue == old(dispatcher.queue)
    {
      hide Next;
      hide Run;
      hide Effect;
      hide SR.DisciplinedRun;
      hide QueueAgrees;
      ghost var a, trail := repo.clock, repo.trail;
      if r in repo.approvals {
        OwnNumber(repo.hash, trail, r);
      }
      var found := RecordDecision(a, r, decision, approverId, channel);
      ServiceDisciplined(repo.hash, trail, [Decide(a, r, decision, approverId, channel)]);
      if found.None? {
        return UnknownApproval;
      }
      var record := found.value;
      AdvanceStep(repo.hash, repo.world, a);
      var task := repo.GetTask(record.taskId, Advance(a));
      if task.None? || decision !in {Approve, Reject} {
        ServiceDisciplined(repo.hash, trail, [Decide(a, r, decision, approverId, channel), Advance(a), Advance(a)]);
        assert repo.trail == trail + [Decide(a, r, decision, approverId, channel), Advance(a), Advance(a)];
        return Recorded(record);
      }
      var moved := MoveTask(a, record.taskId, decision, channel);
      var steps := [Decide(a, r, decision, approverId, channel), Advance(a), Advance(a), Advance(a)];
      ServiceDisciplined(repo.hash, trail, steps);
      assert repo.trail == trail + steps;
      s := if moved then Recorded(record) else RefusedMove(record);
    }
  }

  lemma OnlyAwaitingMoves(state: TaskState)
    ensures CanTransition(state, Approved) <==> state == AwaitingApproval
    ensures CanTransition(state, Rejected) <==> state == AwaitingApproval
  {
  }

  lemma OwnNumber(hash: string -> string, labels: seq<Label>, r: Id)
    requires r in Run(hash, INITIAL, labels).store.approvals
    ensures Run(hash, INITIAL, labels).store.approvals[r].recordId == r
  {
    WriteGate.RunKeeps(hash, labels);
    hide Run;
    hide WriteGate.RecordOk;
  }

  lemma NewId(hash: string -> string, labels: seq<Label>)
    ensures var w := Run(hash, INITIAL, labels); w.clock !in w.store.tasks && Log(w.store.events, w.clock) == []
  {
    LR.RunKeeps(hash, INITIAL, labels);
    hide Run;
    hide LR.TaskOk;
  }

  // ---- The drain loop ------------------------------------------------------------------------

  /** The task is terminal, or awaits a decision on a pending record of its own. */
  ghost predicate Rests(s: Store, t: Id) {
    && t in s.tasks
    && (IsTerminal(s.tasks[t].state)
        || (s.tasks[t].state == AwaitingApproval
            && exists r :: r in s.approvals && s.approvals[r].taskId == t && s.approvals[r].decision == Pending))
  }

  /** What one `process` of a waiting task changes beyond its own calls. */
  ghost predicate Settles(s: Store, s': Store, t: Id) {
    && Rests(s', t) && s'.tasks == s.tasks[t := s'.tasks[t]]
    && (forall r :: r in s.approvals ==> r in s'.approvals && s'.approvals[r] == s.approvals[r])
  }

  lemma FreshSettles(hash: string -> string, execute: ToolCall -> Outcome, s: Store, s': Store, task: TaskRecord,
                     plan: Plan, readIds: seq<Id>, callIds: seq<Id>, recordIds: seq<Id>)
    requires FreshRun(hash, execute, s, s', task, plan, readIds, callIds, recordIds)
    ensures Settles(s, s', task.taskId)
  {
    hide ReadBy;
    hide Evidenced;
    hide TokensKept;
    if plan.Planned? && plan.result.proposedWrites != [] {
      assert WriteRow(hash, s', task, plan.result.proposedWrites[0], callIds[0], recordIds[0]);
    }
  }

  lemma ResumeSettles(hash: string -> string, s: Store, s': Store, t: Id, execute: ToolCall -> Outcome,
                      runs: seq<Execution>)
    requires ResumedRun(hash, s, s', t, execute, runs)
    ensures Settles(s, s', t)
  {
    hide SettledAs;
    hide Cleared;
    hide Own;
  }

  lemma SettledStays(s: Store, s': Store, t: Id, u: Id)
    requires Settles(s, s', t) && (u == t || Rests(s, u))
    ensures Rests(s', u)
  {
  }

  lemma NotWaiting(s: Store, t: Id)
    requires Rests(s, t)
    ensures t in s.tasks && !Waiting(s.tasks[t].state)
  {
  }

  /** Takes one task off the queue and processes it; neither an unknown task nor an illegal move. */
  method DrainOne(service: TaskService, worker: Worker) returns (t: Id)
    requires service.Ready() && worker.repo == service.repo && service.dispatcher.queue != []
    modifies service.repo, service.dispatcher
    ensures service.Ready() && [t] + service.dispatcher.queue == old(service.dispatcher.queue)
    ensures t in old(service.repo.tasks) && Waiting(old(service.repo.tasks)[t].state)
    ensures Settles(old(service.repo.Model()), service.repo.Model(), t)
  {
    hide Next;
    hide Run;
    hide SR.DisciplinedRun;
    hide QueueAgrees;
    hide OnlyProcesses;
    hide FreshRun;
    hide ResumedRun;
    hide Settles;
    hide Rests;
    var repo := service.repo;
    ghost var s, w, trail, queue := repo.Model(), repo.world, repo.trail, service.dispatcher.queue;
    var next := service.dispatcher.Get();
    t := next.value;
    assert queue == [t] + service.dispatcher.queue;
    HeadWaits(s.tasks, t, service.dispatcher.queue);
    OwnRow(repo.hash, repo.trail, t);
    var r, readIds, callIds, recordIds, runs := worker.Process(t);
    assert r.State?;
    if s.tasks[t].state == Approved {
      ResumeSettles(repo.hash, s, repo.Model(), t, worker.execute, runs);
    } else {
      FreshSettles(repo.hash, worker.execute, s, repo.Model(), s.tasks[t], worker.mesh(s.tasks[t]), readIds, callIds,
                   recordIds);
    }
    ProcessDisciplined(repo.hash, w, trail, repo.world, repo.trail, t);
    NothingInFlight(w, trail, repo.world, repo.trail, t);
    SettledTasks(s, repo.Model(), t);
    NotWaiting(repo.Model(), t);
    Drained(s.tasks, repo.tasks, service.dispatcher.queue, t);
  }

  lemma NothingInFlight(w: World, trail: seq<Label>, w': World, trail': seq<Label>, t: Id)
    requires OnlyProcesses(w, trail, w', trail', t) && t !in w'.workers
    requires w.workers == map[] && w.approvers == map[] && w.ingress == {}
    ensures w'.workers == map[] && w'.approvers == map[] && w'.ingress == {}
  {
    assert w.workers - {t} == map[];
    assert forall u :: u in w'.workers && u != t ==> u in w'.workers - {t};
  }

  lemma SettledTasks(s: Store, s': Store, t: Id)
    requires Settles(s, s', t)
    ensures Rests(s', t) && s'.tasks == s.tasks[t := s'.tasks[t]]
  {
  }

  /** Drains the queue. Every task in it ends at rest, and no other task changes. */
  method RunInProcess(service: TaskService, worker: Worker) returns (drained: nat)
    requires service.Ready() && worker.repo == service.repo
    modifies service.repo, service.dispatcher
    ensures service.Ready() && service.dispatcher.queue == []
    ensures drained == |old(service.dispatcher.queue)|
    ensures forall t :: t in old(service.dispatcher.queue) ==> Rests(service.repo.Model(), t)
    ensures forall t :: t in service.repo.tasks ==> !Waiting(service.repo.tasks[t].state)
    ensures forall t :: t !in old(service.dispatcher.queue) ==>
              && (t in service.repo.tasks <==> t in old(service.repo.tasks))
              && (t in service.repo.tasks ==> service.repo.tasks[t] == old(service.repo.tasks)[t])
  {
    hide Next;
    hide Run;
    hide SR.DisciplinedRun;
    hide Settles;
    hide Rests;
    hide QueueAgrees;
    ghost var tasks, all := service.repo.tasks, service.dispatcher.queue;
    drained := 0;
    while service.dispatcher.queue != []
      invariant service.Ready() && drained <= |all| && service.dispatcher.queue == all[drained..]
      invariant forall i :: 0 <= i < drained ==> Rests(service.repo.Model(), all[i])
      invariant forall t :: t !in all[..drained] ==>
                  && (t in service.repo.tasks <==> t in tasks)
                  && (t in service.repo.tasks ==> service.repo.tasks[t] == tasks[t])
      decreases |service.dispatcher.queue|
    {
      ghost var s := service.repo.Model();
      var t := DrainOne(service, worker);
      SettledTasks(s, service.repo.Model(), t);
      assert t == all[drained];
      forall i | 0 <= i < drained + 1 ensures Rests(service.repo.Model(), all[i]) {
        SettledStays(s, service.repo.Model(), t, all[i]);
      }
      drained := drained + 1;
    }
    assert all[..drained] == all;
    NoneWaiting(service.repo.tasks);
  }

  lemma NoneWaiting(tasks: map<Id, TaskRecord>)
    requires QueueAgrees(tasks, [])
    ensures forall t :: t in tasks ==> !Waiting(tasks[t].state)
  {
    forall t | t in tasks ensures !Waiting(tasks[t].state) {
      var none: seq<Id> := [];
      assert multiset(none)[t] == 0;
    }
  }

  /** Between service calls every task has one of the ten single-run logs, and is Failed exactly when it
      has its one halt event. */
  lemma IdleTasks(hash: string -> string, w: World, trail: seq<Label>, t: Id)
    requires w == Run(hash, INITIAL, trail) && Idle(hash, w, trail) && t in w.store.tasks
    ensures SR.ShapeOk(w.store.tasks[t].state, Log(w.store.events, t))
    ensures HaltCount(w.store.gateway, t) == if w.store.tasks[t].state == Failed then 1 else 0
    ensures w.store.tasks[t].state == Failed ==> SR.Untouched(w.store, t)
  {
    SR.RunsOnce(hash, trail, w, t);
    Halts.GovernedHalt(hash, trail, w, t);
    if w.store.tasks[t].state == Failed {
      SR.FailedIsUntouched(hash, trail, w, t);
    }
    hide Run;
    hide SR.ShapeOk;
    hide HaltCount;
  }
}
