/** What a record reads when its task parks. A decision goes to the ledger before the lifecycle may refuse
    the task's move, so one that comes before the park is there at the park - and moves the task no more. */
module EarlyDecisions {
  import opened Lifecycle
  import opened Records
  import opened Protocol
  import opened Runner
  import opened GatedRuns
  import opened ResumeRuns
  import LR = LogReplay
  import SR = SingleRun
  import SqlRuns

  /** The decision a label writes to the ledger, and on which record. */
  function Writes(w: World, l: Label): Option<(Id, Decision)> {
    if l.Advance? && l.approver in w.approvers && w.approvers[l.approver].WriteDecision?
    then Some((w.approvers[l.approver].record.recordId, w.approvers[l.approver].decision))
    else None
  }

  /** The last decision a run wrote on record r, if it wrote any. */
  function LastWritten(hash: string -> string, labels: seq<Label>, r: Id): Option<Decision> {
    if labels == [] then None
    else
      var before := labels[..|labels| - 1];
      var wrote := Writes(Run(hash, INITIAL, before), labels[|labels| - 1]);
      if wrote.Some? && wrote.value.0 == r then Some(wrote.value.1) else LastWritten(hash, before, r)
  }

  function Shown(last: Option<Decision>): Decision {
    if last.Some? then last.value else Pending
  }

  /** What a call does to the decisions the ledger shows. */
  ghost predicate Decides(s: Store, s': Store, wrote: Option<(Id, Decision)>) {
    && (forall r :: r in s.approvals ==> r in s'.approvals)
    && (forall r :: r in s'.approvals ==>
          s'.approvals[r].decision == if wrote.Some? && wrote.value.0 == r then wrote.value.1
                                      else if r in s.approvals then s.approvals[r].decision
                                      else Pending)
    && (wrote.Some? ==> wrote.value.0 in s'.approvals)
  }

  lemma WorkerOpens(hash: string -> string, s: Store, t: Id, pc: WorkerPc, now: nat, input: Input)
    requires t in s.tasks
    ensures var c := WorkerTurn(hash, s, t, pc, now, input).call;
            c.Some? && c.value.PutApproval? ==> c.value.record.recordId == now && c.value.record.decision == Pending
  {
    hide IsApproved;
    hide ReadSummary;
    hide CompletionSummary;
    hide ListCalls;
    hide Legal;
  }

  lemma WorkerDecides(hash: string -> string, s: Store, t: Id, pc: WorkerPc, now: nat, input: Input)
    requires t in s.tasks && SqlRuns.Keyed(s, now)
    ensures Decides(s, ExecSome(s, WorkerTurn(hash, s, t, pc, now, input).call), None)
  {
    WorkerOpens(hash, s, t, pc, now, input);
    hide WorkerTurn;
    hide Legal;
  }

  lemma StepDecides(hash: string -> string, w: World, l: Label)
    requires SqlRuns.Inv(w)
    ensures Decides(w.store, Next(hash, w, l).store, Writes(w, l))
  {
    hide LR.Inv;
    hide SqlRuns.PcCopies;
    hide SqlRuns.Stamped;
    hide WorkerTurn;
    hide Legal;
    if l.Work? && l.taskId in w.workers && l.taskId in w.store.tasks {
      WorkerDecides(hash, w.store, l.taskId, w.workers[l.taskId], w.clock, l.input);
      hide Decides;
      hide ExecSome;
    }
  }

  /** In every run each record shows the last decision written on it, and is pending until there is one. */
  lemma {:induction false} LedgerShows(hash: string -> string, labels: seq<Label>, w: World)
    requires w == Run(hash, INITIAL, labels)
    ensures forall r :: r in w.store.approvals ==> w.store.approvals[r].decision == Shown(LastWritten(hash, labels, r))
    ensures forall r :: r !in w.store.approvals ==> LastWritten(hash, labels, r) == None
  {
    if labels != [] {
      var before := labels[..|labels| - 1];
      LedgerShows(hash, before, Run(hash, INITIAL, before));
      SqlRuns.InvAlways(hash, before);
      StepDecides(hash, Run(hash, INITIAL, before), labels[|labels| - 1]);
    }
    hide Next;
    hide Writes;
    hide SqlRuns.Inv;
  }

  /** The run to a park: everything before the plan arrived, the plan, everything until the park. */
  function ToPark(past: seq<Label>, t: Id, result: MeshResult, labels: seq<Label>): seq<Label> {
    past + [Work(t, Mesh(result))] + labels
  }

  lemma ToParkRuns(hash: string -> string, past: seq<Label>, t: Id, result: MeshResult, labels: seq<Label>)
    ensures Run(hash, Next(hash, Run(hash, INITIAL, past), Work(t, Mesh(result))), labels)
         == Run(hash, INITIAL, ToPark(past, t, result, labels))
  {
    hide Next;
    hide Run;
    SR.RunAppend(hash, INITIAL, past, Work(t, Mesh(result)));
    RunJoins(hash, INITIAL, past + [Work(t, Mesh(result))], labels);
  }

  /** When a task parks, each of its new records shows the last decision written on it: it is pending exactly
      when none was, or the last one wrote pending again. */
  lemma PendingAtPark(hash: string -> string, past: seq<Label>, w1: World, labels: seq<Label>, w: World,
                      task: TaskRecord, result: MeshResult) returns (g: Drawn)
    requires w1 == Run(hash, INITIAL, past) && task.taskId in w1.workers && w1.workers[task.taskId] == RunMesh(task)
    requires GatesAll(hash, Next(hash, w1, Work(task.taskId, Mesh(result))), labels, task.taskId)
    requires w == Run(hash, Next(hash, w1, Work(task.taskId, Mesh(result))), labels)
    requires task.taskId in w.store.tasks && w.store.tasks[task.taskId].state == AwaitingApproval
    requires task.taskId !in w.workers
    ensures Parked(hash, w1.store, w.store, task, result, g)
    ensures forall i :: 0 <= i < |g.recordIds| ==>
              var r := g.recordIds[i];
              var last := LastWritten(hash, ToPark(past, task.taskId, result, labels), r);
              && r in w.store.approvals && w.store.approvals[r].decision == Shown(last)
              && (w.store.approvals[r].decision == Pending <==> last == None || last == Some(Pending))
  {
    hide Run;
    hide Next;
    hide GatesAll;
    hide OnlyDrawn;
    hide ReadRows;
    hide LastWritten;
    g := ParkBinds(hash, past, w1, labels, w, task, result);
    hide GateStage;
    ToParkRuns(hash, past, task.taskId, result, labels);
    LedgerShows(hash, ToPark(past, task.taskId, result, labels), w);
    hide ToPark;
    forall i | 0 <= i < |g.recordIds| ensures g.recordIds[i] in w.store.approvals {
      assert GatedRow(hash, w.store, task, result.proposedWrites[i], g.callIds[i], g.recordIds[i]);
    }
  }

  lemma {:induction false} FiveSteps(hash: string -> string, w: World, a: Label, b: Label, c: Label, d: Label, e: Label)
    ensures Run(hash, w, [a, b, c, d, e])
         == Next(hash, Next(hash, Next(hash, Next(hash, Next(hash, w, a), b), c), d), e)
  {
    hide Next;
    assert Run(hash, w, []) == w;
    hide Run;
    SR.RunAppend(hash, w, [], a);
    SR.RunAppend(hash, w, [a], b);
    SR.RunAppend(hash, w, [a, b], c);
    SR.RunAppend(hash, w, [a, b, c], d);
    SR.RunAppend(hash, w, [a, b, c, d], e);
    assert [] + [a] == [a] && [a] + [b] == [a, b] && [a, b] + [c] == [a, b, c];
    assert [a, b, c] + [d] == [a, b, c, d] && [a, b, c, d] + [e] == [a, b, c, d, e];
  }

  lemma ApproverTooSoon(hash: string -> string, w: World, t: Id, r: Id, a: Id) returns (w': World)
    requires a !in w.approvers && t in w.store.tasks && w.store.tasks[t].state == Running
    requires r in w.store.approvals && w.store.approvals[r].taskId == t && w.store.approvals[r].recordId == r
    ensures w' == Next(hash, Next(hash, Next(hash, Next(hash, w, Decide(a, r, Approve, "", "api")),
                                             Advance(a)), Advance(a)), Advance(a))
    ensures w'.workers == w.workers && w'.store.tasks == w.store.tasks && w'.approvers == w.approvers
    ensures r in w'.store.approvals && w'.store.approvals[r].decision == Approve
  {
    hide Next;
    var w3 := SR.Posts(hash, w, t, r, a);
    SR.PostedMoves(hash, w3, t, a);
    w' := Next(hash, w3, Advance(a));
    assert !Legal(w3.store, t, Approved);
  }

  function TooSoon(t: Id, r: Id, a: Id): seq<Label> {
    [Decide(a, r, Approve, "", "api"), Advance(a), Advance(a), Advance(a), Work(t, Nothing)]
  }

  lemma ParksNow(hash: string -> string, w: World, t: Id)
    requires t in w.workers && w.workers[t].Park? && t in w.store.tasks && w.store.tasks[t].state == Running
    ensures var w' := Next(hash, w, Work(t, Nothing));
            && t !in w'.workers && t in w'.store.tasks && w'.store.tasks[t].state == AwaitingApproval
            && w'.store.approvals == w.store.approvals && w'.approvers == w.approvers
  {
  }

  lemma ParkingNow(w: World, t: Id, r: Id)
    requires SqlRuns.Inv(w) && t in w.workers && w.workers[t].Park? && r in w.store.approvals
    ensures t in w.store.tasks && w.store.tasks[t].state == Running && w.store.approvals[r].recordId == r
  {
    hide SqlRuns.CopiesOk;
    hide SqlRuns.Stamped;
    LR.PcFacts(w, t);
    hide LR.Inv;
  }

  /** An approval that is complete before the park: without any crash the task then awaits an approval its
      record already shows, and nobody is left to move it. */
  lemma ApprovedBeforePark(hash: string -> string, past: seq<Label>, w: World, t: Id, r: Id, a: Id)
    requires w == Run(hash, INITIAL, past) && t in w.workers && w.workers[t].Park? && a !in w.approvers
    requires r in w.store.approvals && w.store.approvals[r].taskId == t
    ensures var w' := Run(hash, w, TooSoon(t, r, a));
            && CrashFree(TooSoon(t, r, a))
            && t in w'.store.tasks && w'.store.tasks[t].state == AwaitingApproval && t !in w'.workers
            && r in w'.store.approvals && w'.store.approvals[r].decision == Approve && w'.approvers == w.approvers
  {
    hide Next;
    hide Run;
    SqlRuns.InvAlways(hash, past);
    ParkingNow(w, t, r);
    hide SqlRuns.Inv;
    var w4 := ApproverTooSoon(hash, w, t, r, a);
    ParksNow(hash, w4, t);
    FiveSteps(hash, w, Decide(a, r, Approve, "", "api"), Advance(a), Advance(a), Advance(a), Work(t, Nothing));
  }
}
