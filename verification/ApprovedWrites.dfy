/** From proposal to execution: a task parks with its writes gated, its records are decided, and the resume
    executes exactly the approved ones, each with the parameters it was proposed with - while all other
    tasks, ingress and approvers go on in between and during it. */
module ApprovedWrites {
  import opened Lifecycle
  import opened CanonicalJson
  import opened Records
  import opened Protocol
  import opened Runner
  import opened ResumeRuns
  import opened Bystanders
  import opened GatedRuns
  import opened EarlyDecisions
  import LR = LogReplay
  import SqlRuns
  import SR = SingleRun

  // ---- The decisions take effect -------------------------------------------------------------

  /** The i-th proposed write after the resume, by the decision on its record. */
  ghost predicate FollowsDecision(s: Store, s': Store, p: Proposal, c: Id, r: Id, runs: seq<Execution>) {
    && c in s.calls && c in s'.calls && r in s.approvals
    && s'.calls[c].parameters == p.parameters && s'.calls[c].toolName == p.toolName
    && match s.approvals[r].decision
       case Approve => s'.calls[c].status == Executed && Recorded(runs, s.calls[c], s'.calls[c])
       case Reject => s'.calls[c].status == CallRejected && s'.calls[c].result.None? && !RanCall(runs, s.calls[c])
       case _ => s'.calls[c] == s.calls[c] && s'.calls[c].status == AwaitingDecision && !RanCall(runs, s.calls[c])
  }

  lemma WriteFollows(hash: string -> string, s: Store, s': Store, task: TaskRecord, p: Proposal, c: Id, r: Id,
                     runs: seq<Execution>)
    requires GatedRow(hash, s, task, p, c, r)
    requires task.taskId in s.tasks && s.tasks[task.taskId].tenantId == task.tenantId
    requires Done(hash, s, s', task.taskId, runs)
    ensures FollowsDecision(s, s', p, c, r, runs)
  {
    hide PayloadHash;
    assert Own(s, task.taskId, c);
    assert SettledBy(hash, s, s.calls[c], s'.calls[c]);
    assert s.approvals[r].decision == Approve <==> Cleared(hash, s, s.calls[c]);
    if RanCall(runs, s.calls[c]) {
      var j :| 0 <= j < |runs| && runs[j].call == s.calls[c];
      assert Cleared(hash, s, s.calls[c]);
    }
  }

  /** What ran was one of the proposed writes, or a call the task had before its plan arrived. */
  lemma RunIsAWrite(hash: string -> string, s0: Store, s1: Store, s2: Store, s3: Store, task: TaskRecord,
                    result: MeshResult, g: Drawn, runs: seq<Execution>, j: nat)
    requires Parked(hash, s0, s1, task, result, g) && Carried(s1, s2, task.taskId)
    requires Done(hash, s2, s3, task.taskId, runs) && j < |runs|
    ensures runs[j].call.callId in g.callIds || CallOf(s0, task.taskId, runs[j].call.callId)
  {
    hide IsApproved;
    hide SettledBy;
    hide StashedTokens;
    hide AllGated;
    hide SameBinding;
    var t, c := task.taskId, runs[j].call.callId;
    assert Own(s2, t, c) && s2.calls[c].approvalRecordId.Some?;
    assert CallOf(s2, t, c);
    assert CallOf(s1, t, c);
    forall i | 0 <= i < |g.readIds| ensures g.readIds[i] in s1.calls && s1.calls[g.readIds[i]].approvalRecordId.None? {
      assert ReadRow(s1.calls, task, result.proposedReads[i], g.readIds[i]);
    }
    assert c !in g.readIds;
  }

  lemma ParkedRows(hash: string -> string, s0: Store, s1: Store, s2: Store, task: TaskRecord, result: MeshResult,
                   g: Drawn)
    requires Parked(hash, s0, s1, task, result, g) && Carried(s1, s2, task.taskId)
    ensures task.taskId in s1.tasks
    ensures task.taskId in s2.tasks && s2.tasks[task.taskId].tenantId == task.tenantId
    ensures |g.callIds| == |g.recordIds| == |result.proposedWrites|
    ensures forall i :: 0 <= i < |g.callIds| ==>
              GatedRow(hash, s2, task, result.proposedWrites[i], g.callIds[i], g.recordIds[i])
  {
    RowsStay(hash, s1, s2, task, result.proposedWrites, g, |result.proposedWrites|);
    hide GatedRow;
    hide OnlyDrawn;
    hide ReadRows;
    hide SameBinding;
  }

  /** While the mesh runs, a task that was never delivered while awaiting approval has no calls. */
  lemma FirstRunHasNone(hash: string -> string, past: seq<Label>, w: World, t: Id)
    requires SR.DisciplinedRun(hash, INITIAL, past) && w == Run(hash, INITIAL, past)
    requires t in w.workers && w.workers[t].RunMesh?
    ensures forall c :: !CallOf(w.store, t, c)
  {
    SR.RunKeeps(hash, INITIAL, past);
    LR.PcFacts(w, t);
    assert SR.FlowOk(w.store, t, LR.PcOf(w, t));
    hide Run;
    hide LR.Inv;
  }

  /** The plan of a task arrives; any interleaving in which its worker neither crashes nor has its calls
      rewritten, until it parks; any steps but its own, until its worker is about to resume; any interleaving
      that leaves its calls and their records alone, until it is completed. Then each proposed write followed the
      decision its own record shows at the start of the resume, and nothing ran that was not proposed - by
      this plan, or by one before it when the task was delivered while it awaited approval. */
  lemma ExactlyTheApprovedRun(hash: string -> string, past: seq<Label>, w1: World, gating: seq<Label>, w2: World,
                              waiting: seq<Label>, w3: World, labels: seq<Label>, w4: World, task: TaskRecord,
                              result: MeshResult) returns (g: Drawn, runs: seq<Execution>)
    requires w1 == Run(hash, INITIAL, past) && task.taskId in w1.workers && w1.workers[task.taskId] == RunMesh(task)
    requires GatesAll(hash, Next(hash, w1, Work(task.taskId, Mesh(result))), gating, task.taskId)
    requires w2 == Run(hash, Next(hash, w1, Work(task.taskId, Mesh(result))), gating)
    requires task.taskId in w2.store.tasks && w2.store.tasks[task.taskId].state == AwaitingApproval
    requires task.taskId !in w2.workers
    requires w3 == Run(hash, w2, waiting) && WaitsAll(hash, w2, waiting, task.taskId)
    requires task.taskId in w3.workers && w3.workers[task.taskId].Resume?
    requires w4 == Run(hash, w3, labels) && LeavesAll(hash, w3, labels, task.taskId)
    requires task.taskId in w4.store.tasks && w4.store.tasks[task.taskId].state == Completed
    ensures Parked(hash, w1.store, w2.store, task, result, g)
    ensures OwnRuns(w4.execs, task.taskId) == OwnRuns(w3.execs, task.taskId) + runs
    ensures |g.callIds| == |g.recordIds| == |result.proposedWrites|
    ensures forall i :: 0 <= i < |g.callIds| ==>
              FollowsDecision(w3.store, w4.store, result.proposedWrites[i], g.callIds[i], g.recordIds[i], runs)
    ensures forall j :: 0 <= j < |runs| ==>
              runs[j].call.callId in g.callIds || CallOf(w1.store, task.taskId, runs[j].call.callId)
    ensures SR.DisciplinedRun(hash, INITIAL, past) ==>
              forall j :: 0 <= j < |runs| ==> runs[j].call.callId in g.callIds
    ensures forall i, j :: 0 <= i < j < |runs| ==> runs[i].call.callId != runs[j].call.callId
  {
    hide Run;
    hide Next;
    hide GatesAll;
    hide WaitsAll;
    hide LeavesAll;
    hide SqlRuns.Inv;
    hide SR.DisciplinedRun;
    hide GateStage;
    hide Parked;
    hide Carried;
    hide FollowsDecision;
    hide GatedRow;
    hide OwnRuns;
    hide SettledBy;
    hide Cleared;
    hide CallOf;
    var t, before := task.taskId, ToPark(past, task.taskId, result, gating);
    g := ParkBinds(hash, past, w1, gating, w2, task, result);
    ToParkRuns(hash, past, t, result, gating);
    hide ToPark;
    SqlRuns.InvAlways(hash, before);
    WaitCarries(hash, w2, waiting, t);
    RunJoins(hash, INITIAL, before, waiting);
    ResumeCompletes(hash, before + waiting, w3, labels, w4, t);
    runs := Since(w3, w4, t);
    ParkedRows(hash, w1.store, w2.store, w3.store, task, result, g);
    forall i | 0 <= i < |g.callIds|
      ensures FollowsDecision(w3.store, w4.store, result.proposedWrites[i], g.callIds[i], g.recordIds[i], runs)
    {
      WriteFollows(hash, w3.store, w4.store, task, result.proposedWrites[i], g.callIds[i], g.recordIds[i], runs);
    }
    forall j | 0 <= j < |runs|
      ensures runs[j].call.callId in g.callIds || CallOf(w1.store, t, runs[j].call.callId)
    {
      RunIsAWrite(hash, w1.store, w2.store, w3.store, w4.store, task, result, g, runs, j);
    }
    if SR.DisciplinedRun(hash, INITIAL, past) {
      FirstRunHasNone(hash, past, w1, t);
    }
  }
}
