/** What the others leave alone: ingress, approvers, workers of other tasks and rewrites of other tasks' calls,
    seen from one task whose own worker takes no step. */
module Bystanders {
  import opened Records
  import opened Protocol
  import LR = LogReplay
  import SqlRuns
  import SqlTables

  /** The task's worker takes no step and nobody rewrites the task's calls. Decisions are free. */
  predicate Waits(w: World, l: Label, t: Id) {
    && (l.Work? ==> l.taskId != t)
    && (l.Rewrite? && l.call.callId in w.store.calls ==> w.store.calls[l.call.callId].taskId != t)
  }

  predicate WaitsAll(hash: string -> string, w: World, labels: seq<Label>, t: Id) {
    labels == []
    || var before := labels[..|labels| - 1];
       WaitsAll(hash, w, before, t) && Waits(Run(hash, w, before), labels[|labels| - 1], t)
  }

  predicate CallOf(s: Store, t: Id, c: Id) {
    c in s.calls && s.calls[c].taskId == t
  }

  predicate RecordOf(s: Store, t: Id, r: Id) {
    r in s.approvals && s.approvals[r].taskId == t
  }

  /** The record may have been decided, and is else as it was. */
  predicate SameBinding(s: Store, s': Store, r: Id) {
    r in s.approvals && r in s'.approvals
    && s'.approvals[r] == SqlTables.UpdatedApproval(s.approvals[r], s'.approvals[r])
  }

  /** The task has the same calls and records, and each record is still bound to the same call and payload. */
  ghost predicate Carried(s: Store, s': Store, t: Id) {
    && t in s.tasks && t in s'.tasks
    && s'.tasks[t].tenantId == s.tasks[t].tenantId && s'.tasks[t].metadata == s.tasks[t].metadata
    && (forall c :: CallOf(s', t, c) <==> CallOf(s, t, c))
    && (forall c :: CallOf(s, t, c) ==> s'.calls[c] == s.calls[c])
    && (forall r :: RecordOf(s', t, r) <==> RecordOf(s, t, r))
    && (forall r :: r in s.approvals ==> SameBinding(s, s', r))
  }

  /** A call of somebody else's: it adds no call or record to the task and replaces none of its calls. */
  predicate Foreign(s: Store, c: RepoCall, t: Id) {
    match c
    case PutTask(task) => task.taskId != t
    case PutCall(call) => call.taskId != t && !CallOf(s, t, call.callId)
    case PutApproval(record) => record.recordId in s.approvals || record.taskId != t
    case _ => true
  }

  lemma CarriedCall(s: Store, c: Option<RepoCall>, t: Id)
    requires t in s.tasks && (c.Some? ==> SqlTables.Benign(s, c.value) && Foreign(s, c.value, t))
    ensures Carried(s, ExecSome(s, c), t)
  {
    hide SqlTables.TaskBenign;
    hide Legal;
  }

  lemma CarriedTwice(s: Store, s1: Store, s2: Store, t: Id)
    requires Carried(s, s1, t) && Carried(s1, s2, t)
    ensures Carried(s, s2, t)
  {
    hide CallOf;
    hide RecordOf;
    forall r | r in s.approvals ensures SameBinding(s, s2, r) {
      assert SameBinding(s, s1, r) && SameBinding(s1, s2, r);
    }
  }

  lemma CarriedSelf(s: Store, t: Id)
    requires t in s.tasks
    ensures Carried(s, s, t)
  {
  }

  lemma CarriedHasTask(s: Store, s': Store, t: Id)
    requires Carried(s, s', t)
    ensures t in s'.tasks
  {
  }

  lemma OtherTurnForeign(hash: string -> string, s: Store, u: Id, pc: WorkerPc, now: nat, input: Input, t: Id)
    requires u != t && u in s.tasks && s.tasks[u].taskId == u && LR.PcOwns(pc, u)
    requires SqlRuns.PcCopies(s, u, pc) && SqlRuns.Keyed(s, now)
    ensures var c := WorkerTurn(hash, s, u, pc, now, input).call; c.Some? ==> Foreign(s, c.value, t)
  {
    hide IsApproved;
    hide ReadSummary;
    hide CompletionSummary;
    hide ListCalls;
    hide Legal;
  }

  lemma WorkerForeign(hash: string -> string, w: World, l: Label, t: Id)
    requires SqlRuns.Inv(w) && l.Work? && l.taskId in w.workers && l.taskId != t
    ensures var c := Effect(hash, w, l); c.Some? ==> Foreign(w.store, c.value, t)
  {
    hide LR.Inv;
    hide LR.PcOwns;
    hide SqlRuns.Keyed;
    hide SqlRuns.Stamped;
    hide SqlRuns.PcCopies;
    hide WorkerTurn;
    hide Foreign;
    LR.PcFacts(w, l.taskId);
    OtherTurnForeign(hash, w.store, l.taskId, w.workers[l.taskId], w.clock, l.input, t);
  }

  lemma ActorForeign(hash: string -> string, w: World, l: Label, t: Id)
    requires SqlRuns.Inv(w) && Waits(w, l, t) && t in w.store.tasks && (l.Work? ==> l.taskId !in w.workers)
    ensures var c := Effect(hash, w, l); c.Some? ==> Foreign(w.store, c.value, t)
  {
    hide LR.TaskOk;
    hide SqlRuns.Stamped;
    hide SqlRuns.PcCopies;
    hide WorkerTurn;
  }

  lemma WaitStep(hash: string -> string, w: World, l: Label, t: Id)
    requires SqlRuns.Inv(w) && Waits(w, l, t) && t in w.store.tasks
    ensures Carried(w.store, Next(hash, w, l).store, t)
  {
    hide WorkerTurn;
    hide SqlTables.Benign;
    hide SqlRuns.Inv;
    hide Effect;
    hide Waits;
    hide Foreign;
    if l.Work? && l.taskId in w.workers {
      SqlRuns.WorkKeeps(hash, w, l.taskId, l.input);
      NotOwn(w, l, t);
      WorkerForeign(hash, w, l, t);
    } else {
      SqlRuns.OthersKeep(hash, w, l);
      ActorForeign(hash, w, l, t);
    }
    CarriedCall(w.store, Effect(hash, w, l), t);
    hide Carried;
  }

  lemma NotOwn(w: World, l: Label, t: Id)
    requires Waits(w, l, t) && l.Work?
    ensures l.taskId != t
  {
  }

  lemma {:induction false} WaitCarries(hash: string -> string, w: World, labels: seq<Label>, t: Id)
    requires SqlRuns.Inv(w) && t in w.store.tasks && WaitsAll(hash, w, labels, t)
    ensures SqlRuns.Inv(Run(hash, w, labels)) && Carried(w.store, Run(hash, w, labels).store, t)
  {
    hide Next;
    hide SqlRuns.Inv;
    hide Waits;
    if labels != [] {
      var before, l := labels[..|labels| - 1], labels[|labels| - 1];
      var w' := Run(hash, w, before);
      WaitCarries(hash, w, before, t);
      CarriedHasTask(w.store, w'.store, t);
      SqlRuns.InvKept(hash, w', l);
      WaitStep(hash, w', l, t);
      CarriedTwice(w.store, w'.store, Next(hash, w', l).store, t);
    } else {
      CarriedSelf(w.store, t);
    }
    hide Carried;
  }
}
