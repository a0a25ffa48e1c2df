/** What comes before a gated execution: an approving decision on its own record and, while nobody rewrites
    stored calls, a record that was opened for the very call that runs. */
module GateHistory {
  import opened CanonicalJson
  import opened Records
  import opened Protocol
  import SqlRuns
  import WriteGate

  // ---- Decisions -----------------------------------------------------------------------------

  /** The records some decision so far approved. */
  function ApprovedIds(labels: seq<Label>): set<Id> {
    if labels == [] then {}
    else
      var l := labels[|labels| - 1];
      ApprovedIds(labels[..|labels| - 1]) + (if l.Decide? && l.decision == Approve then {l.recordId} else {})
  }

  lemma {:induction false} ApprovedIdsAre(labels: seq<Label>, r: Id)
    requires r in ApprovedIds(labels)
    ensures exists j :: 0 <= j < |labels|
                     && labels[j].Decide? && labels[j].recordId == r && labels[j].decision == Approve
  {
    var before := labels[..|labels| - 1];
    if r in ApprovedIds(before) {
      ApprovedIdsAre(before, r);
      var j :| 0 <= j < |before| && before[j].Decide? && before[j].recordId == r && before[j].decision == Approve;
      assert labels[j] == before[j];
    }
  }

  predicate RecordSaid(approved: set<Id>, record: ApprovalRecord) {
    record.decision == Approve ==> record.recordId in approved
  }

  predicate PcSaid(approved: set<Id>, pc: WorkerPc) {
    pc.Settle? ==> RecordSaid(approved, pc.record)
  }

  predicate ApproverSaid(approved: set<Id>, pc: ApproverPc) {
    pc.WriteDecision? && pc.decision == Approve ==> pc.record.recordId in approved
  }

  /** Wherever a record reads approved, a decision said so. */
  ghost predicate Said(w: World, approved: set<Id>) {
    && (forall r :: r in w.store.approvals ==> RecordSaid(approved, w.store.approvals[r]))
    && (forall a :: a in w.approvers ==> ApproverSaid(approved, w.approvers[a]))
    && (forall t :: t in w.workers ==> PcSaid(approved, w.workers[t]))
  }

  lemma WorkerTurnSaid(hash: string -> string, s: Store, t: Id, pc: WorkerPc, now: nat, input: Input, approved: set<Id>)
    requires t in s.tasks && PcSaid(approved, pc)
    requires forall r :: r in s.approvals ==> RecordSaid(approved, s.approvals[r])
    ensures var turn := WorkerTurn(hash, s, t, pc, now, input);
            && (turn.next.Some? ==> PcSaid(approved, turn.next.value))
            && (turn.call.Some? && turn.call.value.PutApproval? ==> RecordSaid(approved, turn.call.value.record))
            && (turn.ran.Some? && turn.ran.value.gate.Some? ==>
                  turn.ran.value.gate.value.decision == Approve && turn.ran.value.gate.value.recordId in approved)
  {
    hide ReadSummary;
    hide CompletionSummary;
    hide ListCalls;
  }

  lemma WorkSaid(hash: string -> string, w: World, t: Id, input: Input, approved: set<Id>)
    requires Said(w, approved) && t in w.workers && t in w.store.tasks
    ensures Said(Next(hash, w, Work(t, input)), approved)
  {
    WorkerTurnSaid(hash, w.store, t, w.workers[t], w.clock, input, approved);
    hide WorkerTurn;
    hide RecordSaid;
    hide PcSaid;
    hide ApproverSaid;
  }

  lemma OthersSaid(hash: string -> string, w: World, l: Label, approved: set<Id>)
    requires WriteGate.Inv(hash, w) && Said(w, approved)
    requires l.Work? ==> l.taskId !in w.workers || l.taskId !in w.store.tasks
    ensures Said(Next(hash, w, l), approved + (if l.Decide? && l.decision == Approve then {l.recordId} else {}))
  {
    hide WorkerTurn;
    hide WriteGate.RecordOk;
    hide WriteGate.PcOk;
    hide WriteGate.ExecutionOk;
    hide Legal;
  }

  lemma {:induction false} RunSaid(hash: string -> string, labels: seq<Label>)
    ensures Said(Run(hash, INITIAL, labels), ApprovedIds(labels))
  {
    if labels != [] {
      var before, l := labels[..|labels| - 1], labels[|labels| - 1];
      var w := Run(hash, INITIAL, before);
      RunSaid(hash, before);
      WriteGate.RunKeeps(hash, before);
      if l.Work? && l.taskId in w.workers && l.taskId in w.store.tasks {
        WorkSaid(hash, w, l.taskId, l.input, ApprovedIds(before));
      } else {
        OthersSaid(hash, w, l, ApprovedIds(before));
      }
    }
    hide Next;
  }

  /** Every gated execution of every run comes after a decision that approved the very record it ran
      behind. */
  lemma ApprovedBeforeRun(hash: string -> string, labels: seq<Label>, w: World, l: Label)
    requires w == Run(hash, INITIAL, labels)
    requires Executes(hash, w, l).Some? && Executes(hash, w, l).value.gate.Some?
    ensures exists j :: 0 <= j < |labels| && labels[j].Decide? && labels[j].decision == Approve
                     && labels[j].recordId == Executes(hash, w, l).value.gate.value.recordId
  {
    hide Run;
    RunSaid(hash, labels);
    WorkerTurnSaid(hash, w.store, l.taskId, w.workers[l.taskId], w.clock, l.input, ApprovedIds(labels));
    hide WorkerTurn;
    ApprovedIdsAre(labels, Executes(hash, w, l).value.gate.value.recordId);
  }

  // ---- Links ---------------------------------------------------------------------------------

  predicate NoRewrites(labels: seq<Label>) {
    forall i :: 0 <= i < |labels| ==> !labels[i].Rewrite?
  }

  predicate Opened(s: Store, r: Id, c: Id) {
    r in s.approvals && s.approvals[r].toolCallId == Some(c)
  }

  /** A linked call points at a record that points back at it. */
  predicate LinkOk(s: Store, call: ToolCall) {
    call.approvalRecordId.Some? ==> Opened(s, call.approvalRecordId.value, call.callId)
  }

  predicate PcLinks(s: Store, pc: WorkerPc) {
    match pc
    case OpenApproval(_, _, _, _, call) => call.approvalRecordId.None?
    case LinkCall(_, _, _, _, call, r) => Opened(s, r, call.callId)
    case FetchRecord(calls, _) => forall i :: 0 <= i < |calls| ==> LinkOk(s, calls[i])
    case Settle(calls, k, record) =>
      && (forall i :: 0 <= i < |calls| ==> LinkOk(s, calls[i]))
      && k < |calls| && calls[k].approvalRecordId.Some? && record.toolCallId == Some(calls[k].callId)
    case _ => true
  }

  ghost predicate LinksOk(w: World) {
    && (forall c :: c in w.store.calls ==> LinkOk(w.store, w.store.calls[c]))
    && (forall t :: t in w.workers ==> PcLinks(w.store, w.workers[t]))
    && (forall i :: 0 <= i < |w.execs| && w.execs[i].gate.Some? ==>
          w.execs[i].gate.value.toolCallId == Some(w.execs[i].call.callId))
  }

  lemma {:induction false} ListedLinks(s: Store, order: seq<Id>, t: Id, tenantId: string)
    requires forall c :: c in s.calls ==> LinkOk(s, s.calls[c])
    ensures forall i :: 0 <= i < |ListCalls(s.calls, order, t, tenantId)| ==>
              LinkOk(s, ListCalls(s.calls, order, t, tenantId)[i])
  {
    if order != [] {
      ListedLinks(s, order[..|order| - 1], t, tenantId);
    }
  }

  /** Calls that keep every opened record pointing at its call. */
  predicate KeepsOpened(s: Store, c: Option<RepoCall>) {
    c.Some? && c.value.PutApproval? && c.value.record.recordId in s.approvals ==>
      c.value.record.toolCallId == s.approvals[c.value.record.recordId].toolCallId
  }

  lemma LinksStay(s: Store, c: Option<RepoCall>)
    requires KeepsOpened(s, c)
    ensures forall call :: LinkOk(s, call) ==> LinkOk(ExecSome(s, c), call)
    ensures forall pc :: PcLinks(s, pc) ==> PcLinks(ExecSome(s, c), pc)
  {
    var s' := ExecSome(s, c);
    forall r, d | Opened(s, r, d) ensures Opened(s', r, d) {
    }
    hide ExecSome;
    hide Opened;
  }

  predicate TurnLinks(s: Store, turn: Turn) {
    && (turn.call.Some? && turn.call.value.PutCall? ==> LinkOk(s, turn.call.value.call))
    && (turn.call.Some? && turn.call.value.PutApproval? ==> turn.call.value.record.recordId !in s.approvals)
    && (turn.next.Some? ==> PcLinks(ExecSome(s, turn.call), turn.next.value))
    && (turn.ran.Some? && turn.ran.value.gate.Some? ==>
          turn.ran.value.gate.value.toolCallId == Some(turn.ran.value.call.callId))
  }

  lemma FreshTurnLinks(hash: string -> string, s: Store, t: Id, pc: WorkerPc, now: nat, input: Input)
    requires t in s.tasks && PcLinks(s, pc) && now !in s.approvals
    requires pc.ReadCall? || pc.OpenCall? || pc.OpenApproval? || pc.LinkCall?
    ensures TurnLinks(s, WorkerTurn(hash, s, t, pc, now, input))
  {
    hide ReadSummary;
    hide PcLinks;
    FreshNextLinks(hash, s, t, pc, now, input);
    hide ExecSome;
  }

  lemma FreshNextLinks(hash: string -> string, s: Store, t: Id, pc: WorkerPc, now: nat, input: Input)
    requires t in s.tasks && PcLinks(s, pc) && now !in s.approvals
    requires pc.ReadCall? || pc.OpenCall? || pc.OpenApproval? || pc.LinkCall?
    ensures var turn := WorkerTurn(hash, s, t, pc, now, input);
            && (turn.next.Some? ==> PcLinks(ExecSome(s, turn.call), turn.next.value))
            && (turn.call.Some? && turn.call.value.PutCall? ==> LinkOk(s, turn.call.value.call))
  {
    hide ReadSummary;
    hide PayloadHash;
  }

  lemma ResumeTurnLinks(hash: string -> string, s: Store, t: Id, pc: WorkerPc, now: nat, input: Input)
    requires t in s.tasks && PcLinks(s, pc) && forall c :: c in s.calls ==> LinkOk(s, s.calls[c])
    requires pc.ListPending? || pc.FetchRecord? || pc.Settle?
    ensures TurnLinks(s, WorkerTurn(hash, s, t, pc, now, input))
  {
    hide IsApproved;
    if pc.ListPending? {
      ListedLinks(s, s.callOrder, t, pc.task.tenantId);
    }
    hide ListCalls;
  }

  lemma PlainTurnLinks(hash: string -> string, s: Store, t: Id, pc: WorkerPc, now: nat, input: Input)
    requires t in s.tasks
    requires !pc.ReadCall? && !pc.OpenCall? && !pc.OpenApproval? && !pc.LinkCall?
    requires !pc.ListPending? && !pc.FetchRecord? && !pc.Settle?
    ensures TurnLinks(s, WorkerTurn(hash, s, t, pc, now, input))
  {
    hide CompletionSummary;
    hide Stashed;
  }

  lemma WorkLinks(hash: string -> string, w: World, t: Id, input: Input)
    requires LinksOk(w) && t in w.workers && t in w.store.tasks && w.clock !in w.store.approvals
    ensures LinksOk(Next(hash, w, Work(t, input)))
  {
    hide WorkerTurn;
    hide PcLinks;
    hide LinkOk;
    var pc, s := w.workers[t], w.store;
    if pc.ReadCall? || pc.OpenCall? || pc.OpenApproval? || pc.LinkCall? {
      FreshTurnLinks(hash, s, t, pc, w.clock, input);
    } else if pc.ListPending? || pc.FetchRecord? || pc.Settle? {
      ResumeTurnLinks(hash, s, t, pc, w.clock, input);
    } else {
      PlainTurnLinks(hash, s, t, pc, w.clock, input);
    }
    LinksStay(s, WorkerTurn(hash, s, t, pc, w.clock, input).call);
  }

  lemma OthersLink(hash: string -> string, w: World, l: Label)
    requires LinksOk(w) && SqlRuns.Inv(w) && !l.Rewrite?
    requires l.Work? ==> l.taskId !in w.workers || l.taskId !in w.store.tasks
    ensures LinksOk(Next(hash, w, l))
  {
    hide WorkerTurn;
    hide SqlRuns.Inv;
    DecisionKeepsOpened(hash, w, l);
    LinksStay(w.store, Effect(hash, w, l));
    hide LinkOk;
    hide Legal;
    if l.Deliver? && l.taskId in w.store.tasks && l.taskId !in w.workers {
      EntryLinks(w.store, w.store.tasks[l.taskId]);
    }
    hide PcLinks;
  }

  lemma EntryLinks(s: Store, task: TaskRecord)
    ensures Entry(task).Some? ==> PcLinks(s, Entry(task).value)
  {
  }

  lemma DecisionKeepsOpened(hash: string -> string, w: World, l: Label)
    requires SqlRuns.Inv(w) && (l.Work? ==> l.taskId !in w.workers || l.taskId !in w.store.tasks)
    ensures KeepsOpened(w.store, Effect(hash, w, l))
  {
  }

  lemma {:induction false} RunLinks(hash: string -> string, labels: seq<Label>)
    requires NoRewrites(labels)
    ensures LinksOk(Run(hash, INITIAL, labels))
  {
    if labels != [] {
      var before, l := labels[..|labels| - 1], labels[|labels| - 1];
      var w := Run(hash, INITIAL, before);
      RunLinks(hash, before);
      SqlRuns.InvAlways(hash, before);
      if l.Work? && l.taskId in w.workers && l.taskId in w.store.tasks {
        WorkLinks(hash, w, l.taskId, l.input);
      } else {
        OthersLink(hash, w, l);
      }
    }
    hide Next;
  }

  /** While nobody rewrites stored calls, the call that runs is the one its record was opened for. */
  lemma RunsItsOwnCall(hash: string -> string, labels: seq<Label>, w: World, i: nat)
    requires NoRewrites(labels) && w == Run(hash, INITIAL, labels)
    requires i < |w.execs| && w.execs[i].gate.Some?
    ensures w.execs[i].gate.value.toolCallId == Some(w.execs[i].call.callId)
  {
    RunLinks(hash, labels);
    hide Run;
  }
}
