/** The write gate over whole runs: a proposed write executes only in the resume loop, under a record
    read as approved, with parameters that hash to what was proposed - whatever crashes, re-decided
    approvals and rewritten tool calls come between. */
module WriteGate {
  import opened CanonicalJson
  import opened Records
  import opened Protocol

  /** What the protocol has fixed so far: the parameters of each proposed write, and the parameters
      each approval record was opened for. */
  datatype History = History(proposed: map<Id, Json>, openedFor: map<Id, Json>) {
    predicate Extends(before: History) {
      && (forall c :: c in before.proposed ==> c in proposed && proposed[c] == before.proposed[c])
      && (forall r :: r in before.openedFor ==> r in openedFor && openedFor[r] == before.openedFor[r])
    }
  }

  function HistoryOf(w: World): History {
    History(w.proposed, w.openedFor)
  }

  /** A record, wherever it was copied to, still carries the hash of the proposed write it was
      opened for. */
  predicate RecordOk(hash: string -> string, h: History, record: ApprovalRecord) {
    && record.recordId in h.openedFor
    && record.payloadHash == PayloadHash(hash, h.openedFor[record.recordId])
    && record.toolCallId.Some? && record.toolCallId.value in h.proposed
    && h.proposed[record.toolCallId.value] == h.openedFor[record.recordId]
  }

  predicate PcOk(hash: string -> string, h: History, pc: WorkerPc) {
    match pc
    case OpenApproval(_, _, _, _, call) => call.callId in h.proposed && h.proposed[call.callId] == call.parameters
    case Settle(calls, k, record) =>
      RecordOk(hash, h, record) && k < |calls| && calls[k].approvalRecordId == Some(record.recordId)
    case _ => true
  }

  /** An execution is an ungated read that is nobody's proposed write, or it ran behind an approved
      record linked from the call, with parameters hashing to the proposed ones. */
  predicate ExecutionOk(hash: string -> string, h: History, clock: nat, e: Execution) {
    match e.gate
    case None => e.call.isRead && e.call.category == Read && e.call.callId < clock && e.call.callId !in h.proposed
    case Some(record) =>
      && RecordOk(hash, h, record)
      && record.decision == Approve
      && e.call.approvalRecordId == Some(record.recordId)
      && PayloadHash(hash, e.call.parameters) == PayloadHash(hash, h.proposed[record.toolCallId.value])
  }

  ghost predicate Inv(hash: string -> string, w: World) {
    var h := HistoryOf(w);
    && (forall c :: c in w.proposed ==> c < w.clock)
    && (forall r :: r in w.openedFor ==> r < w.clock)
    && (forall r :: r in w.store.approvals ==>
          RecordOk(hash, h, w.store.approvals[r]) && w.store.approvals[r].recordId == r)
    && (forall a :: a in w.approvers && w.approvers[a].WriteDecision? ==> RecordOk(hash, h, w.approvers[a].record))
    && (forall t :: t in w.workers ==> PcOk(hash, h, w.workers[t]))
    && (forall i :: 0 <= i < |w.execs| ==> ExecutionOk(hash, h, w.clock, w.execs[i]))
  }

  /** The history a step leaves: at most one fresh entry. */
  lemma HistoryGrows(hash: string -> string, w: World, l: Label)
    requires Inv(hash, w)
    ensures HistoryOf(Next(hash, w, l)).Extends(HistoryOf(w))
    ensures forall c :: c in Next(hash, w, l).proposed ==> c in w.proposed || c == w.clock
    ensures forall r :: r in Next(hash, w, l).openedFor ==> r in w.openedFor || r == w.clock
    ensures Executes(hash, w, l).Some? && Executes(hash, w, l).value.gate.None? ==>
              Next(hash, w, l).proposed == w.proposed
  {
  }

  lemma RecordStays(hash: string -> string, h: History, h': History, record: ApprovalRecord)
    requires RecordOk(hash, h, record) && h'.Extends(h)
    ensures RecordOk(hash, h', record)
  {
  }

  lemma PcStays(hash: string -> string, h: History, h': History, pc: WorkerPc)
    requires PcOk(hash, h, pc) && h'.Extends(h)
    ensures PcOk(hash, h', pc)
  {
  }

  /** The history after a turn at `pc`. */
  function After(h: History, pc: WorkerPc, now: Id): History {
    match pc
    case OpenCall(_, result, j, _) =>
      if j < |result.proposedWrites| then h.(proposed := h.proposed[now := result.proposedWrites[j].parameters]) else h
    case OpenApproval(_, _, _, _, call) => h.(openedFor := h.openedFor[now := call.parameters])
    case _ => h
  }

  /** What the gate needs of one worker turn. */
  predicate TurnOk(hash: string -> string, h: History, now: Id, turn: Turn) {
    && (turn.next.Some? ==> PcOk(hash, h, turn.next.value))
    && (turn.call.Some? && turn.call.value.PutApproval? ==>
          RecordOk(hash, h, turn.call.value.record) && turn.call.value.record.recordId == now)
    && (turn.ran.Some? ==> ExecutionOk(hash, h, now + 1, turn.ran.value))
  }

  ghost predicate Fresh(hash: string -> string, h: History, s: Store, now: Id) {
    && now !in h.proposed && now !in h.openedFor
    && (forall r :: r in s.approvals ==> RecordOk(hash, h, s.approvals[r]) && s.approvals[r].recordId == r)
  }

  lemma FreshTurnOk(hash: string -> string, h: History, s: Store, t: Id, pc: WorkerPc, now: nat, input: Input)
    requires t in s.tasks && PcOk(hash, h, pc) && Fresh(hash, h, s, now)
    requires pc.ReadCall? || pc.OpenCall? || pc.OpenApproval?
    ensures TurnOk(hash, After(h, pc, now), now, WorkerTurn(hash, s, t, pc, now, input))
  {
    hide PayloadHash;
    hide ReadSummary;
  }

  lemma ResumeTurnOk(hash: string -> string, h: History, s: Store, t: Id, pc: WorkerPc, now: nat, input: Input)
    requires t in s.tasks && PcOk(hash, h, pc) && Fresh(hash, h, s, now)
    requires pc.FetchRecord? || pc.Settle?
    ensures TurnOk(hash, After(h, pc, now), now, WorkerTurn(hash, s, t, pc, now, input))
  {
    hide PayloadHash;
  }

  lemma PlainTurnOk(hash: string -> string, h: History, s: Store, t: Id, pc: WorkerPc, now: nat, input: Input)
    requires t in s.tasks
    requires !pc.ReadCall? && !pc.OpenCall? && !pc.OpenApproval? && !pc.FetchRecord? && !pc.Settle?
    ensures TurnOk(hash, After(h, pc, now), now, WorkerTurn(hash, s, t, pc, now, input))
  {
    hide PayloadHash;
    hide ListCalls;
    hide CompletionSummary;
  }

  lemma WorkerTurnOk(hash: string -> string, h: History, s: Store, t: Id, pc: WorkerPc, now: nat, input: Input)
    requires t in s.tasks && PcOk(hash, h, pc) && Fresh(hash, h, s, now)
    ensures TurnOk(hash, After(h, pc, now), now, WorkerTurn(hash, s, t, pc, now, input))
  {
    hide WorkerTurn;
    hide TurnOk;
    hide After;
    if pc.ReadCall? || pc.OpenCall? || pc.OpenApproval? {
      FreshTurnOk(hash, h, s, t, pc, now, input);
    } else if pc.FetchRecord? || pc.Settle? {
      ResumeTurnOk(hash, h, s, t, pc, now, input);
    } else {
      PlainTurnOk(hash, h, s, t, pc, now, input);
    }
  }

  lemma WorkHistory(hash: string -> string, w: World, t: Id, input: Input)
    requires t in w.workers && t in w.store.tasks
    ensures HistoryOf(Next(hash, w, Work(t, input))) == After(HistoryOf(w), w.workers[t], w.clock)
  {
    hide WorkerTurn;
  }

  lemma WorkParts(hash: string -> string, w: World, t: Id, input: Input)
    requires t in w.workers && t in w.store.tasks
    ensures var w', turn := Next(hash, w, Work(t, input)),
                            WorkerTurn(hash, w.store, t, w.workers[t], w.clock, input);
            && w'.store == ExecSome(w.store, turn.call) && w'.workers == Set(w.workers, t, turn.next)
            && w'.approvers == w.approvers && w'.clock == w.clock + 1
            && w'.execs == (if turn.ran.Some? then w.execs + [turn.ran.value] else w.execs)
  {
    hide WorkerTurn;
    hide Exec;
  }

  /** What held under the history so far holds under a longer one. */
  lemma OldKept(hash: string -> string, w: World, h': History)
    requires Inv(hash, w) && h'.Extends(HistoryOf(w))
    requires forall c :: c in h'.proposed ==> c in w.proposed || c == w.clock
    ensures forall r :: r in w.store.approvals ==> RecordOk(hash, h', w.store.approvals[r])
    ensures forall a :: a in w.approvers && w.approvers[a].WriteDecision? ==> RecordOk(hash, h', w.approvers[a].record)
    ensures forall u :: u in w.workers ==> PcOk(hash, h', w.workers[u])
    ensures forall i :: 0 <= i < |w.execs| ==> ExecutionOk(hash, h', w.clock + 1, w.execs[i])
  {
    hide RecordOk;
    hide PcOk;
    hide ExecutionOk;
    hide History.Extends;
    var h := HistoryOf(w);
    forall record | RecordOk(hash, h, record) ensures RecordOk(hash, h', record) {
      RecordStays(hash, h, h', record);
    }
    forall u | u in w.workers ensures PcOk(hash, h', w.workers[u]) {
      PcStays(hash, h, h', w.workers[u]);
    }
    forall i | 0 <= i < |w.execs| ensures ExecutionOk(hash, h', w.clock + 1, w.execs[i]) {
      ExecutionStays(hash, h, h', w.clock, w.execs[i]);
    }
  }

  lemma WorkKeeps(hash: string -> string, w: World, t: Id, input: Input)
    requires Inv(hash, w) && t in w.workers && t in w.store.tasks
    ensures Inv(hash, Next(hash, w, Work(t, input)))
  {
    hide WorkerTurn;
    hide RecordOk;
    hide PcOk;
    hide ExecutionOk;
    hide History.Extends;
    hide After;
    var w', h := Next(hash, w, Work(t, input)), HistoryOf(w);
    WorkHistory(hash, w, t, input);
    HistoryGrows(hash, w, Work(t, input));
    WorkParts(hash, w, t, input);
    hide Next;
    WorkerTurnOk(hash, h, w.store, t, w.workers[t], w.clock, input);
    OldKept(hash, w, HistoryOf(w'));
  }

  lemma ExecutionStays(hash: string -> string, h: History, h': History, clock: nat, e: Execution)
    requires ExecutionOk(hash, h, clock, e) && h'.Extends(h)
    requires forall c :: c in h'.proposed ==> c in h.proposed || c == clock
    ensures ExecutionOk(hash, h', clock + 1, e)
  {
  }

  lemma DecisionStays(hash: string -> string, h: History, s: Store, pc: ApproverPc, now: nat)
    requires pc.WriteDecision? ==> RecordOk(hash, h, pc.record)
    ensures var (c, next) := ApproverTurn(s, pc, now);
            && (next.Some? ==> !next.value.WriteDecision?)
            && (c.Some? && c.value.PutApproval? ==> RecordOk(hash, h, c.value.record))
  {
  }

  lemma OthersKeep(hash: string -> string, w: World, l: Label)
    requires Inv(hash, w) && (l.Work? ==> l.taskId !in w.workers || l.taskId !in w.store.tasks)
    ensures Inv(hash, Next(hash, w, l))
  {
    hide WorkerTurn;
    hide RecordOk;
    hide PcOk;
    hide ExecutionOk;
    hide Legal;
    if l.Advance? && l.approver in w.approvers {
      DecisionStays(hash, HistoryOf(w), w.store, w.approvers[l.approver], w.clock);
      hide ApproverTurn;
    } else if l.Deliver? && l.taskId in w.store.tasks {
      EntryOk(hash, HistoryOf(w), w.store.tasks[l.taskId]);
    }
    var w' := Next(hash, w, l);
    assert HistoryOf(w') == HistoryOf(w) && w'.execs == w.execs;
    forall i | 0 <= i < |w.execs| ensures ExecutionOk(hash, HistoryOf(w), w.clock + 1, w.execs[i]) {
      LaterOk(hash, HistoryOf(w), w.clock, w.execs[i]);
    }
  }

  lemma EntryOk(hash: string -> string, h: History, task: TaskRecord)
    ensures Entry(task).Some? ==> PcOk(hash, h, Entry(task).value)
  {
  }

  lemma LaterOk(hash: string -> string, h: History, clock: nat, e: Execution)
    requires ExecutionOk(hash, h, clock, e)
    ensures ExecutionOk(hash, h, clock + 1, e)
  {
  }

  lemma {:induction false} RunKeeps(hash: string -> string, labels: seq<Label>)
    ensures Inv(hash, Run(hash, INITIAL, labels))
  {
    if labels != [] {
      var w, l := Run(hash, INITIAL, labels[..|labels| - 1]), labels[|labels| - 1];
      RunKeeps(hash, labels[..|labels| - 1]);
      if l.Work? && l.taskId in w.workers && l.taskId in w.store.tasks {
        WorkKeeps(hash, w, l.taskId, l.input);
      } else {
        OthersKeep(hash, w, l);
      }
    }
    hide Next;
  }

  /** Every execution in every run, at the moment it happens: either an ungated read that is nobody's
      proposed write, or behind a linked record that was read as approved, with parameters equal
      (as dictionaries) to those of the write the record was opened for. */
  lemma GateHolds(hash: string -> string, labels: seq<Label>, w: World, i: nat)
    requires w == Run(hash, INITIAL, labels) && i < |w.execs|
    requires forall a, b :: hash(a) == hash(b) ==> a == b
    ensures match w.execs[i].gate
            case None => w.execs[i].call.isRead && w.execs[i].call.callId !in w.proposed
            case Some(record) =>
              && record.decision == Approve && w.execs[i].call.approvalRecordId == Some(record.recordId)
              && record.toolCallId.Some? && record.toolCallId.value in w.proposed
              && (WellFormed(w.execs[i].call.parameters) && WellFormed(w.proposed[record.toolCallId.value]) ==>
                    Same(w.execs[i].call.parameters, w.proposed[record.toolCallId.value]))
  {
    RunKeeps(hash, labels);
    hide Run;
    assert ExecutionOk(hash, HistoryOf(w), w.clock, w.execs[i]);
    match w.execs[i].gate
    case None =>
    case Some(record) =>
      var was, now := w.proposed[record.toolCallId.value], w.execs[i].call.parameters;
      if WellFormed(now) && WellFormed(was) {
        PayloadHashBinds(hash, now, was);
      }
  }
}
