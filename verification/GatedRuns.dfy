/** The fresh run under interleaving: whatever ingress, approvers and other tasks do between a worker's
    repository calls, each proposed read becomes one executed call and each proposed write one gated call with
    its own record and token. Decisions may come before the park. */
module GatedRuns {
  import opened Lifecycle
  import opened CanonicalJson
  import opened Records
  import opened Protocol
  import opened Runner
  import opened Bystanders
  import LR = LogReplay
  import SqlRuns

  // ---- One run of the worker -----------------------------------------------------------------

  /** The task's worker is in flight and does not crash, and nobody rewrites the task's calls. Deliveries,
      decisions and everything about other tasks are free. */
  predicate Gates(w: World, l: Label, t: Id) {
    && t in w.workers && (l.Crash? ==> l.taskId != t)
    && (l.Rewrite? && l.call.callId in w.store.calls ==> w.store.calls[l.call.callId].taskId != t)
  }

  predicate GatesAll(hash: string -> string, w: World, labels: seq<Label>, t: Id) {
    labels == []
    || var before := labels[..|labels| - 1];
       GatesAll(hash, w, before, t) && Gates(Run(hash, w, before), labels[|labels| - 1], t)
  }

  /** The ids a run drew so far, each list in the order of what was proposed. */
  datatype Drawn = Drawn(readIds: seq<Id>, callIds: seq<Id>, recordIds: seq<Id>)

  predicate Distinct(ids: seq<Id>) {
    forall i, j :: 0 <= i < j < |ids| ==> ids[i] != ids[j]
  }

  /** The task's calls and records are those it had and those drawn, no two of them the same, and the calls
      it had are unchanged. */
  ghost predicate OnlyDrawn(s0: Store, s: Store, t: Id, g: Drawn) {
    && (forall c :: CallOf(s, t, c) <==> CallOf(s0, t, c) || c in g.readIds || c in g.callIds)
    && (forall c :: CallOf(s0, t, c) ==> s.calls[c] == s0.calls[c])
    && (forall r :: RecordOf(s, t, r) <==> RecordOf(s0, t, r) || r in g.recordIds)
    && (forall c :: c in g.readIds || c in g.callIds ==> c !in s0.calls)
    && (forall r :: r in g.recordIds ==> r !in s0.approvals)
    && (forall c :: c in g.readIds ==> c !in g.callIds)
    && Distinct(g.readIds) && Distinct(g.callIds) && Distinct(g.recordIds)
  }

  ghost predicate ReadRows(s: Store, task: TaskRecord, asked: seq<Proposal>, ids: seq<Id>) {
    |ids| <= |asked| && forall i :: 0 <= i < |ids| ==> ReadRow(s.calls, task, asked[i], ids[i])
  }

  /** The first n writes are gated. */
  ghost predicate GatedRows(hash: string -> string, s: Store, task: TaskRecord, writes: seq<Proposal>, g: Drawn,
                            n: nat) {
    && n <= |writes| && n <= |g.callIds| && n <= |g.recordIds|
    && forall i :: 0 <= i < n ==> GatedRow(hash, s, task, writes[i], g.callIds[i], g.recordIds[i])
  }

  ghost predicate TokensAre(hash: string -> string, tokens: map<Id, Token>, task: TaskRecord, writes: seq<Proposal>,
                            records: seq<Id>) {
    && |records| <= |writes|
    && (forall i :: 0 <= i < |records| ==> TokenFor(hash, tokens, task, writes[i], records[i]))
    && (forall r :: r in tokens ==> r in records)
  }

  /** The call and record of a write that is not linked yet. */
  ghost predicate Opening(s: Store, task: TaskRecord, p: Proposal, c: Id, call: ToolCall) {
    call == WriteCallRecord(task, p, c) && c in s.calls && s.calls[c] == call
  }

  ghost predicate Opened(hash: string -> string, s: Store, call: ToolCall, r: Id) {
    && r in s.approvals
    && var record := s.approvals[r];
       record == ApprovalRecord(r, r, call.taskId, call.tenantId, Some(call.callId), record.decision, record.approverId,
                                record.channel, PayloadHash(hash, call.parameters), record.decidedAt, r)
  }

  function Earlier(s0: Store, t: Id): map<Id, Token>
    requires t in s0.tasks
  {
    if s0.tasks[t].metadata.tokens.Some? then s0.tasks[t].metadata.tokens.value else map[]
  }

  /** The stash holds the earlier tokens and one for each record; all other metadata is as it was. */
  ghost predicate StashedTokens(hash: string -> string, s0: Store, m: Metadata, task: TaskRecord,
                                writes: seq<Proposal>, records: seq<Id>)
    requires task.taskId in s0.tasks
  {
    && m.tokens.Some? && m.other == s0.tasks[task.taskId].metadata.other
    && TokensKept(hash, Earlier(s0, task.taskId), m.tokens.value, task, writes, records)
  }

  ghost predicate AllGated(hash: string -> string, s: Store, task: TaskRecord, writes: seq<Proposal>, g: Drawn) {
    && |g.callIds| == |writes| && |g.recordIds| == |writes| && GatedRows(hash, s, task, writes, g, |writes|)
  }

  /** A parked task: every read executed and unlinked, and one call, one record and one token for each proposed
      write, none shared and none left over. What was decided on the records is left open. */
  ghost predicate Parked(hash: string -> string, s0: Store, s: Store, task: TaskRecord, result: MeshResult, g: Drawn) {
    var t := task.taskId;
    && t in s0.tasks && t in s.tasks && s.tasks[t].state == AwaitingApproval && s.tasks[t].tenantId == task.tenantId
    && OnlyDrawn(s0, s, t, g)
    && |g.readIds| == |result.proposedReads| && ReadRows(s, task, result.proposedReads, g.readIds)
    && AllGated(hash, s, task, result.proposedWrites, g)
    && StashedTokens(hash, s0, s.tasks[t].metadata, task, result.proposedWrites, g.recordIds)
  }

  /** A task completed without writes: its summary carries one line of evidence for each read. */
  ghost predicate ReadOnly(s0: Store, s: Store, task: TaskRecord, result: MeshResult, g: Drawn) {
    var t := task.taskId;
    && t in s.tasks && result.proposedWrites == [] && g.callIds == [] && g.recordIds == []
    && OnlyDrawn(s0, s, t, g)
    && |g.readIds| == |result.proposedReads| && ReadRows(s, task, result.proposedReads, g.readIds)
    && exists evidence :: Evidenced(s.calls, g.readIds, evidence)
         && Summarizes(s.tasks[t].resultSummary, result, evidence)
  }

  // ---- How far the run is --------------------------------------------------------------------

  ghost predicate Reading(s0: Store, s: Store, task: TaskRecord, result: MeshResult, g: Drawn, k: TaskRecord,
                          res: MeshResult, evidence: seq<string>)
    requires task.taskId in s0.tasks && task.taskId in s.tasks
  {
    && k == task && res == result && g.callIds == [] && g.recordIds == []
    && s.tasks[task.taskId].metadata == s0.tasks[task.taskId].metadata
    && Evidenced(s.calls, g.readIds, evidence)
  }

  ghost predicate Gating(hash: string -> string, s0: Store, s: Store, task: TaskRecord, result: MeshResult, g: Drawn,
                         k: TaskRecord, res: MeshResult, j: nat, tokens: map<Id, Token>)
    requires task.taskId in s0.tasks && task.taskId in s.tasks
  {
    && k == task && res == result && |g.readIds| == |result.proposedReads| && j < |result.proposedWrites|
    && s.tasks[task.taskId].metadata == s0.tasks[task.taskId].metadata
    && GatedRows(hash, s, task, result.proposedWrites, g, j)
    && TokensAre(hash, tokens, task, result.proposedWrites, g.recordIds)
  }

  ghost predicate AllTokens(hash: string -> string, s0: Store, s: Store, task: TaskRecord, result: MeshResult, g: Drawn,
                            m: Metadata, tokens: map<Id, Token>)
    requires task.taskId in s0.tasks
  {
    && |g.readIds| == |result.proposedReads| && AllGated(hash, s, task, result.proposedWrites, g)
    && m == s0.tasks[task.taskId].metadata && TokensAre(hash, tokens, task, result.proposedWrites, g.recordIds)
  }

  ghost predicate GateProgress(hash: string -> string, s0: Store, s: Store, task: TaskRecord, result: MeshResult,
                               g: Drawn, pc: WorkerPc)
    requires task.taskId in s0.tasks && task.taskId in s.tasks
  {
    var writes := result.proposedWrites;
    match pc
    case Recheck(k, res) => g == Drawn([], [], []) && Reading(s0, s, task, result, g, k, res, [])
    case ReadCall(k, res, i, evidence) => |g.readIds| == i && Reading(s0, s, task, result, g, k, res, evidence)
    case Complete(k, res, evidence) =>
      writes == [] && |g.readIds| == |result.proposedReads| && Reading(s0, s, task, result, g, k, res, evidence)
    case Summarize(_, summary) =>
      && writes == [] && |g.readIds| == |result.proposedReads| && g.callIds == [] && g.recordIds == []
      && (exists evidence :: Evidenced(s.calls, g.readIds, evidence) && summary == CompletionSummary(result, evidence))
    case OpenCall(k, res, j, tokens) =>
      Gating(hash, s0, s, task, result, g, k, res, j, tokens) && |g.callIds| == j && |g.recordIds| == j
    case OpenApproval(k, res, j, tokens, call) =>
      && Gating(hash, s0, s, task, result, g, k, res, j, tokens) && |g.callIds| == j + 1 && |g.recordIds| == j
      && Opening(s, task, writes[j], g.callIds[j], call)
    case LinkCall(k, res, j, tokens, call, r) =>
      && Gating(hash, s0, s, task, result, g, k, res, j, tokens) && |g.callIds| == j + 1 && |g.recordIds| == j + 1
      && Opening(s, task, writes[j], g.callIds[j], call) && g.recordIds[j] == r && Opened(hash, s, call, r)
    case ReadBack(tokens) => AllTokens(hash, s0, s, task, result, g, s.tasks[task.taskId].metadata, tokens)
    case Stash(current, tokens) => AllTokens(hash, s0, s, task, result, g, current.metadata, tokens)
    case Park =>
      && |g.readIds| == |result.proposedReads| && AllGated(hash, s, task, writes, g)
      && StashedTokens(hash, s0, s.tasks[task.taskId].metadata, task, writes, g.recordIds)
    case _ => false
  }

  /** Where a run stands that got its plan at s0; once its worker is gone, how it ended. */
  ghost predicate GateStage(hash: string -> string, s0: Store, s: Store, task: TaskRecord, result: MeshResult, g: Drawn,
                        pc: Option<WorkerPc>) {
    var t := task.taskId;
    && t in s0.tasks && t in s.tasks && s.tasks[t].tenantId == task.tenantId
    && OnlyDrawn(s0, s, t, g) && ReadRows(s, task, result.proposedReads, g.readIds)
    && match pc
       case Some(at) => GateProgress(hash, s0, s, task, result, g, at)
       case None =>
         && (s.tasks[t].state == AwaitingApproval ==> Parked(hash, s0, s, task, result, g))
         && (s.tasks[t].state == Completed ==> ReadOnly(s0, s, task, result, g))
  }

  // ---- Others leave it where it is -----------------------------------------------------------

  lemma DrawnStays(s0: Store, s: Store, s': Store, t: Id, g: Drawn)
    requires OnlyDrawn(s0, s, t, g) && Carried(s, s', t)
    ensures OnlyDrawn(s0, s', t, g)
  {
    hide SameBinding;
    hide Distinct;
    hide RecordOf;
    forall c | CallOf(s0, t, c) ensures s'.calls[c] == s0.calls[c] {
      assert CallOf(s, t, c);
    }
    hide CallOf;
  }

  lemma ReadsStay(s: Store, s': Store, task: TaskRecord, asked: seq<Proposal>, ids: seq<Id>)
    requires ReadRows(s, task, asked, ids) && Carried(s, s', task.taskId)
    ensures ReadRows(s', task, asked, ids)
    ensures forall evidence :: Evidenced(s.calls, ids, evidence) ==> Evidenced(s'.calls, ids, evidence)
  {
    hide ReadSummary;
    hide SameBinding;
    forall i | 0 <= i < |ids|
      ensures ids[i] in s'.calls && s'.calls[ids[i]] == s.calls[ids[i]]
      ensures ReadRow(s'.calls, task, asked[i], ids[i])
    {
      assert ReadRow(s.calls, task, asked[i], ids[i]);
      assert CallOf(s, task.taskId, ids[i]);
      assert CallOf(s', task.taskId, ids[i]);
    }
  }

  lemma GatedStays(hash: string -> string, s: Store, s': Store, task: TaskRecord, p: Proposal, c: Id, r: Id)
    requires GatedRow(hash, s, task, p, c, r) && Carried(s, s', task.taskId)
    ensures GatedRow(hash, s', task, p, c, r)
  {
    hide PayloadHash;
    assert CallOf(s, task.taskId, c);
    assert CallOf(s', task.taskId, c);
    assert SameBinding(s, s', r);
  }

  lemma RowsStay(hash: string -> string, s: Store, s': Store, task: TaskRecord, writes: seq<Proposal>, g: Drawn, n: nat)
    requires GatedRows(hash, s, task, writes, g, n) && Carried(s, s', task.taskId)
    ensures GatedRows(hash, s', task, writes, g, n)
  {
    hide GatedRow;
    hide Carried;
    forall i | 0 <= i < n ensures GatedRow(hash, s', task, writes[i], g.callIds[i], g.recordIds[i]) {
      GatedStays(hash, s, s', task, writes[i], g.callIds[i], g.recordIds[i]);
    }
  }

  lemma OpeningStays(hash: string -> string, s: Store, s': Store, task: TaskRecord, p: Proposal, c: Id, call: ToolCall)
    requires Opening(s, task, p, c, call) && Carried(s, s', task.taskId)
    ensures Opening(s', task, p, c, call)
    ensures forall r :: Opened(hash, s, call, r) ==> Opened(hash, s', call, r)
  {
    hide PayloadHash;
    assert CallOf(s, task.taskId, c);
    assert CallOf(s', task.taskId, c);
    forall r | Opened(hash, s, call, r) ensures Opened(hash, s', call, r) {
      assert SameBinding(s, s', r);
    }
  }

  lemma GateStays(hash: string -> string, s0: Store, s: Store, s': Store, task: TaskRecord, result: MeshResult,
                   g: Drawn, pc: WorkerPc)
    requires GateStage(hash, s0, s, task, result, g, Some(pc)) && Carried(s, s', task.taskId)
    ensures GateStage(hash, s0, s', task, result, g, Some(pc))
  {
    var t, writes := task.taskId, result.proposedWrites;
    CarriedHasTask(s, s', t);
    DrawnStays(s0, s, s', t, g);
    ReadsStay(s, s', task, result.proposedReads, g.readIds);
    forall n | GatedRows(hash, s, task, writes, g, n) ensures GatedRows(hash, s', task, writes, g, n) {
      RowsStay(hash, s, s', task, writes, g, n);
    }
    if pc.OpenApproval? || pc.LinkCall? {
      OpeningStays(hash, s, s', task, writes[pc.j], g.callIds[pc.j], pc.call);
    }
    hide OnlyDrawn;
    hide ReadRows;
    hide GatedRows;
    hide Evidenced;
    hide TokensAre;
    hide Opening;
    hide Opened;
    hide TokensKept;
    hide CompletionSummary;
    hide CallOf;
    hide RecordOf;
    hide SameBinding;
  }

  // ---- The worker's own turns ----------------------------------------------------------------

  /** Ids in s0 were drawn before now. */
  ghost predicate Earlier0(s0: Store, now: Id) {
    (forall c :: c in s0.calls ==> c < now) && (forall r :: r in s0.approvals ==> r < now)
  }

  ghost predicate Arrives(hash: string -> string, s0: Store, s: Store, task: TaskRecord, result: MeshResult,
                          g: Drawn, turn: Turn) {
    GateStage(hash, s0, ExecSome(s, turn.call), task, result, g, turn.next)
  }

  /** Rows already written are in s' as they were in s. */
  ghost predicate RowsKept(s: Store, s': Store, g: Drawn, n: nat) {
    && (forall i :: 0 <= i < |g.readIds| && g.readIds[i] in s.calls ==>
          g.readIds[i] in s'.calls && s'.calls[g.readIds[i]] == s.calls[g.readIds[i]])
    && (forall i :: 0 <= i < n && i < |g.callIds| && g.callIds[i] in s.calls ==>
          g.callIds[i] in s'.calls && s'.calls[g.callIds[i]] == s.calls[g.callIds[i]])
    && (forall r :: r in s.approvals ==> r in s'.approvals && s'.approvals[r] == s.approvals[r])
  }

  lemma RowsKeep(hash: string -> string, s: Store, s': Store, task: TaskRecord, result: MeshResult, g: Drawn, n: nat)
    requires RowsKept(s, s', g, n) && ReadRows(s, task, result.proposedReads, g.readIds)
    ensures ReadRows(s', task, result.proposedReads, g.readIds)
    ensures GatedRows(hash, s, task, result.proposedWrites, g, n) ==>
              GatedRows(hash, s', task, result.proposedWrites, g, n)
    ensures forall evidence :: Evidenced(s.calls, g.readIds, evidence) ==> Evidenced(s'.calls, g.readIds, evidence)
  {
    hide PayloadHash;
    hide ReadSummary;
  }

  /** A new call of the task, under an id in neither store, joins its calls. */
  lemma NewCallOwn(s0: Store, s: Store, t: Id, g: Drawn, call: ToolCall)
    requires OnlyDrawn(s0, s, t, g) && call.taskId == t && call.callId !in s.calls && call.callId !in s0.calls
    ensures var s' := Exec(s, PutCall(call));
            && (forall c :: CallOf(s', t, c) <==> CallOf(s, t, c) || c == call.callId)
            && (forall c :: CallOf(s0, t, c) ==> s'.calls[c] == s0.calls[c])
            && (forall r :: RecordOf(s', t, r) <==> RecordOf(s, t, r))
    ensures call.callId !in g.readIds && call.callId !in g.callIds
    ensures RowsKept(s, Exec(s, PutCall(call)), g, |g.callIds|)
  {
    assert !CallOf(s, t, call.callId);
    hide Distinct;
  }

  lemma NewReadDrawn(s0: Store, s: Store, t: Id, g: Drawn, call: ToolCall)
    requires OnlyDrawn(s0, s, t, g) && call.taskId == t && call.callId !in s.calls && call.callId !in s0.calls
    ensures OnlyDrawn(s0, Exec(s, PutCall(call)), t, g.(readIds := g.readIds + [call.callId]))
    ensures RowsKept(s, Exec(s, PutCall(call)), g, |g.callIds|)
  {
    NewCallOwn(s0, s, t, g, call);
    hide CallOf;
    hide RecordOf;
    hide Exec;
    hide RowsKept;
  }

  lemma NewCallDrawn(s0: Store, s: Store, t: Id, g: Drawn, call: ToolCall)
    requires OnlyDrawn(s0, s, t, g) && call.taskId == t && call.callId !in s.calls && call.callId !in s0.calls
    ensures OnlyDrawn(s0, Exec(s, PutCall(call)), t, g.(callIds := g.callIds + [call.callId]))
    ensures RowsKept(s, Exec(s, PutCall(call)), g, |g.callIds|)
  {
    NewCallOwn(s0, s, t, g, call);
    hide CallOf;
    hide RecordOf;
    hide Exec;
    hide RowsKept;
  }

  lemma NewRecordDrawn(s0: Store, s: Store, t: Id, g: Drawn, record: ApprovalRecord)
    requires OnlyDrawn(s0, s, t, g) && record.taskId == t
    requires record.recordId !in s.approvals && record.recordId !in s0.approvals
    ensures OnlyDrawn(s0, Exec(s, PutApproval(record)), t, g.(recordIds := g.recordIds + [record.recordId]))
    ensures RowsKept(s, Exec(s, PutApproval(record)), g, |g.callIds|)
  {
    var r := record.recordId;
    assert !RecordOf(s, t, r) && r !in g.recordIds;
    forall c ensures CallOf(Exec(s, PutApproval(record)), t, c) <==> CallOf(s, t, c) {
    }
    hide CallOf;
  }

  lemma RelinkDrawn(s0: Store, s: Store, t: Id, g: Drawn, call: ToolCall, j: nat)
    requires OnlyDrawn(s0, s, t, g) && call.taskId == t && j < |g.callIds| && g.callIds[j] == call.callId
    ensures OnlyDrawn(s0, Exec(s, PutCall(call)), t, g)
    ensures RowsKept(s, Exec(s, PutCall(call)), g, j)
  {
    assert call.callId in g.callIds && CallOf(s, t, call.callId) && !CallOf(s0, t, call.callId);
    forall r ensures RecordOf(Exec(s, PutCall(call)), t, r) <==> RecordOf(s, t, r) {
    }
    hide RecordOf;
  }

  lemma SameDrawn(s0: Store, s: Store, s': Store, t: Id, g: Drawn)
    requires OnlyDrawn(s0, s, t, g) && s'.calls == s.calls && s'.approvals == s.approvals
    ensures OnlyDrawn(s0, s', t, g) && RowsKept(s, s', g, |g.callIds|)
  {
    assert forall c :: CallOf(s', t, c) <==> CallOf(s, t, c);
    assert forall r :: RecordOf(s', t, r) <==> RecordOf(s, t, r);
    hide CallOf;
    hide RecordOf;
  }

  lemma RecheckTurn(hash: string -> string, s0: Store, s: Store, task: TaskRecord, result: MeshResult, g: Drawn,
                    pc: WorkerPc, now: nat, input: Input)
    requires GateStage(hash, s0, s, task, result, g, Some(pc)) && pc.Recheck?
    requires LR.PcHolds(pc, s.tasks[task.taskId].state)
    ensures Arrives(hash, s0, s, task, result, g, WorkerTurn(hash, s, task.taskId, pc, now, input))
  {
    hide OnlyDrawn;
    hide ReadRows;
    hide Parked;
    hide ReadOnly;
  }

  lemma ReadRecorded(s0: Store, s: Store, task: TaskRecord, asked: seq<Proposal>, g: Drawn, evidence: seq<string>,
                     now: nat, out: Outcome)
    requires OnlyDrawn(s0, s, task.taskId, g) && ReadRows(s, task, asked, g.readIds) && |g.readIds| < |asked|
    requires Evidenced(s.calls, g.readIds, evidence) && Earlier0(s0, now) && now !in s.calls
    ensures var call := ReadCallRecord(task, asked[|g.readIds|], now);
            var s' := Exec(s, PutCall(ExecutedCall(call, out)));
            var g' := g.(readIds := g.readIds + [now]);
            && OnlyDrawn(s0, s', task.taskId, g') && ReadRows(s', task, asked, g'.readIds)
            && Evidenced(s'.calls, g'.readIds, evidence + [ReadSummary(call, out.result)])
            && s'.tasks == s.tasks
  {
    var call := ReadCallRecord(task, asked[|g.readIds|], now);
    var done := ExecutedCall(call, out);
    NewReadDrawn(s0, s, task.taskId, g, done);
    var s' := Exec(s, PutCall(done));
    assert ReadRow(s'.calls, task, asked[|g.readIds|], now);
    forall i | 0 <= i < |g.readIds| ensures g.readIds[i] in s.calls && s'.calls[g.readIds[i]] == s.calls[g.readIds[i]] {
      assert ReadRow(s.calls, task, asked[i], g.readIds[i]);
    }
    assert ReadSummary(done, out.result) == ReadSummary(call, out.result);
    hide OnlyDrawn;
    hide ReadSummary;
  }

  lemma ReadCallTurn(hash: string -> string, s0: Store, s: Store, task: TaskRecord, result: MeshResult, g: Drawn,
                     pc: WorkerPc, now: nat, input: Input) returns (g': Drawn)
    requires GateStage(hash, s0, s, task, result, g, Some(pc)) && pc.ReadCall?
    requires Earlier0(s0, now) && now !in s.calls
    ensures Arrives(hash, s0, s, task, result, g', WorkerTurn(hash, s, task.taskId, pc, now, input))
    ensures var ran := WorkerTurn(hash, s, task.taskId, pc, now, input).ran;
            g'.readIds == g.readIds + (if ran.Some? then [now] else [])
  {
    hide OnlyDrawn;
    hide ReadRows;
    hide Evidenced;
    hide ReadSummary;
    hide ReadCallRecord;
    hide Parked;
    hide ReadOnly;
    hide Earlier0;
    g' := g;
    if input.Ran? && pc.i < |result.proposedReads| {
      g' := g.(readIds := g.readIds + [now]);
      ReadRecorded(s0, s, task, result.proposedReads, g, pc.evidence, now, input.outcome);
      ReadTurn(hash, s, task, result, pc.i, pc.evidence, now, input.outcome);
      hide WorkerTurn;
      hide Exec;
    }
  }

  lemma CompleteTurn(hash: string -> string, s0: Store, s: Store, task: TaskRecord, result: MeshResult, g: Drawn,
                     pc: WorkerPc, now: nat, input: Input)
    requires GateStage(hash, s0, s, task, result, g, Some(pc)) && pc.Complete?
    requires LR.PcHolds(pc, s.tasks[task.taskId].state)
    ensures Arrives(hash, s0, s, task, result, g, WorkerTurn(hash, s, task.taskId, pc, now, input))
  {
    var s' := ExecSome(s, WorkerTurn(hash, s, task.taskId, pc, now, input).call);
    SameDrawn(s0, s, s', task.taskId, g);
    RowsKeep(hash, s, s', task, result, g, 0);
    hide OnlyDrawn;
    hide ReadRows;
    hide Evidenced;
    hide CompletionSummary;
    hide Parked;
    hide ReadOnly;
    hide RowsKept;
  }

  lemma SummarizeTurn(hash: string -> string, s0: Store, s: Store, task: TaskRecord, result: MeshResult, g: Drawn,
                      pc: WorkerPc, now: nat, input: Input)
    requires GateStage(hash, s0, s, task, result, g, Some(pc)) && pc.Summarize?
    requires LR.PcHolds(pc, s.tasks[task.taskId].state) && LR.PcOwns(pc, task.taskId)
    requires SqlRuns.PcCopies(s, task.taskId, pc)
    ensures Arrives(hash, s0, s, task, result, g, WorkerTurn(hash, s, task.taskId, pc, now, input))
  {
    var s' := ExecSome(s, WorkerTurn(hash, s, task.taskId, pc, now, input).call);
    SameDrawn(s0, s, s', task.taskId, g);
    RowsKeep(hash, s, s', task, result, g, 0);
    hide OnlyDrawn;
    hide ReadRows;
    hide Evidenced;
    hide CompletionSummary;
    hide Parked;
    hide RowsKept;
  }

  lemma OpenCallTurn(hash: string -> string, s0: Store, s: Store, task: TaskRecord, result: MeshResult, g: Drawn,
                     pc: WorkerPc, now: nat, input: Input) returns (g': Drawn)
    requires GateStage(hash, s0, s, task, result, g, Some(pc)) && pc.OpenCall?
    requires Earlier0(s0, now) && now !in s.calls
    ensures Arrives(hash, s0, s, task, result, g', WorkerTurn(hash, s, task.taskId, pc, now, input))
    ensures g'.readIds == g.readIds
  {
    var call := WriteCallRecord(task, result.proposedWrites[pc.j], now);
    g' := g.(callIds := g.callIds + [now]);
    NewCallDrawn(s0, s, task.taskId, g, call);
    var s' := Exec(s, PutCall(call));
    RowsKeep(hash, s, s', task, result, g, pc.j);
    assert Opening(s', task, result.proposedWrites[pc.j], now, call);
    hide OnlyDrawn;
    hide ReadRows;
    hide GatedRow;
    hide TokensAre;
    hide Opening;
    hide RowsKept;
    hide Evidenced;
  }

  lemma RecordOpened(hash: string -> string, s0: Store, s: Store, task: TaskRecord, result: MeshResult, g: Drawn,
                     j: nat, tokens: map<Id, Token>, call: ToolCall, now: nat)
    requires task.taskId in s0.tasks && task.taskId in s.tasks
    requires OnlyDrawn(s0, s, task.taskId, g) && ReadRows(s, task, result.proposedReads, g.readIds)
    requires Gating(hash, s0, s, task, result, g, task, result, j, tokens) && |g.callIds| == j + 1 && |g.recordIds| == j
    requires Opening(s, task, result.proposedWrites[j], g.callIds[j], call)
    requires Earlier0(s0, now) && now !in s.approvals
    ensures var record := PendingRecord(hash, call, now);
            var s', g' := Exec(s, PutApproval(record)), g.(recordIds := g.recordIds + [now]);
            var tokens' := tokens[now := Token(now, record.payloadHash, call.requesterId)];
            && OnlyDrawn(s0, s', task.taskId, g') && ReadRows(s', task, result.proposedReads, g'.readIds)
            && Gating(hash, s0, s', task, result, g', task, result, j, tokens') && Opened(hash, s', call, now)
            && Opening(s', task, result.proposedWrites[j], g.callIds[j], call)
  {
    hide PayloadHash;
    var record := PendingRecord(hash, call, now);
    NewRecordDrawn(s0, s, task.taskId, g, record);
    var s' := Exec(s, PutApproval(record));
    RowsKeep(hash, s, s', task, result, g, j);
    NewToken(hash, tokens, task, result.proposedWrites, g.recordIds, call, record);
    hide OnlyDrawn;
    hide ReadRows;
    hide GatedRow;
    hide TokensAre;
    hide RowsKept;
    hide Evidenced;
  }

  lemma OpenApprovalTurn(hash: string -> string, s0: Store, s: Store, task: TaskRecord, result: MeshResult, g: Drawn,
                         pc: WorkerPc, now: nat, input: Input) returns (g': Drawn)
    requires GateStage(hash, s0, s, task, result, g, Some(pc)) && pc.OpenApproval?
    requires Earlier0(s0, now) && now !in s.approvals
    ensures Arrives(hash, s0, s, task, result, g', WorkerTurn(hash, s, task.taskId, pc, now, input))
    ensures g'.readIds == g.readIds
  {
    g' := g.(recordIds := g.recordIds + [now]);
    RecordOpened(hash, s0, s, task, result, g, pc.j, pc.tokens, pc.call, now);
    hide PayloadHash;
    hide OnlyDrawn;
    hide ReadRows;
    hide GatedRows;
    hide TokensAre;
    hide Opened;
    hide Opening;
    hide Earlier0;
  }

  lemma NewToken(hash: string -> string, tokens: map<Id, Token>, task: TaskRecord, writes: seq<Proposal>,
                 records: seq<Id>, call: ToolCall, record: ApprovalRecord)
    requires TokensAre(hash, tokens, task, writes, records) && |records| < |writes| && record.recordId !in records
    requires call == WriteCallRecord(task, writes[|records|], call.callId)
    requires record == PendingRecord(hash, call, record.recordId)
    ensures TokensAre(hash, tokens[record.recordId := Token(record.recordId, record.payloadHash, call.requesterId)],
                      task, writes, records + [record.recordId])
  {
    hide PayloadHash;
  }

  lemma RowsLinked(hash: string -> string, s0: Store, s: Store, task: TaskRecord, result: MeshResult, g: Drawn,
                   j: nat, call: ToolCall, r: Id)
    requires OnlyDrawn(s0, s, task.taskId, g) && ReadRows(s, task, result.proposedReads, g.readIds)
    requires GatedRows(hash, s, task, result.proposedWrites, g, j) && |g.callIds| == j + 1 && |g.recordIds| == j + 1
    requires j < |result.proposedWrites| && g.recordIds[j] == r
    requires Opening(s, task, result.proposedWrites[j], g.callIds[j], call) && Opened(hash, s, call, r)
    ensures var s' := Exec(s, PutCall(call.(approvalRecordId := Some(r))));
            && OnlyDrawn(s0, s', task.taskId, g) && ReadRows(s', task, result.proposedReads, g.readIds)
            && GatedRows(hash, s', task, result.proposedWrites, g, j + 1)
  {
    var linked := call.(approvalRecordId := Some(r));
    var s' := Exec(s, PutCall(linked));
    RelinkDrawn(s0, s, task.taskId, g, linked, j);
    RowsKeep(hash, s, s', task, result, g, j);
    LinkedRow(hash, s, task, result.proposedWrites[j], g.callIds[j], call, r);
    hide OnlyDrawn;
    hide ReadRows;
    hide GatedRow;
    hide Opened;
    hide RowsKept;
    hide Evidenced;
    hide Exec;
  }

  lemma TurnOfLink(hash: string -> string, s: Store, t: Id, pc: WorkerPc, now: nat, input: Input)
    requires t in s.tasks && pc.LinkCall?
    ensures WorkerTurn(hash, s, t, pc, now, input)
         == Calls(PutCall(pc.call.(approvalRecordId := Some(pc.recordId))),
                  Some(if pc.j + 1 < |pc.result.proposedWrites| then OpenCall(pc.task, pc.result, pc.j + 1, pc.tokens)
                       else ReadBack(pc.tokens)))
    ensures ExecSome(s, WorkerTurn(hash, s, t, pc, now, input).call).tasks == s.tasks
  {
  }

  lemma AfterLink(hash: string -> string, s0: Store, s: Store, s': Store, task: TaskRecord, result: MeshResult,
                  g: Drawn, k: TaskRecord, res: MeshResult, j: nat, tokens: map<Id, Token>)
    requires task.taskId in s0.tasks && task.taskId in s.tasks && s'.tasks == s.tasks
    requires Gating(hash, s0, s, task, result, g, k, res, j, tokens) && |g.callIds| == j + 1 && |g.recordIds| == j + 1
    requires GatedRows(hash, s', task, result.proposedWrites, g, j + 1)
    ensures k == task && res == result && j < |result.proposedWrites|
    ensures GatedRows(hash, s, task, result.proposedWrites, g, j)
    ensures j + 1 < |result.proposedWrites| ==> Gating(hash, s0, s', task, result, g, k, res, j + 1, tokens)
    ensures j + 1 == |result.proposedWrites| ==>
              AllTokens(hash, s0, s', task, result, g, s'.tasks[task.taskId].metadata, tokens)
  {
    hide GatedRows;
    hide TokensAre;
  }

  lemma LinkCallTurn(hash: string -> string, s0: Store, s: Store, task: TaskRecord, result: MeshResult, g: Drawn,
                     pc: WorkerPc, now: nat, input: Input)
    requires GateStage(hash, s0, s, task, result, g, Some(pc)) && pc.LinkCall?
    ensures Arrives(hash, s0, s, task, result, g, WorkerTurn(hash, s, task.taskId, pc, now, input))
  {
    hide Opening;
    hide Opened;
    hide OnlyDrawn;
    hide ReadRows;
    hide GatedRows;
    hide TokensAre;
    hide Parked;
    hide ReadOnly;
    TurnOfLink(hash, s, task.taskId, pc, now, input);
    hide WorkerTurn;
    hide Exec;
    RowsLinked(hash, s0, s, task, result, g, pc.j, pc.call, pc.recordId);
    var s' := Exec(s, PutCall(pc.call.(approvalRecordId := Some(pc.recordId))));
    AfterLink(hash, s0, s, s', task, result, g, pc.task, pc.result, pc.j, pc.tokens);
    hide Gating;
    hide AllTokens;
  }

  lemma LinkedRow(hash: string -> string, s: Store, task: TaskRecord, p: Proposal, c: Id, call: ToolCall, r: Id)
    requires Opening(s, task, p, c, call) && Opened(hash, s, call, r)
    ensures GatedRow(hash, Exec(s, PutCall(call.(approvalRecordId := Some(r)))), task, p, c, r)
  {
    hide PayloadHash;
  }

  lemma ReadBackTurn(hash: string -> string, s0: Store, s: Store, task: TaskRecord, result: MeshResult, g: Drawn,
                     pc: WorkerPc, now: nat, input: Input)
    requires GateStage(hash, s0, s, task, result, g, Some(pc)) && pc.ReadBack?
    ensures Arrives(hash, s0, s, task, result, g, WorkerTurn(hash, s, task.taskId, pc, now, input))
  {
    hide OnlyDrawn;
    hide ReadRows;
    hide GatedRows;
    hide TokensAre;
  }

  lemma TokensStashed(hash: string -> string, s0: Store, task: TaskRecord, m: Metadata, writes: seq<Proposal>,
                      records: seq<Id>, tokens: map<Id, Token>)
    requires task.taskId in s0.tasks && m == s0.tasks[task.taskId].metadata
    requires TokensAre(hash, tokens, task, writes, records) && |records| == |writes|
    ensures StashedTokens(hash, s0, Stashed(m, tokens), task, writes, records)
  {
    hide PayloadHash;
    var asked := task.(metadata := m);
    forall i | 0 <= i < |writes| ensures TokenFor(hash, tokens, asked, writes[i], records[i]) {
      assert TokenFor(hash, tokens, task, writes[i], records[i]);
    }
    StashKeeps(hash, asked, writes, records, tokens);
  }

  lemma StashTurn(hash: string -> string, s0: Store, s: Store, task: TaskRecord, result: MeshResult, g: Drawn,
                  pc: WorkerPc, now: nat, input: Input)
    requires GateStage(hash, s0, s, task, result, g, Some(pc)) && pc.Stash?
    requires LR.PcOwns(pc, task.taskId) && SqlRuns.PcCopies(s, task.taskId, pc)
    ensures Arrives(hash, s0, s, task, result, g, WorkerTurn(hash, s, task.taskId, pc, now, input))
  {
    hide TokensAre;
    TokensStashed(hash, s0, task, pc.current.metadata, result.proposedWrites, g.recordIds, pc.tokens);
    hide StashedTokens;
    var s' := ExecSome(s, WorkerTurn(hash, s, task.taskId, pc, now, input).call);
    SameDrawn(s0, s, s', task.taskId, g);
    RowsKeep(hash, s, s', task, result, g, |result.proposedWrites|);
    hide Stashed;
    hide OnlyDrawn;
    hide ReadRows;
    hide GatedRows;
    hide RowsKept;
    hide Evidenced;
  }

  lemma ParkTurn(hash: string -> string, s0: Store, s: Store, task: TaskRecord, result: MeshResult, g: Drawn,
                 pc: WorkerPc, now: nat, input: Input)
    requires GateStage(hash, s0, s, task, result, g, Some(pc)) && pc.Park?
    requires LR.PcHolds(pc, s.tasks[task.taskId].state)
    ensures Arrives(hash, s0, s, task, result, g, WorkerTurn(hash, s, task.taskId, pc, now, input))
  {
    var s' := ExecSome(s, WorkerTurn(hash, s, task.taskId, pc, now, input).call);
    SameDrawn(s0, s, s', task.taskId, g);
    RowsKeep(hash, s, s', task, result, g, |result.proposedWrites|);
    hide OnlyDrawn;
    hide ReadRows;
    hide GatedRows;
    hide TokensKept;
    hide RowsKept;
    hide ReadOnly;
    hide Evidenced;
  }

  lemma OwnTurn(hash: string -> string, s0: Store, s: Store, task: TaskRecord, result: MeshResult, g: Drawn,
                pc: WorkerPc, now: nat, input: Input) returns (g': Drawn)
    requires GateStage(hash, s0, s, task, result, g, Some(pc)) && Earlier0(s0, now) && SqlRuns.Keyed(s, now)
    requires LR.PcHolds(pc, s.tasks[task.taskId].state) && LR.PcOwns(pc, task.taskId)
    requires SqlRuns.PcCopies(s, task.taskId, pc)
    ensures Arrives(hash, s0, s, task, result, g', WorkerTurn(hash, s, task.taskId, pc, now, input))
    ensures var ran := WorkerTurn(hash, s, task.taskId, pc, now, input).ran;
            g'.readIds == g.readIds + (if ran.Some? then [now] else [])
  {
    hide WorkerTurn;
    hide Arrives;
    hide Earlier0;
    hide LR.PcHolds;
    hide LR.PcOwns;
    hide SqlRuns.PcCopies;
    hide OnlyDrawn;
    hide ReadRows;
    hide Reading;
    hide Gating;
    hide AllTokens;
    hide AllGated;
    hide StashedTokens;
    hide Opening;
    hide Opened;
    g' := g;
    if !pc.ReadCall? {
      OnlyReadsRun(hash, s, task.taskId, pc, now, input);
    }
    match pc {
      case Recheck(_, _) => RecheckTurn(hash, s0, s, task, result, g, pc, now, input);
      case ReadCall(_, _, _, _) => g' := ReadCallTurn(hash, s0, s, task, result, g, pc, now, input);
      case Complete(_, _, _) => CompleteTurn(hash, s0, s, task, result, g, pc, now, input);
      case Summarize(_, _) => SummarizeTurn(hash, s0, s, task, result, g, pc, now, input);
      case OpenCall(_, _, _, _) => g' := OpenCallTurn(hash, s0, s, task, result, g, pc, now, input);
      case OpenApproval(_, _, _, _, _) => g' := OpenApprovalTurn(hash, s0, s, task, result, g, pc, now, input);
      case LinkCall(_, _, _, _, _, _) => LinkCallTurn(hash, s0, s, task, result, g, pc, now, input);
      case ReadBack(_) => ReadBackTurn(hash, s0, s, task, result, g, pc, now, input);
      case Stash(_, _) => StashTurn(hash, s0, s, task, result, g, pc, now, input);
      case Park => ParkTurn(hash, s0, s, task, result, g, pc, now, input);
    }
  }

  lemma OnlyReadsRun(hash: string -> string, s: Store, t: Id, pc: WorkerPc, now: nat, input: Input)
    requires t in s.tasks && !pc.ReadCall? && !pc.Settle?
    ensures WorkerTurn(hash, s, t, pc, now, input).ran == None
  {
    hide ListCalls;
    hide Legal;
  }

  // ---- Reads and their executions ------------------------------------------------------------

  /** The execution is the one this read's row was recorded from: the call as it was handed to the tool, and
      what came of it. */
  predicate LogsRead(e: Execution, call: ToolCall) {
    && e.gate.None? && RecordedFrom(call, e.outcome)
    && e.call == call.(result := None, integrationStyle := None, schemaValidation := None)
  }

  ghost predicate LoggedOnce(execs: seq<Execution>, call: ToolCall) {
    && (exists k :: 0 <= k < |execs| && LogsRead(execs[k], call))
    && (forall j, k :: 0 <= j < k < |execs| ==>
          execs[j].call.callId != call.callId || execs[k].call.callId != call.callId)
  }

  /** Each of the reads was executed exactly once, and its row holds what came of that. */
  ghost predicate ReadsLogged(execs: seq<Execution>, calls: map<Id, ToolCall>, ids: seq<Id>) {
    forall i :: 0 <= i < |ids| ==> ids[i] in calls && calls[ids[i]].callId == ids[i] && LoggedOnce(execs, calls[ids[i]])
  }

  ghost predicate RunsBelow(execs: seq<Execution>, now: nat) {
    forall k :: 0 <= k < |execs| ==> execs[k].call.callId < now
  }

  lemma LogGrows(execs: seq<Execution>, e: Execution, call: ToolCall)
    requires LoggedOnce(execs, call) && e.call.callId != call.callId
    ensures LoggedOnce(execs + [e], call)
  {
    var k :| 0 <= k < |execs| && LogsRead(execs[k], call);
    assert (execs + [e])[k] == execs[k];
  }

  lemma LogBegins(execs: seq<Execution>, e: Execution, call: ToolCall)
    requires RunsBelow(execs, call.callId) && LogsRead(e, call)
    ensures LoggedOnce(execs + [e], call)
  {
    assert (execs + [e])[|execs|] == e;
  }

  lemma RanBelow(hash: string -> string, s: Store, t: Id, pc: WorkerPc, now: nat, input: Input)
    requires t in s.tasks && SqlRuns.PcCopies(s, t, pc) && SqlRuns.Keyed(s, now) && LR.PcOwns(pc, t)
    ensures var ran := WorkerTurn(hash, s, t, pc, now, input).ran;
            ran.Some? ==>
              && ran.value.call.callId <= now && ran.value.call.taskId == t
              && (ran.value.call.callId == now || CallOf(s, t, ran.value.call.callId))
  {
    hide IsApproved;
    hide ReadSummary;
    hide ListCalls;
    hide Legal;
  }

  lemma StepRuns(hash: string -> string, w: World, l: Label)
    requires SqlRuns.Inv(w) && RunsBelow(w.execs, w.clock)
    ensures RunsBelow(Next(hash, w, l).execs, w.clock + 1)
    ensures var ran := Executes(hash, w, l);
            ran.Some? ==>
              && l.Work?
              && (ran.value.call.callId == w.clock || CallOf(w.store, l.taskId, ran.value.call.callId))
  {
    hide LR.Inv;
    hide LR.PcOwns;
    hide SqlRuns.PcCopies;
    hide SqlRuns.Stamped;
    hide WorkerTurn;
    hide CallOf;
    if l.Work? && l.taskId in w.workers && l.taskId in w.store.tasks {
      LR.PcFacts(w, l.taskId);
      RanBelow(hash, w.store, l.taskId, w.workers[l.taskId], w.clock, l.input);
    }
    hide Effect;
    hide NextWorkers;
    hide SqlRuns.Keyed;
  }

  lemma {:induction false} RunRuns(hash: string -> string, labels: seq<Label>)
    ensures RunsBelow(Run(hash, INITIAL, labels).execs, Run(hash, INITIAL, labels).clock)
  {
    hide Next;
    hide RunsBelow;
    if labels != [] {
      var before := labels[..|labels| - 1];
      RunRuns(hash, before);
      SqlRuns.InvAlways(hash, before);
      StepRuns(hash, Run(hash, INITIAL, before), labels[|labels| - 1]);
      ClockTicks(hash, Run(hash, INITIAL, before), labels[|labels| - 1]);
    } else {
      assert RunsBelow([], 0) by { NoRuns(); }
    }
    hide SqlRuns.Inv;
  }

  lemma NoRuns()
    ensures RunsBelow([], 0)
  {
  }

  lemma ClockTicks(hash: string -> string, w: World, l: Label)
    ensures Next(hash, w, l).clock == w.clock + 1
  {
  }

  /** A turn of the task's own worker leaves the rows of its earlier reads as they are; the read it runs, if any,
      is recorded from what came of it. */
  lemma OwnReads(hash: string -> string, s0: Store, s: Store, task: TaskRecord, result: MeshResult, g: Drawn,
                 pc: WorkerPc, now: nat, input: Input)
    requires GateStage(hash, s0, s, task, result, g, Some(pc)) && now !in s.calls
    ensures var turn := WorkerTurn(hash, s, task.taskId, pc, now, input);
            var s' := ExecSome(s, turn.call);
            && (forall c :: c in g.readIds ==> c in s.calls && c in s'.calls && s'.calls[c] == s.calls[c])
            && (turn.ran.Some? ==>
                  now in s'.calls && s'.calls[now].callId == now && LogsRead(turn.ran.value, s'.calls[now]))
  {
    hide Evidenced;
    hide GatedRows;
    hide TokensAre;
    hide StashedTokens;
    hide Parked;
    hide ReadOnly;
    hide ReadRows;
    hide Legal;
    forall c | c in g.readIds ensures CallOf(s, task.taskId, c) && c !in g.callIds {
    }
    hide OnlyDrawn;
  }

  lemma ClockNew(w: World)
    requires SqlRuns.Inv(w)
    ensures w.clock !in w.store.calls && w.clock !in w.store.approvals
  {
    hide LR.Inv;
    hide SqlRuns.CopiesOk;
    hide SqlRuns.Stamped;
  }

  lemma ReadsAreOwn(hash: string -> string, s0: Store, s: Store, task: TaskRecord, result: MeshResult, g: Drawn,
                    pc: Option<WorkerPc>)
    requires GateStage(hash, s0, s, task, result, g, pc)
    ensures task.taskId in s.tasks && forall c :: c in g.readIds ==> CallOf(s, task.taskId, c)
  {
    hide GateProgress;
    hide Parked;
    hide ReadOnly;
    hide ReadRows;
  }

  /** Rows that stay, and at most one more execution, of another call or of a new read. */
  lemma LogsKept(execs: seq<Execution>, ran: Option<Execution>, calls: map<Id, ToolCall>, calls': map<Id, ToolCall>,
                 ids: seq<Id>, now: Id, own: bool)
    requires ReadsLogged(execs, calls, ids) && RunsBelow(execs, now)
    requires forall c :: c in ids ==> c in calls' && calls'[c] == calls[c]
    requires ran.Some? ==> ran.value.call.callId !in ids
    requires own && ran.Some? ==> now in calls' && calls'[now].callId == now && LogsRead(ran.value, calls'[now])
    ensures ReadsLogged(execs + (if ran.Some? then [ran.value] else []), calls',
                        ids + (if own && ran.Some? then [now] else []))
  {
    hide LogsRead;
    hide LoggedOnce;
    if ran.Some? {
      forall i | 0 <= i < |ids| ensures LoggedOnce(execs + [ran.value], calls'[ids[i]]) {
        assert ids[i] in ids;
        LogGrows(execs, ran.value, calls[ids[i]]);
      }
      if own {
        LogBegins(execs, ran.value, calls'[now]);
      }
    } else {
      assert execs + [] == execs;
      forall i | 0 <= i < |ids| ensures LoggedOnce(execs, calls'[ids[i]]) {
        assert ids[i] in ids;
      }
    }
    hide RunsBelow;
  }

  lemma OwnLog(hash: string -> string, s0: Store, w: World, input: Input, task: TaskRecord, result: MeshResult,
               g: Drawn)
    requires SqlRuns.Inv(w) && Gates(w, Work(task.taskId, input), task.taskId) && RunsBelow(w.execs, w.clock)
    requires GateStage(hash, s0, w.store, task, result, g, LR.PcOf(w, task.taskId))
    requires ReadsLogged(w.execs, w.store.calls, g.readIds)
    ensures var l := Work(task.taskId, input);
            var w', ran := Next(hash, w, l), Executes(hash, w, l);
            ReadsLogged(w'.execs, w'.store.calls, g.readIds + (if ran.Some? then [w.clock] else []))
  {
    var t, l := task.taskId, Work(task.taskId, input);
    hide GateProgress;
    hide WorkerTurn;
    hide LogsRead;
    hide ReadsLogged;
    hide RunsBelow;
    ClockNew(w);
    ReadsAreOwn(hash, s0, w.store, task, result, g, LR.PcOf(w, t));
    hide SqlRuns.Inv;
    OwnReads(hash, s0, w.store, task, result, g, w.workers[t], w.clock, input);
    hide GateStage;
    WorkStep(hash, w, t, input);
    var w', ran := Next(hash, w, l), Executes(hash, w, l);
    hide Next;
    RanNew(w, g.readIds, ran, w'.store.calls);
    LogsKept(w.execs, ran, w.store.calls, w'.store.calls, g.readIds, w.clock, true);
    assert w.execs + [] == w.execs;
  }

  lemma RanNew(w: World, ids: seq<Id>, ran: Option<Execution>, calls: map<Id, ToolCall>)
    requires w.clock !in w.store.calls && forall c :: c in ids ==> c in w.store.calls
    requires ran.Some? ==> w.clock in calls && calls[w.clock].callId == w.clock && LogsRead(ran.value, calls[w.clock])
    ensures ran.Some? ==> ran.value.call.callId !in ids
  {
  }

  /** What anybody else runs is none of the task's calls. */
  lemma OtherRuns(hash: string -> string, w: World, l: Label, t: Id)
    requires SqlRuns.Inv(w) && RunsBelow(w.execs, w.clock) && !(l.Work? && l.taskId == t)
    ensures var ran := Executes(hash, w, l); ran.Some? ==> !CallOf(w.store, t, ran.value.call.callId)
  {
    hide WorkerTurn;
    StepRuns(hash, w, l);
    ClockNew(w);
    hide SqlRuns.Inv;
    hide Next;
  }

  lemma WaitRows(hash: string -> string, w: World, l: Label, t: Id)
    requires SqlRuns.Inv(w) && Gates(w, l, t) && !(l.Work? && l.taskId == t) && t in w.store.tasks
    ensures var s' := Next(hash, w, l).store;
            forall c :: CallOf(w.store, t, c) ==> c in s'.calls && s'.calls[c] == w.store.calls[c]
  {
    WaitStep(hash, w, l, t);
    hide SqlRuns.Inv;
    hide Next;
    var s' := Next(hash, w, l).store;
    forall c | CallOf(w.store, t, c) ensures c in s'.calls && s'.calls[c] == w.store.calls[c] {
      assert CallOf(s', t, c);
    }
  }

  lemma OtherLog(hash: string -> string, s0: Store, w: World, l: Label, task: TaskRecord, result: MeshResult, g: Drawn)
    requires SqlRuns.Inv(w) && Gates(w, l, task.taskId) && !(l.Work? && l.taskId == task.taskId)
    requires RunsBelow(w.execs, w.clock) && ReadsLogged(w.execs, w.store.calls, g.readIds)
    requires GateStage(hash, s0, w.store, task, result, g, LR.PcOf(w, task.taskId))
    ensures var w' := Next(hash, w, l); ReadsLogged(w'.execs, w'.store.calls, g.readIds)
  {
    hide *;
    var ran, w' := Executes(hash, w, l), Next(hash, w, l);
    ReadsAreOwn(hash, s0, w.store, task, result, g, LR.PcOf(w, task.taskId));
    OtherRuns(hash, w, l, task.taskId);
    WaitRows(hash, w, l, task.taskId);
    NextExecs(hash, w, l);
    LogsKept(w.execs, ran, w.store.calls, w'.store.calls, g.readIds, w.clock, false);
    assert g.readIds + [] == g.readIds;
  }

  lemma NextExecs(hash: string -> string, w: World, l: Label)
    ensures var ran := Executes(hash, w, l);
            Next(hash, w, l).execs == w.execs + (if ran.Some? then [ran.value] else [])
  {
    hide WorkerTurn;
    hide Effect;
    hide NextWorkers;
    hide NextApprovers;
    assert w.execs + [] == w.execs;
  }

  // ---- Whole runs ----------------------------------------------------------------------------

  lemma PcStays(hash: string -> string, w: World, l: Label, t: Id)
    requires t in w.workers && (l.Work? ==> l.taskId != t) && (l.Crash? ==> l.taskId != t)
    ensures LR.PcOf(Next(hash, w, l), t) == Some(w.workers[t])
  {
    hide WorkerTurn;
    hide ApproverTurn;
    hide Exec;
  }

  lemma GateStep(hash: string -> string, s0: Store, w: World, l: Label, task: TaskRecord, result: MeshResult, g: Drawn)
    returns (g': Drawn)
    requires SqlRuns.Inv(w) && Gates(w, l, task.taskId) && Earlier0(s0, w.clock)
    requires GateStage(hash, s0, w.store, task, result, g, LR.PcOf(w, task.taskId))
    ensures var w' := Next(hash, w, l);
            GateStage(hash, s0, w'.store, task, result, g', LR.PcOf(w', task.taskId)) && Earlier0(s0, w'.clock)
    ensures var ran := Executes(hash, w, l);
            g'.readIds == g.readIds + (if l.Work? && l.taskId == task.taskId && ran.Some? then [w.clock] else [])
  {
    var t := task.taskId;
    hide SqlRuns.PcCopies;
    hide SqlRuns.Stamped;
    hide SqlRuns.Keyed;
    hide LR.Inv;
    hide LR.PcHolds;
    hide LR.PcOwns;
    hide WorkerTurn;
    hide GateProgress;
    hide OnlyDrawn;
    hide Parked;
    hide ReadOnly;
    hide ReadRows;
    g' := g;
    if l.Work? && l.taskId == t {
      LR.PcFacts(w, t);
      g' := OwnTurn(hash, s0, w.store, task, result, g, w.workers[t], w.clock, l.input);
      WorkStep(hash, w, t, l.input);
      hide Next;
      hide GateStage;
    } else {
      WaitStep(hash, w, l, t);
      PcStays(hash, w, l, t);
      GateStays(hash, s0, w.store, Next(hash, w, l).store, task, result, g, w.workers[t]);
      hide GateStage;
    }
    hide Carried;
  }

  lemma {:induction false} RunGates(hash: string -> string, s0: Store, w: World, labels: seq<Label>, task: TaskRecord,
                                    result: MeshResult, g: Drawn) returns (g': Drawn)
    requires SqlRuns.Inv(w) && GatesAll(hash, w, labels, task.taskId) && Earlier0(s0, w.clock)
    requires GateStage(hash, s0, w.store, task, result, g, LR.PcOf(w, task.taskId))
    requires RunsBelow(w.execs, w.clock) && ReadsLogged(w.execs, w.store.calls, g.readIds)
    ensures var w' := Run(hash, w, labels);
            && SqlRuns.Inv(w') && Earlier0(s0, w'.clock)
            && GateStage(hash, s0, w'.store, task, result, g', LR.PcOf(w', task.taskId))
            && RunsBelow(w'.execs, w'.clock) && ReadsLogged(w'.execs, w'.store.calls, g'.readIds)
  {
    hide Next;
    hide SqlRuns.Inv;
    hide Gates;
    hide GateStage;
    hide Earlier0;
    g' := g;
    if labels != [] {
      var before, l := labels[..|labels| - 1], labels[|labels| - 1];
      var w' := Run(hash, w, before);
      g' := RunGates(hash, s0, w, before, task, result, g);
      SqlRuns.InvKept(hash, w', l);
      var g0 := g';
      g' := GateStep(hash, s0, w', l, task, result, g0);
      if l.Work? && l.taskId == task.taskId {
        OwnLog(hash, s0, w', l.input, task, result, g0);
      } else {
        OtherLog(hash, s0, w', l, task, result, g0);
      }
      StepRuns(hash, w', l);
      ClockTicks(hash, w', l);
    }
    hide RunsBelow;
    hide ReadsLogged;
  }

  /** The mesh returns its plan. */
  lemma PlanArrives(hash: string -> string, w: World, task: TaskRecord, result: MeshResult)
    requires SqlRuns.Inv(w) && task.taskId in w.workers && w.workers[task.taskId] == RunMesh(task)
    ensures var w' := Next(hash, w, Work(task.taskId, Mesh(result)));
            && w'.store == w.store && Earlier0(w.store, w'.clock)
            && GateStage(hash, w.store, w'.store, task, result, Drawn([], [], []), LR.PcOf(w', task.taskId))
  {
    var t := task.taskId;
    hide SqlRuns.Stamped;
    LR.PcFacts(w, t);
    hide LR.Inv;
    hide LR.PcHolds;
    hide LR.PcOwns;
    assert SqlRuns.TaskCopy(w.store, t, task);
    WorkStep(hash, w, t, Mesh(result));
    hide Next;
    hide SqlRuns.CopiesOk;
    StageStarts(hash, w.store, task, result);
    hide GateStage;
  }

  lemma StageStarts(hash: string -> string, s: Store, task: TaskRecord, result: MeshResult)
    requires task.taskId in s.tasks && s.tasks[task.taskId].tenantId == task.tenantId
    ensures GateStage(hash, s, s, task, result, Drawn([], [], []), Some(Recheck(task, result)))
  {
  }

  /** Once the plan of a task has arrived, over any interleaving in which its worker neither crashes nor has its
      calls rewritten, the task that parks has every proposed read executed and every proposed write behind one
      record of its own, bound to what was proposed, with its token stashed beside the earlier ones. */
  lemma ParkBinds(hash: string -> string, past: seq<Label>, w1: World, labels: seq<Label>, w: World, task: TaskRecord,
                  result: MeshResult) returns (g: Drawn)
    requires w1 == Run(hash, INITIAL, past) && task.taskId in w1.workers && w1.workers[task.taskId] == RunMesh(task)
    requires GatesAll(hash, Next(hash, w1, Work(task.taskId, Mesh(result))), labels, task.taskId)
    requires w == Run(hash, Next(hash, w1, Work(task.taskId, Mesh(result))), labels)
    ensures GateStage(hash, w1.store, w.store, task, result, g, LR.PcOf(w, task.taskId))
    ensures task.taskId in w.store.tasks
    ensures task.taskId !in w.workers && w.store.tasks[task.taskId].state == AwaitingApproval ==>
              Parked(hash, w1.store, w.store, task, result, g)
    ensures task.taskId !in w.workers && w.store.tasks[task.taskId].state == Completed ==>
              ReadOnly(w1.store, w.store, task, result, g)
    ensures ReadsLogged(w.execs, w.store.calls, g.readIds)
  {
    hide *;
    GatesBegin(hash, past, w1, task, result);
    g := RunGates(hash, w1.store, Next(hash, w1, Work(task.taskId, Mesh(result))), labels, task, result,
                  Drawn([], [], []));
    Ended(hash, w1.store, w.store, task, result, g, LR.PcOf(w, task.taskId));
    NoWorker(w, task.taskId);
  }

  lemma NoWorker(w: World, t: Id)
    ensures t !in w.workers ==> LR.PcOf(w, t) == None
  {
  }

  lemma Ended(hash: string -> string, s0: Store, s: Store, task: TaskRecord, result: MeshResult, g: Drawn,
              pc: Option<WorkerPc>)
    requires GateStage(hash, s0, s, task, result, g, pc)
    ensures task.taskId in s.tasks
    ensures pc.None? && s.tasks[task.taskId].state == AwaitingApproval ==> Parked(hash, s0, s, task, result, g)
    ensures pc.None? && s.tasks[task.taskId].state == Completed ==> ReadOnly(s0, s, task, result, g)
  {
    hide Parked;
    hide ReadOnly;
    hide OnlyDrawn;
    hide ReadRows;
    hide GateProgress;
  }

  lemma GatesBegin(hash: string -> string, past: seq<Label>, w: World, task: TaskRecord, result: MeshResult)
    requires w == Run(hash, INITIAL, past) && task.taskId in w.workers && w.workers[task.taskId] == RunMesh(task)
    ensures var w' := Next(hash, w, Work(task.taskId, Mesh(result)));
            && SqlRuns.Inv(w') && Earlier0(w.store, w'.clock) && RunsBelow(w'.execs, w'.clock)
            && ReadsLogged(w'.execs, w'.store.calls, Drawn([], [], []).readIds)
            && GateStage(hash, w.store, w'.store, task, result, Drawn([], [], []), LR.PcOf(w', task.taskId))
  {
    hide Run;
    hide Next;
    hide SqlRuns.Inv;
    hide GateStage;
    hide RunsBelow;
    hide Earlier0;
    SqlRuns.InvAlways(hash, past);
    RunRuns(hash, past);
    StepRuns(hash, w, Work(task.taskId, Mesh(result)));
    ClockTicks(hash, w, Work(task.taskId, Mesh(result)));
    PlanArrives(hash, w, task, result);
    SqlRuns.InvKept(hash, w, Work(task.taskId, Mesh(result)));
  }
}
