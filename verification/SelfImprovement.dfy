/** The self-improvement pipeline: reflect, evaluate, open an approval, decide, promote, roll back - and
    the active-version pointer, read only at an explicit load. Operations come in any order. */
module SelfImprovement {
  import opened CanonicalJson
  import opened Decimal
  import opened NoRegression
  import opened Records

  datatype Status =
    | Draft | PendingEvaluation | EvaluationPassed | EvaluationFailed
    | AwaitingApproval | Approved | Rejected | Promoted | RolledBack

  datatype Proposal = Proposal(
    proposalId: Id, tenantId: string, taskId: Option<Id>, status: Status, patch: string,
    patchHash: Option<string>, approvalId: Option<Id>)

  datatype Evaluation = Evaluation(evaluationId: Id, proposalId: Id, tenantId: string, passed: bool, pending: bool)

  datatype Promotion = Promotion(
    promotionId: Id, proposalId: Id, tenantId: string, approvalId: Id, evaluationId: Id,
    promotedVersion: string, previousVersion: Option<string>, patchHash: string,
    rolledBack: bool, rollbackReason: Option<string>)

  /** What happened to proposals, for specification only. */
  datatype Event =
    | Reflection(proposalId: Id, patch: string)
    | Approval(proposalId: Id)
    | Promoting(proposalId: Id, promotionId: Id, patch: string)

  /** The stored records, and the version the process read when it last loaded one. */
  datatype State = State(
    proposals: map<Id, Proposal>,
    evaluations: seq<Evaluation>,
    promotions: map<Id, Promotion>,
    approvals: map<Id, ApprovalRecord>,
    pointer: map<string, string>,
    loaded: Option<string>,
    clock: nat)

  const NOTHING := State(map[], [], map[], map[], map[], None, 0)

  /** What an evaluation runs: the checks it was given, or the held-out scores against the baseline's. */
  datatype Checks = Deterministic(results: seq<bool>) | HeldOut(candidate: Scores, baseline: Scores, threshold: real)

  datatype Op =
    | Reflect(tenantId: string, taskId: Option<Id>, patch: string)
    | Evaluate(proposalId: Id, canRun: bool, checks: Checks)
    | Open(proposalId: Id)
    | Decide(proposalId: Id, decision: Decision, approverId: string, channel: string)
    | Promote(proposalId: Id, version: string, previous: Option<string>)
    | Rollback(promotionId: Id, reason: string)
    | Load(tenantId: string)
    // Other actors: a decision made on the ledger alone, and a stored patch that is edited.
    | DecideRecord(recordId: Id, decision: Decision, approverId: string, channel: string)
    | EditPatch(proposalId: Id, patch: string)

  datatype Error = UnknownId | Refused

  // ---- The operations on records -------------------------------------------------------------

  function PatchPayload(proposalId: Id, patch: string): Json {
    Obj(Field("proposal_id", Str(NatText(proposalId)), Field("proposed_patch", Str(patch), NoFields)))
  }

  function PatchHash(hash: string -> string, proposalId: Id, patch: string): string {
    PayloadHash(hash, PatchPayload(proposalId, patch))
  }

  predicate Passes(p: Proposal, checks: Checks) {
    && !Blank(p.patch)
    && match checks
       case Deterministic(results) => forall i :: 0 <= i < |results| ==> results[i]
       case HeldOut(candidate, baseline, threshold) => baseline == [] || Accepts(candidate, baseline, threshold)
  }

  /** What earns a pass: a patch with some character that is no space, and checks that are all true, or scores
      whose mean holds and of which none dropped - there is nothing to hold against an empty baseline. */
  ghost predicate Earns(patch: string, checks: Checks) {
    && (exists i :: 0 <= i < |patch| && !IsSpace(patch[i]))
    && match checks
       case Deterministic(results) => forall i :: 0 <= i < |results| ==> results[i]
       case HeldOut(candidate, baseline, threshold) =>
         baseline == [] || (Mean(candidate) >= Mean(baseline) && NoneDropped(candidate, baseline, threshold))
  }

  /** Scores are dictionaries: no item twice. */
  predicate Dictionaries(checks: Checks) {
    checks.HeldOut? ==> Keyed(checks.candidate) && Keyed(checks.baseline)
  }

  lemma PassesIff(p: Proposal, checks: Checks)
    requires Dictionaries(checks)
    ensures Passes(p, checks) <==> Earns(p.patch, checks)
  {
    hide IsSpace;
    hide Mean;
    hide NoneDropped;
    hide Accepts;
    if checks.HeldOut? && checks.baseline != [] {
      AcceptsIff(checks.candidate, checks.baseline, checks.threshold);
    }
  }

  /** The first evaluation of the proposal and tenant that passed and is not pending. */
  function FirstPassing(evaluations: seq<Evaluation>, p: Id, tenantId: string): Option<Evaluation> {
    if evaluations == [] then None
    else
      var e := evaluations[0];
      if e.proposalId == p && e.tenantId == tenantId && e.passed && !e.pending then Some(e)
      else FirstPassing(evaluations[1..], p, tenantId)
  }

  /** Whether promotion goes through: approved status, a passing evaluation, and an approved record whose
      hash is that of the proposal's current patch. */
  predicate Promotable(hash: string -> string, s: State, p: Id) {
    && p in s.proposals && s.proposals[p].status == Approved
    && FirstPassing(s.evaluations, p, s.proposals[p].tenantId).Some?
    && s.proposals[p].approvalId.Some? && s.proposals[p].approvalId.value in s.approvals
    && var record := s.approvals[s.proposals[p].approvalId.value];
       record.decision == Approve && record.payloadHash == PatchHash(hash, p, s.proposals[p].patch)
  }

  function WithStatus(s: State, p: Id, status: Status): State
    requires p in s.proposals
  {
    s.(proposals := s.proposals[p := s.proposals[p].(status := status)])
  }

  function DecidedRecord(record: ApprovalRecord, decision: Decision, approverId: string, channel: string,
                         now: nat): ApprovalRecord
  {
    record.(decision := decision, approverId := Some(approverId), channel := Some(channel), decidedAt := Some(now))
  }

  function OpenedRecord(p: Proposal, now: nat): ApprovalRecord {
    ApprovalRecord(now, now, if p.taskId.Some? then p.taskId.value else p.proposalId, p.tenantId, None, Pending,
                   None, None, if p.patchHash.Some? then p.patchHash.value else "", None, now)
  }

  /** One operation, and the error it raises; a raising operation changes nothing. */
  function Apply(hash: string -> string, s: State, op: Op): (State, Option<Error>) {
    var now := s.clock;
    var later := s.(clock := now + 1);
    match op
    case Reflect(tenantId, taskId, patch) =>
      var proposal := Proposal(now, tenantId, taskId, Draft, patch, Some(PatchHash(hash, now, patch)), None);
      (later.(proposals := s.proposals[now := proposal]), None)
    case Evaluate(p, canRun, checks) =>
      if p !in s.proposals then (later, Some(UnknownId))
      else
        var passed := canRun && Passes(s.proposals[p], checks);
        var result := Evaluation(now, p, s.proposals[p].tenantId, passed, !canRun);
        (WithStatus(later.(evaluations := s.evaluations + [result]), p,
                    if !canRun then PendingEvaluation else if passed then EvaluationPassed else EvaluationFailed),
         None)
    case Open(p) =>
      if p !in s.proposals then (later, Some(UnknownId))
      else if s.proposals[p].status != EvaluationPassed then (later, Some(Refused))
      else
        var waiting := s.proposals[p].(status := AwaitingApproval, approvalId := Some(now));
        (later.(approvals := s.approvals[now := OpenedRecord(s.proposals[p], now)],
                proposals := s.proposals[p := waiting]), None)
    case Decide(p, decision, approverId, channel) =>
      if p !in s.proposals then (later, Some(UnknownId))
      else if s.proposals[p].approvalId.None? then (later, Some(Refused))
      else if s.proposals[p].approvalId.value !in s.approvals then (later, Some(UnknownId))
      else
        var r := s.proposals[p].approvalId.value;
        var record := DecidedRecord(s.approvals[r], decision, approverId, channel, now);
        var decided := later.(approvals := s.approvals[r := record]);
        (if decision == Approve then WithStatus(decided, p, Approved)
         else if decision == Reject then WithStatus(decided, p, Rejected)
         else decided, None)
    case Promote(p, version, previous) =>
      if p !in s.proposals then (later, Some(UnknownId))
      else if !Promotable(hash, s, p) then (later, Some(Refused))
      else
        var proposal := s.proposals[p];
        var passing := FirstPassing(s.evaluations, p, proposal.tenantId).value;
        var promotion := Promotion(now, p, proposal.tenantId, proposal.approvalId.value, passing.evaluationId,
                                   version, previous,
                                   if proposal.patchHash.Some? then proposal.patchHash.value else "", false, None);
        (WithStatus(later.(promotions := s.promotions[now := promotion],
                           pointer := s.pointer[proposal.tenantId := version]), p, Promoted), None)
    case Rollback(m, reason) =>
      if m !in s.promotions then (later, Some(UnknownId))
      else
        var promotion := s.promotions[m];
        var flagged := promotion.(rolledBack := true, rollbackReason := Some(reason));
        var back := later.(promotions := s.promotions[m := flagged],
                           pointer := if promotion.previousVersion.Some?
                                      then s.pointer[promotion.tenantId := promotion.previousVersion.value]
                                      else s.pointer);
        (if promotion.proposalId in s.proposals then WithStatus(back, promotion.proposalId, RolledBack) else back, None)
    case Load(tenantId) => (later.(loaded := Current(s, tenantId)), None)
    case DecideRecord(r, decision, approverId, channel) =>
      if r !in s.approvals then (later, Some(UnknownId))
      else
        var record := DecidedRecord(s.approvals[r], decision, approverId, channel, now);
        (later.(approvals := s.approvals[r := record]), None)
    case EditPatch(p, patch) =>
      if p !in s.proposals then (later, Some(UnknownId))
      else (later.(proposals := s.proposals[p := s.proposals[p].(patch := patch)]), None)
  }

  function Current(s: State, tenantId: string): Option<string> {
    if tenantId in s.pointer then Some(s.pointer[tenantId]) else None
  }

  function Next(hash: string -> string, s: State, op: Op): State {
    Apply(hash, s, op).0
  }

  function Raises(hash: string -> string, s: State, op: Op): bool {
    Apply(hash, s, op).1.Some?
  }

  function Run(hash: string -> string, s: State, ops: seq<Op>): State {
    if ops == [] then s else Next(hash, Run(hash, s, ops[..|ops| - 1]), ops[|ops| - 1])
  }

  /** The event an operation leaves in the history. */
  function Told(hash: string -> string, s: State, op: Op): seq<Event> {
    if Raises(hash, s, op) then []
    else
      match op
      case Reflect(_, _, patch) => [Reflection(s.clock, patch)]
      case Decide(p, decision, _, _) => if decision == Approve then [Approval(p)] else []
      case Promote(p, _, _) => if p in s.proposals then [Promoting(p, s.clock, s.proposals[p].patch)] else []
      case _ => []
  }

  function History(hash: string -> string, s: State, ops: seq<Op>): seq<Event> {
    if ops == [] then []
    else
      var before := ops[..|ops| - 1];
      History(hash, s, before) + Told(hash, Run(hash, s, before), ops[|ops| - 1])
  }

  lemma RunSnoc(hash: string -> string, s: State, ops: seq<Op>, op: Op)
    ensures Run(hash, s, ops + [op]) == Next(hash, Run(hash, s, ops), op)
    ensures History(hash, s, ops + [op]) == History(hash, s, ops) + Told(hash, Run(hash, s, ops), op)
  {
    assert (ops + [op])[..|ops|] == ops;
    hide Next;
    hide Told;
  }

  // ---- Reading the history -------------------------------------------------------------------

  /** The patch each proposal was reflected with. */
  function Reflected(history: seq<Event>): map<Id, string> {
    if history == [] then map[]
    else
      var e, before := history[|history| - 1], Reflected(history[..|history| - 1]);
      if e.Reflection? then before[e.proposalId := e.patch] else before
  }

  predicate ReflectedWith(history: seq<Event>, p: Id, patch: string) {
    p in Reflected(history) && Reflected(history)[p] == patch
  }

  /** An approval of p has come since its last promotion. */
  predicate Fresh(history: seq<Event>, p: Id) {
    history != []
    && var e := history[|history| - 1];
       e == Approval(p) || (!(e.Promoting? && e.proposalId == p) && Fresh(history[..|history| - 1], p))
  }

  /** Every promotion came on a fresh approval. */
  predicate Proper(history: seq<Event>) {
    history == []
    || var e, before := history[|history| - 1], history[..|history| - 1];
       Proper(before) && (e.Promoting? ==> Fresh(before, e.proposalId))
  }

  function Promotions(history: seq<Event>, p: Id): nat {
    if history == [] then 0
    else
      var e := history[|history| - 1];
      Promotions(history[..|history| - 1], p) + (if e.Promoting? && e.proposalId == p then 1 else 0)
  }

  function Approvals(history: seq<Event>, p: Id): nat {
    if history == [] then 0
    else Approvals(history[..|history| - 1], p) + (if history[|history| - 1] == Approval(p) then 1 else 0)
  }

  lemma Appended(history: seq<Event>, e: Event)
    ensures (history + [e])[..|history|] == history
    ensures Reflected(history + [e])
         == if e.Reflection? then Reflected(history)[e.proposalId := e.patch] else Reflected(history)
    ensures forall p :: Fresh(history + [e], p)
                   <==> e == Approval(p) || (!(e.Promoting? && e.proposalId == p) && Fresh(history, p))
    ensures Proper(history + [e]) <==> Proper(history) && (e.Promoting? ==> Fresh(history, e.proposalId))
  {
    assert (history + [e])[..|history|] == history;
  }

  lemma {:induction false} ProperCounts(history: seq<Event>, p: Id)
    requires Proper(history)
    ensures Promotions(history, p) + (if Fresh(history, p) then 1 else 0) <= Approvals(history, p)
  {
    if history != [] {
      ProperCounts(history[..|history| - 1], p);
    }
  }

  lemma {:induction false} FreshSince(history: seq<Event>, p: Id, i: nat)
    requires Fresh(history, p) && i < |history| && history[i].Promoting? && history[i].proposalId == p
    ensures exists k :: i < k < |history| && history[k] == Approval(p)
  {
    var before := history[..|history| - 1];
    if history[|history| - 1] != Approval(p) {
      assert i < |before| && before[i] == history[i];
      FreshSince(before, p, i);
      var k :| i < k < |before| && before[k] == Approval(p);
      assert history[k] == Approval(p);
    }
  }

  lemma {:induction false} ProperPrefix(history: seq<Event>, n: nat)
    requires Proper(history) && n <= |history|
    ensures Proper(history[..n])
  {
    if n < |history| {
      ProperPrefix(history[..|history| - 1], n);
      assert history[..|history| - 1][..n] == history[..n];
    } else {
      assert history[..n] == history;
    }
  }

  // ---- The invariant -------------------------------------------------------------------------

  predicate HasPassing(s: State, m: Promotion) {
    exists i :: 0 <= i < |s.evaluations| && PassingFor(s.evaluations[i], m)
  }

  predicate PassingFor(e: Evaluation, m: Promotion) {
    && e.evaluationId == m.evaluationId && e.proposalId == m.proposalId && e.tenantId == m.tenantId
    && e.passed && !e.pending
  }

  /** A proposal row: its hash is that of the reflected patch, and so is its approval record's. */
  predicate RowOk(hash: string -> string, s: State, reflected: map<Id, string>, p: Id)
    requires p in s.proposals
  {
    && p < s.clock && s.proposals[p].proposalId == p && p in reflected
    && s.proposals[p].patchHash == Some(PatchHash(hash, p, reflected[p]))
    && (s.proposals[p].approvalId.Some? ==>
          && s.proposals[p].approvalId.value in s.approvals
          && Some(s.approvals[s.proposals[p].approvalId.value].payloadHash) == s.proposals[p].patchHash)
  }

  /** A promotion that happened: its record, a passing evaluation of the proposal's own, and a patch that
      hashes as the reflected one. */
  predicate EventOk(hash: string -> string, s: State, reflected: map<Id, string>, e: Event)
    requires e.Promoting?
  {
    && e.promotionId in s.promotions && s.promotions[e.promotionId].proposalId == e.proposalId
    && HasPassing(s, s.promotions[e.promotionId])
    && e.proposalId in reflected
    && PatchHash(hash, e.proposalId, e.patch) == PatchHash(hash, e.proposalId, reflected[e.proposalId])
  }

  ghost predicate Rows(hash: string -> string, s: State, history: seq<Event>) {
    && (forall p :: p in s.proposals ==> RowOk(hash, s, Reflected(history), p))
    && (forall p :: p in Reflected(history) ==> p < s.clock)
    && (forall r :: r in s.approvals ==> r < s.clock)
    && (forall m :: m in s.promotions ==> m < s.clock)
  }

  ghost predicate Inv(hash: string -> string, s: State, history: seq<Event>) {
    && Rows(hash, s, history) && Proper(history)
    && (forall p :: p in s.proposals && s.proposals[p].status == Approved ==> Fresh(history, p))
    && (forall j :: 0 <= j < |history| && history[j].Promoting? ==> EventOk(hash, s, Reflected(history), history[j]))
  }

  lemma {:induction false} FirstPassingIs(evaluations: seq<Evaluation>, p: Id, tenantId: string)
    requires FirstPassing(evaluations, p, tenantId).Some?
    ensures var e := FirstPassing(evaluations, p, tenantId).value;
            e in evaluations && e.proposalId == p && e.tenantId == tenantId && e.passed && !e.pending
  {
    if !(evaluations[0].proposalId == p && evaluations[0].tenantId == tenantId
         && evaluations[0].passed && !evaluations[0].pending) {
      FirstPassingIs(evaluations[1..], p, tenantId);
    }
  }

  /** From s to s' no row gained, lost or changed its hash or its link. */
  ghost predicate Similar(s: State, s': State) {
    && s'.clock == s.clock + 1
    && (forall p :: p in s'.proposals <==> p in s.proposals)
    && (forall p :: p in s.proposals ==>
          && s'.proposals[p].proposalId == s.proposals[p].proposalId
          && s'.proposals[p].patchHash == s.proposals[p].patchHash
          && s'.proposals[p].approvalId == s.proposals[p].approvalId)
    && (forall r :: r in s'.approvals <==> r in s.approvals)
    && (forall r :: r in s.approvals ==> s'.approvals[r].payloadHash == s.approvals[r].payloadHash)
    && (forall m :: m in s'.promotions ==> m in s.promotions || m == s.clock)
  }

  lemma RecordDecisionSimilar(hash: string -> string, s: State, op: Op)
    requires op.DecideRecord?
    ensures Similar(s, Next(hash, s, op))
  {
  }

  lemma StatusSimilar(s: State, s': State, p: Id, status: Status)
    requires Similar(s, s') && p in s'.proposals
    ensures Similar(s, WithStatus(s', p, status))
  {
  }

  /** A decision on a proposal is one on its record, and the status that follows. */
  lemma DecisionIs(hash: string -> string, s: State, op: Op)
    requires op.Decide? && !Raises(hash, s, op)
    ensures op.proposalId in s.proposals && s.proposals[op.proposalId].approvalId.Some?
    ensures var p := op.proposalId;
            var record := DecideRecord(s.proposals[p].approvalId.value, op.decision, op.approverId, op.channel);
            var decided := Next(hash, s, record);
            && p in decided.proposals
            && Next(hash, s, op) == (if op.decision == Approve then WithStatus(decided, p, Approved)
                                     else if op.decision == Reject then WithStatus(decided, p, Rejected)
                                     else decided)
  {
    hide WithStatus;
    hide DecidedRecord;
  }

  lemma RaisedSimilar(hash: string -> string, s: State, op: Op)
    requires op.Decide? && Raises(hash, s, op)
    ensures Similar(s, Next(hash, s, op))
  {
  }

  lemma DecisionSimilar(hash: string -> string, s: State, op: Op)
    requires op.Decide?
    ensures Similar(s, Next(hash, s, op))
  {
    hide Next;
    hide Similar;
    hide WithStatus;
    hide Raises;
    var p := op.proposalId;
    if Raises(hash, s, op) {
      RaisedSimilar(hash, s, op);
    } else {
      DecisionIs(hash, s, op);
      var record := DecideRecord(s.proposals[p].approvalId.value, op.decision, op.approverId, op.channel);
      RecordDecisionSimilar(hash, s, record);
      StatusSimilar(s, Next(hash, s, record), p, if op.decision == Approve then Approved else Rejected);
    }
  }

  lemma VersionsSimilar(hash: string -> string, s: State, op: Op)
    requires op.Promote? || op.Rollback?
    ensures Similar(s, Next(hash, s, op))
  {
    hide FirstPassing;
    hide Promotable;
  }

  lemma MostOpsSimilar(hash: string -> string, s: State, op: Op)
    requires !op.Reflect? && !op.Open?
    ensures Similar(s, Next(hash, s, op))
  {
    if op.Decide? {
      DecisionSimilar(hash, s, op);
    } else if op.DecideRecord? {
      RecordDecisionSimilar(hash, s, op);
    } else if op.Promote? || op.Rollback? {
      VersionsSimilar(hash, s, op);
    } else {
      OthersSimilar(hash, s, op);
    }
    hide Next;
    hide Similar;
  }

  lemma OthersSimilar(hash: string -> string, s: State, op: Op)
    requires op.Evaluate? || op.Load? || op.EditPatch?
    ensures Similar(s, Next(hash, s, op))
  {
    hide Passes;
  }

  lemma SimilarRows(hash: string -> string, s: State, s': State, history: seq<Event>, history': seq<Event>)
    requires Rows(hash, s, history) && Similar(s, s') && Reflected(history') == Reflected(history)
    ensures Rows(hash, s', history')
  {
    hide PatchHash;
    hide Reflected;
    forall p | p in s'.proposals ensures RowOk(hash, s', Reflected(history'), p) {
      assert RowOk(hash, s, Reflected(history), p);
    }
  }

  lemma ReflectRows(hash: string -> string, s: State, op: Op, history: seq<Event>)
    requires Rows(hash, s, history) && op.Reflect?
    ensures Rows(hash, Next(hash, s, op), history + Told(hash, s, op))
  {
    hide PatchHash;
    Appended(history, Reflection(s.clock, op.patch));
    var s', reflected := Next(hash, s, op), Reflected(history);
    var h' := history + Told(hash, s, op);
    hide Reflected;
    forall p | p in s'.proposals ensures RowOk(hash, s', Reflected(h'), p) {
      assert p != s.clock ==> RowOk(hash, s, reflected, p);
    }
  }

  lemma OpenRows(hash: string -> string, s: State, op: Op, history: seq<Event>)
    requires Rows(hash, s, history) && op.Open?
    ensures Rows(hash, Next(hash, s, op), history)
  {
    hide PatchHash;
    hide Reflected;
    var s', reflected := Next(hash, s, op), Reflected(history);
    forall p | p in s'.proposals ensures RowOk(hash, s', reflected, p) {
      assert RowOk(hash, s, reflected, p);
    }
  }

  lemma ToldReflects(hash: string -> string, s: State, op: Op, history: seq<Event>)
    ensures !op.Reflect? ==> Reflected(history + Told(hash, s, op)) == Reflected(history)
    ensures op.Open? ==> history + Told(hash, s, op) == history
  {
    var told := Told(hash, s, op);
    if told != [] {
      Appended(history, told[0]);
    } else {
      assert history + told == history;
    }
    hide Apply;
    hide Reflected;
  }

  lemma RowsKept(hash: string -> string, s: State, op: Op, history: seq<Event>)
    requires Rows(hash, s, history)
    ensures Rows(hash, Next(hash, s, op), history + Told(hash, s, op))
  {
    ToldReflects(hash, s, op, history);
    if op.Reflect? {
      ReflectRows(hash, s, op, history);
    } else if op.Open? {
      OpenRows(hash, s, op, history);
    } else {
      MostOpsSimilar(hash, s, op);
      SimilarRows(hash, s, Next(hash, s, op), history, history + Told(hash, s, op));
    }
    hide Next;
    hide Told;
    hide Rows;
  }

  /** Evaluations are only added, and a promotion's own facts never change. */
  lemma PromotionStays(hash: string -> string, s: State, op: Op, m: Id)
    requires m in s.promotions && m < s.clock
    ensures var s' := Next(hash, s, op);
            && s.evaluations <= s'.evaluations && m in s'.promotions
            && s'.promotions[m] == s.promotions[m].(rolledBack := s'.promotions[m].rolledBack,
                                                    rollbackReason := s'.promotions[m].rollbackReason)
  {
    hide PatchHash;
    hide FirstPassing;
    hide Passes;
    hide Promotable;
  }

  lemma EventStays(hash: string -> string, s: State, op: Op, history: seq<Event>, e: Event)
    requires Rows(hash, s, history) && e.Promoting? && EventOk(hash, s, Reflected(history), e)
    ensures EventOk(hash, Next(hash, s, op), Reflected(history + Told(hash, s, op)), e)
  {
    PromotionStays(hash, s, op, e.promotionId);
    ReflectionStays(hash, s, op, history, e.proposalId);
    hide Next;
    hide Told;
    hide PatchHash;
    hide Reflected;
    var s' := Next(hash, s, op);
    var i :| 0 <= i < |s.evaluations| && PassingFor(s.evaluations[i], s.promotions[e.promotionId]);
    assert s'.evaluations[i] == s.evaluations[i];
    assert PassingFor(s'.evaluations[i], s'.promotions[e.promotionId]);
  }

  lemma ReflectionStays(hash: string -> string, s: State, op: Op, history: seq<Event>, p: Id)
    requires Rows(hash, s, history) && p in Reflected(history)
    ensures p in Reflected(history + Told(hash, s, op))
    ensures Reflected(history + Told(hash, s, op))[p] == Reflected(history)[p]
  {
    ToldReflects(hash, s, op, history);
    if op.Reflect? {
      Appended(history, Reflection(s.clock, op.patch));
    }
    hide Reflected;
  }

  lemma NewEvent(hash: string -> string, s: State, op: Op, history: seq<Event>)
    requires Rows(hash, s, history) && op.Promote? && !Raises(hash, s, op)
    ensures var e := Told(hash, s, op)[0]; EventOk(hash, Next(hash, s, op), Reflected(history + [e]), e)
  {
    hide PatchHash;
    var p := op.proposalId;
    var e := Told(hash, s, op)[0];
    Appended(history, e);
    assert RowOk(hash, s, Reflected(history), p);
    FirstPassingIs(s.evaluations, p, s.proposals[p].tenantId);
    var passing := FirstPassing(s.evaluations, p, s.proposals[p].tenantId).value;
    var i :| 0 <= i < |s.evaluations| && s.evaluations[i] == passing;
    var s' := Next(hash, s, op);
    assert PassingFor(s'.evaluations[i], s'.promotions[e.promotionId]);
  }

  /** What an operation does to approved statuses, by the event it leaves. */
  lemma StatusMoves(hash: string -> string, s: State, op: Op)
    ensures var s', told := Next(hash, s, op), Told(hash, s, op);
            && |told| <= 1
            && (forall p :: p in s'.proposals && s'.proposals[p].status == Approved ==>
                  || (told != [] && told[0] == Approval(p))
                  || (p in s.proposals && s.proposals[p].status == Approved
                      && !(told != [] && told[0].Promoting? && told[0].proposalId == p)))
            && (told != [] && told[0].Promoting? ==>
                  told[0].proposalId in s.proposals && s.proposals[told[0].proposalId].status == Approved)
  {
    hide PatchHash;
    hide FirstPassing;
    hide Passes;
  }

  /** Approved status means a fresh approval, and promotion uses it up. */
  lemma StatusKept(hash: string -> string, s: State, op: Op, history: seq<Event>)
    requires Proper(history)
    requires forall p :: p in s.proposals && s.proposals[p].status == Approved ==> Fresh(history, p)
    ensures var s', h' := Next(hash, s, op), history + Told(hash, s, op);
            && Proper(h') && forall p :: p in s'.proposals && s'.proposals[p].status == Approved ==> Fresh(h', p)
  {
    StatusMoves(hash, s, op);
    hide Next;
    hide Told;
    hide Fresh;
    hide Proper;
    var told := Told(hash, s, op);
    if told != [] {
      Appended(history, told[0]);
      assert told == [told[0]];
    } else {
      assert history + told == history;
    }
  }

  lemma InvKept(hash: string -> string, s: State, op: Op, history: seq<Event>)
    requires Inv(hash, s, history)
    ensures Inv(hash, Next(hash, s, op), history + Told(hash, s, op))
  {
    RowsKept(hash, s, op, history);
    StatusKept(hash, s, op, history);
    var told, h' := Told(hash, s, op), history + Told(hash, s, op);
    forall j | 0 <= j < |h'| && h'[j].Promoting? ensures EventOk(hash, Next(hash, s, op), Reflected(h'), h'[j]) {
      if j < |history| {
        EventStays(hash, s, op, history, history[j]);
      } else {
        PromotingTold(hash, s, op);
        NewEvent(hash, s, op, history);
      }
    }
    hide Next;
    hide Told;
    hide Rows;
    hide EventOk;
  }

  lemma PromotingTold(hash: string -> string, s: State, op: Op)
    ensures |Told(hash, s, op)| <= 1
    ensures |Told(hash, s, op)| == 1 && Told(hash, s, op)[0].Promoting? ==> op.Promote? && !Raises(hash, s, op)
  {
  }

  lemma {:induction false} RunKeeps(hash: string -> string, ops: seq<Op>)
    ensures Inv(hash, Run(hash, NOTHING, ops), History(hash, NOTHING, ops))
  {
    if ops != [] {
      var before := ops[..|ops| - 1];
      RunKeeps(hash, before);
      InvKept(hash, Run(hash, NOTHING, before), ops[|ops| - 1], History(hash, NOTHING, before));
    }
    hide Next;
    hide Told;
  }

  // ---- Promotion history ---------------------------------------------------------------------

  /** In whatever order the operations come, a proposal is promoted at most as often as it is approved. */
  lemma PromotionsWithinApprovals(hash: string -> string, ops: seq<Op>, p: Id)
    ensures Promotions(History(hash, NOTHING, ops), p) <= Approvals(History(hash, NOTHING, ops), p)
  {
    RunKeeps(hash, ops);
    ProperCounts(History(hash, NOTHING, ops), p);
  }

  /** An approval separates any two promotions of one proposal. */
  lemma ApprovalBetweenPromotions(hash: string -> string, ops: seq<Op>, i: nat, j: nat)
    requires i < j < |History(hash, NOTHING, ops)|
    requires History(hash, NOTHING, ops)[i].Promoting? && History(hash, NOTHING, ops)[j].Promoting?
    requires History(hash, NOTHING, ops)[i].proposalId == History(hash, NOTHING, ops)[j].proposalId
    ensures exists k :: i < k < j
                     && History(hash, NOTHING, ops)[k] == Approval(History(hash, NOTHING, ops)[j].proposalId)
  {
    hide Run;
    hide History;
    hide Rows;
    hide EventOk;
    RunKeeps(hash, ops);
    ApprovalBetween(History(hash, NOTHING, ops), i, j);
  }

  lemma ApprovalBetween(h: seq<Event>, i: nat, j: nat)
    requires Proper(h) && i < j < |h| && h[i].Promoting? && h[j].Promoting? && h[i].proposalId == h[j].proposalId
    ensures exists k :: i < k < j && h[k] == Approval(h[j].proposalId)
  {
    ProperPrefix(h, j + 1);
    assert h[..j + 1][..j] == h[..j];
    FreshSince(h[..j], h[j].proposalId, i);
    var k :| i < k < j && h[..j][k] == Approval(h[j].proposalId);
    assert h[k] == Approval(h[j].proposalId);
  }

  lemma PayloadIsObject(p: Id, patch: string)
    ensures WellFormed(PatchPayload(p, patch))
    ensures var fields := PatchPayload(p, patch).fields;
            "proposed_patch" in Keys(fields) && Get(fields, "proposed_patch") == Str(patch)
  {
    var last := Field("proposed_patch", Str(patch), NoFields);
    assert Keys(last) == {"proposed_patch"} && WellFormedFields(last);
    assert |"proposal_id"| != |"proposed_patch"|;
    assert WellFormed(Str(NatText(p)));
  }

  ghost predicate Collisionless(hash: string -> string) {
    forall x, y :: hash(x) == hash(y) ==> x == y
  }

  lemma PayloadUnique(hash: string -> string, p: Id, a: string, b: string)
    requires Collisionless(hash)
    requires PatchHash(hash, p, a) == PatchHash(hash, p, b)
    ensures a == b
  {
    var x, y := PatchPayload(p, a), PatchPayload(p, b);
    PayloadIsObject(p, a);
    PayloadIsObject(p, b);
    PayloadHashBinds(hash, x, y);
    assert Same(x, y) && SameFields(x.fields, y.fields) && SameFields(x.fields.rest, y.fields);
    assert Same(Str(a), Get(y.fields, "proposed_patch"));
  }

  /** Every promotion had a passing, non-pending evaluation of the same proposal and tenant and, when the
      hash is collision-free, promoted exactly the patch the proposal was reflected with - also when the
      stored patch was edited or decisions were made on the ledger alone. */
  lemma PromotionsAreEarned(hash: string -> string, ops: seq<Op>, s: State, h: seq<Event>, j: nat)
    requires s == Run(hash, NOTHING, ops) && h == History(hash, NOTHING, ops) && j < |h| && h[j].Promoting?
    requires Collisionless(hash)
    ensures h[j].promotionId in s.promotions && s.promotions[h[j].promotionId].proposalId == h[j].proposalId
    ensures HasPassing(s, s.promotions[h[j].promotionId])
    ensures h[j].proposalId in Reflected(h) && h[j].patch == Reflected(h)[h[j].proposalId]
  {
    RunKeeps(hash, ops);
    assert EventOk(hash, s, Reflected(h), h[j]);
    PayloadUnique(hash, h[j].proposalId, h[j].patch, Reflected(h)[h[j].proposalId]);
  }

  // ---- What evaluations rest on --------------------------------------------------------------

  predicate AllDictionaries(ops: seq<Op>) {
    forall i :: 0 <= i < |ops| && ops[i].Evaluate? ==> Dictionaries(ops[i].checks)
  }

  /** The k-th operation made this evaluation, ran its checks, and the patch of the time earned the pass. */
  ghost predicate EarnedBy(hash: string -> string, ops: seq<Op>, k: nat, e: Evaluation) {
    && k < |ops| && ops[k].Evaluate? && ops[k].proposalId == e.proposalId && ops[k].canRun
    && var s := Run(hash, NOTHING, ops[..k]);
       && s.clock == e.evaluationId && e.proposalId in s.proposals
       && Earns(s.proposals[e.proposalId].patch, ops[k].checks)
  }

  lemma NewEvaluation(hash: string -> string, s: State, op: Op)
    ensures var s' := Next(hash, s, op);
            || s'.evaluations == s.evaluations
            || (op.Evaluate? && op.proposalId in s.proposals
                && s'.evaluations == s.evaluations + [Evaluation(s.clock, op.proposalId,
                     s.proposals[op.proposalId].tenantId,
                     op.canRun && Passes(s.proposals[op.proposalId], op.checks), !op.canRun)])
  {
    hide PatchHash;
    hide FirstPassing;
    hide Passes;
    hide Promotable;
  }

  /** Every evaluation that passed was earned when it was made. */
  lemma {:induction false} EvaluationsAreEarned(hash: string -> string, ops: seq<Op>, e: Evaluation)
    requires AllDictionaries(ops) && e in Run(hash, NOTHING, ops).evaluations && e.passed
    ensures exists k: nat :: EarnedBy(hash, ops, k, e)
  {
    hide Next;
    hide Passes;
    hide Earns;
    var n := |ops| - 1;
    var before, op := ops[..n], ops[n];
    var s := Run(hash, NOTHING, before);
    NewEvaluation(hash, s, op);
    if e in s.evaluations {
      EvaluationsAreEarned(hash, before, e);
      var k: nat :| EarnedBy(hash, before, k, e);
      assert before[..k] == ops[..k] && before[k] == ops[k];
      assert EarnedBy(hash, ops, k, e);
    } else {
      PassesIff(s.proposals[op.proposalId], op.checks);
      assert EarnedBy(hash, ops, n, e);
    }
  }

  /** Every stored promotion names an evaluation of its proposal whose checks were all true, or whose scores met
      the gate. */
  lemma PromotionsEarned(hash: string -> string, ops: seq<Op>, s: State, m: Id) returns (e: Evaluation)
    requires s == Run(hash, NOTHING, ops) && AllDictionaries(ops) && m in s.promotions
    ensures e in s.evaluations && PassingFor(e, s.promotions[m])
    ensures exists k: nat :: EarnedBy(hash, ops, k, e)
  {
    var h := History(hash, NOTHING, ops);
    RunKeeps(hash, ops);
    RowIsEvent(hash, ops, m);
    hide History;
    hide Run;
    var j :| 0 <= j < |h| && h[j].Promoting? && h[j].promotionId == m;
    assert EventOk(hash, s, Reflected(h), h[j]);
    var i :| 0 <= i < |s.evaluations| && PassingFor(s.evaluations[i], s.promotions[m]);
    e := s.evaluations[i];
    EvaluationsAreEarned(hash, ops, e);
  }

  // ---- The tables a history leaves -----------------------------------------------------------

  lemma PatchHashBinds(hash: string -> string, p: Id, patch: string)
    ensures Collisionless(hash) ==>
              forall other :: PatchHash(hash, p, other) == PatchHash(hash, p, patch) ==> other == patch
  {
    if Collisionless(hash) {
      forall other | PatchHash(hash, p, other) == PatchHash(hash, p, patch) ensures other == patch {
        PayloadUnique(hash, p, other, patch);
      }
    }
  }

  /** Ids not yet drawn are in no table; a proposal carries the hash of its reflected patch, and so does the
      record it names, which exists. */
  lemma RowsFacts(hash: string -> string, ops: seq<Op>, s: State)
    requires s == Run(hash, NOTHING, ops)
    ensures s.clock !in s.proposals && s.clock !in s.approvals && s.clock !in s.promotions
    ensures forall p :: p in s.proposals ==>
              && s.proposals[p].proposalId == p && p in Reflected(History(hash, NOTHING, ops))
              && s.proposals[p].patchHash == Some(PatchHash(hash, p, Reflected(History(hash, NOTHING, ops))[p]))
              && (s.proposals[p].approvalId.Some? ==> s.proposals[p].approvalId.value in s.approvals)
  {
    RunKeeps(hash, ops);
    hide Run;
    hide History;
    hide PatchHash;
    hide Reflected;
    forall p | p in s.proposals ensures RowOk(hash, s, Reflected(History(hash, NOTHING, ops)), p) {
    }
  }

  /** A promotion that goes through uses up an approval given since the last one, and promotes the reflected
      patch. */
  lemma PromotionFacts(hash: string -> string, ops: seq<Op>, s: State, op: Op)
    requires s == Run(hash, NOTHING, ops) && op.Promote? && !Raises(hash, s, op)
    ensures s.clock !in s.promotions
    ensures var h, p := History(hash, NOTHING, ops), op.proposalId;
            var h' := h + Told(hash, s, op);
            && Fresh(h, p) && !Fresh(h', p)
            && Promotions(h', p) == Promotions(h, p) + 1 <= Approvals(h', p)
            && (Collisionless(hash) ==> ReflectedWith(h, p, s.proposals[p].patch))
  {
    var h, p := History(hash, NOTHING, ops), op.proposalId;
    var e := Promoting(p, s.clock, s.proposals[p].patch);
    var h' := h + [e];
    RunKeeps(hash, ops);
    InvKept(hash, s, op, h);
    assert Told(hash, s, op) == [e];
    Appended(h, e);
    ProperCounts(h', p);
    assert h'[..|h'| - 1] == h;
    if Collisionless(hash) {
      NewEvent(hash, s, op, h);
      PayloadUnique(hash, p, s.proposals[p].patch, Reflected(h)[p]);
    }
    hide Run;
    hide History;
    hide Next;
    hide PatchHash;
    hide Rows;
  }

  function PromotionsOf(s: State, p: Id): set<Id> {
    set m | m in s.promotions && s.promotions[m].proposalId == p
  }

  /** Every stored promotion is one the history tells of. */
  lemma {:induction false} RowIsEvent(hash: string -> string, ops: seq<Op>, m: Id)
    requires m in Run(hash, NOTHING, ops).promotions
    ensures exists j :: 0 <= j < |History(hash, NOTHING, ops)| && History(hash, NOTHING, ops)[j].Promoting?
                     && History(hash, NOTHING, ops)[j].promotionId == m
  {
    var before, op := ops[..|ops| - 1], ops[|ops| - 1];
    var s, h := Run(hash, NOTHING, before), History(hash, NOTHING, before);
    var h' := History(hash, NOTHING, ops);
    assert h' == h + Told(hash, s, op);
    if m in s.promotions {
      RowIsEvent(hash, before, m);
      var j :| 0 <= j < |h| && h[j].Promoting? && h[j].promotionId == m;
      assert h'[j] == h[j];
    } else {
      NewRowIsTold(hash, s, op, m);
      assert h'[|h|] == Told(hash, s, op)[0];
    }
    hide Next;
    hide Told;
  }

  lemma NewRowIsTold(hash: string -> string, s: State, op: Op, m: Id)
    requires m !in s.promotions && m in Next(hash, s, op).promotions
    ensures var told := Told(hash, s, op); |told| == 1 && told[0].Promoting? && told[0].promotionId == m
  {
    hide PatchHash;
    hide FirstPassing;
    hide Passes;
    hide Promotable;
  }

  /** The ids of a proposal's promotions in the history. */
  function PromotedIds(history: seq<Event>, p: Id): set<Id> {
    if history == [] then {}
    else
      var e := history[|history| - 1];
      PromotedIds(history[..|history| - 1], p) + (if e.Promoting? && e.proposalId == p then {e.promotionId} else {})
  }

  lemma {:induction false} PromotedCount(history: seq<Event>, p: Id)
    ensures |PromotedIds(history, p)| <= Promotions(history, p)
    ensures forall j :: 0 <= j < |history| && history[j].Promoting? && history[j].proposalId == p ==>
              history[j].promotionId in PromotedIds(history, p)
  {
    if history != [] {
      PromotedCount(history[..|history| - 1], p);
    }
  }

  lemma {:induction false} Smaller<T>(a: set<T>, b: set<T>)
    requires a <= b
    ensures |a| <= |b|
  {
    if a != {} {
      var x :| x in a;
      Smaller(a - {x}, b - {x});
    }
  }

  /** The stored promotions of a proposal never outnumber its approvals. */
  lemma PromotionRowsWithinApprovals(hash: string -> string, ops: seq<Op>, s: State, p: Id)
    requires s == Run(hash, NOTHING, ops)
    ensures |PromotionsOf(s, p)| <= Approvals(History(hash, NOTHING, ops), p)
  {
    var h := History(hash, NOTHING, ops);
    RunKeeps(hash, ops);
    PromotedCount(h, p);
    forall m | m in PromotionsOf(s, p) ensures m in PromotedIds(h, p) {
      RowIsEvent(hash, ops, m);
      var j :| 0 <= j < |h| && h[j].Promoting? && h[j].promotionId == m;
      assert EventOk(hash, s, Reflected(h), h[j]);
    }
    Smaller(PromotionsOf(s, p), PromotedIds(h, p));
    PromotionsWithinApprovals(hash, ops, p);
  }
}
