/** The self-improvement tables under SQL: each upsert updates only the columns of its conflict clause.
    The pipeline never changes any other, so it cannot tell the two repositories apart. */
module PipelineTables {
  import opened Records
  import opened SelfImprovement

  datatype Upsert =
    | PutProposal(proposal: Proposal)
    | PutEvaluation(evaluation: Evaluation)
    | PutPromotion(promotion: Promotion)
    | PutLedger(record: ApprovalRecord)
    | SetActive(tenantId: string, version: string)

  /** In memory an upsert replaces the record. */
  function Overwrite(s: State, u: Upsert): State {
    match u
    case PutProposal(p) => s.(proposals := s.proposals[p.proposalId := p])
    case PutEvaluation(e) => s.(evaluations := s.evaluations + [e])
    case PutPromotion(m) => s.(promotions := s.promotions[m.promotionId := m])
    case PutLedger(r) => s.(approvals := s.approvals[r.recordId := r])
    case SetActive(tenantId, version) => s.(pointer := s.pointer[tenantId := version])
  }

  /** In SQL an upsert of a stored row sets the columns in its conflict clause. */
  function UpdateColumns(s: State, u: Upsert): State {
    match u
    case PutProposal(p) =>
      s.(proposals := s.proposals[p.proposalId :=
           if p.proposalId in s.proposals
           then s.proposals[p.proposalId].(status := p.status, patchHash := p.patchHash, approvalId := p.approvalId)
           else p])
    case PutEvaluation(e) => s.(evaluations := s.evaluations + [e])
    case PutPromotion(m) =>
      s.(promotions := s.promotions[m.promotionId :=
           if m.promotionId in s.promotions
           then s.promotions[m.promotionId].(rolledBack := m.rolledBack, rollbackReason := m.rollbackReason)
           else m])
    case PutLedger(r) =>
      s.(approvals := s.approvals[r.recordId :=
           if r.recordId in s.approvals
           then s.approvals[r.recordId].(decision := r.decision, approverId := r.approverId, channel := r.channel,
                                         decidedAt := r.decidedAt)
           else r])
    case SetActive(tenantId, version) => s.(pointer := s.pointer[tenantId := version])
  }

  /** An upsert of a stored row reads back as the new record exactly when no other column changes. */
  lemma ReadsBackIff(s: State, u: Upsert)
    ensures UpdateColumns(s, u) == Overwrite(s, u)
       <==> match u
            case PutProposal(p) =>
              p.proposalId in s.proposals ==>
                p == s.proposals[p.proposalId].(status := p.status, patchHash := p.patchHash,
                                                approvalId := p.approvalId)
            case PutPromotion(m) =>
              m.promotionId in s.promotions ==>
                m == s.promotions[m.promotionId].(rolledBack := m.rolledBack, rollbackReason := m.rollbackReason)
            case PutLedger(r) =>
              r.recordId in s.approvals ==>
                r == s.approvals[r.recordId].(decision := r.decision, approverId := r.approverId, channel := r.channel,
                                              decidedAt := r.decidedAt)
            case _ => true
  {
    var a, b := UpdateColumns(s, u), Overwrite(s, u);
    match u
    case PutProposal(p) => assert b.proposals[p.proposalId] == p && p.proposalId in a.proposals;
    case PutPromotion(m) => assert b.promotions[m.promotionId] == m && m.promotionId in a.promotions;
    case PutLedger(r) => assert b.approvals[r.recordId] == r && r.recordId in a.approvals;
    case _ =>
  }

  /** The upserts an operation makes, in order, computed from what it reads. */
  function Upserts(hash: string -> string, s: State, op: Op): seq<Upsert> {
    if Raises(hash, s, op) then []
    else
      match op
      case Reflect(tenantId, taskId, patch) =>
        [PutProposal(Proposal(s.clock, tenantId, taskId, Draft, patch, Some(PatchHash(hash, s.clock, patch)), None))]
      case Evaluate(p, canRun, checks) =>
        if p !in s.proposals then []
        else
          var passed := canRun && Passes(s.proposals[p], checks);
          var status := if !canRun then PendingEvaluation else if passed then EvaluationPassed else EvaluationFailed;
          [PutEvaluation(Evaluation(s.clock, p, s.proposals[p].tenantId, passed, !canRun)),
           PutProposal(s.proposals[p].(status := status))]
      case Open(p) =>
        if p !in s.proposals then []
        else [PutLedger(OpenedRecord(s.proposals[p], s.clock)),
              PutProposal(s.proposals[p].(status := Status.AwaitingApproval, approvalId := Some(s.clock)))]
      case Decide(p, decision, approverId, channel) =>
        if p !in s.proposals || s.proposals[p].approvalId.None?
           || s.proposals[p].approvalId.value !in s.approvals then []
        else
          var record := s.approvals[s.proposals[p].approvalId.value];
          [PutLedger(DecidedRecord(record, decision, approverId, channel, s.clock))]
          + (if decision == Approve then [PutProposal(s.proposals[p].(status := Approved))]
             else if decision == Reject then [PutProposal(s.proposals[p].(status := Rejected))]
             else [])
      case Promote(p, version, previous) =>
        if !Promotable(hash, s, p) then []
        else
          var proposal := s.proposals[p];
          var passing := FirstPassing(s.evaluations, p, proposal.tenantId).value;
          [PutPromotion(Promotion(s.clock, p, proposal.tenantId, proposal.approvalId.value, passing.evaluationId,
                                  version, previous,
                                  if proposal.patchHash.Some? then proposal.patchHash.value else "", false, None)),
           SetActive(proposal.tenantId, version),
           PutProposal(proposal.(status := Promoted))]
      case Rollback(m, reason) =>
        if m !in s.promotions then []
        else
          var promotion := s.promotions[m];
          [PutPromotion(promotion.(rolledBack := true, rollbackReason := Some(reason)))]
          + (if promotion.previousVersion.Some?
             then [SetActive(promotion.tenantId, promotion.previousVersion.value)] else [])
          + (if promotion.proposalId in s.proposals
             then [PutProposal(s.proposals[promotion.proposalId].(status := RolledBack))] else [])
      case Load(_) => []
      case DecideRecord(r, decision, approverId, channel) =>
        if r !in s.approvals then []
        else [PutLedger(DecidedRecord(s.approvals[r], decision, approverId, channel, s.clock))]
      case EditPatch(p, patch) =>
        if p !in s.proposals then [] else [PutProposal(s.proposals[p].(patch := patch))]
  }

  function All(s: State, us: seq<Upsert>, sql: bool): State {
    if us == [] then s
    else
      var s' := All(s, us[..|us| - 1], sql);
      if sql then UpdateColumns(s', us[|us| - 1]) else Overwrite(s', us[|us| - 1])
  }

  /** One operation against a repository of either kind. */
  function Step(hash: string -> string, s: State, op: Op, sql: bool): State {
    All(s, Upserts(hash, s, op), sql).(clock := s.clock + 1,
                                       loaded := if op.Load? then Current(s, op.tenantId) else s.loaded)
  }

  function RunSql(hash: string -> string, ops: seq<Op>): State {
    if ops == [] then NOTHING else Step(hash, RunSql(hash, ops[..|ops| - 1]), ops[|ops| - 1], true)
  }

  /** Every record is stored under its own id, and ids were drawn before `now`. */
  ghost predicate KeyedBefore(s: State, now: nat) {
    && (forall p :: p in s.proposals ==> s.proposals[p].proposalId == p && p < now)
    && (forall m :: m in s.promotions ==> s.promotions[m].promotionId == m && m < now)
    && (forall r :: r in s.approvals ==> s.approvals[r].recordId == r && r < now)
  }

  ghost predicate Keyed(s: State) {
    KeyedBefore(s, s.clock)
  }

  // ---- One step ------------------------------------------------------------------------------

  lemma One(s: State, u: Upsert, sql: bool)
    ensures All(s, [u], sql) == if sql then UpdateColumns(s, u) else Overwrite(s, u)
  {
    assert [u][..0] == [];
    assert All(s, [], sql) == s;
  }

  lemma Snoc(s: State, us: seq<Upsert>, u: Upsert, sql: bool)
    ensures All(s, us + [u], sql)
         == if sql then UpdateColumns(All(s, us, sql), u) else Overwrite(All(s, us, sql), u)
  {
    assert (us + [u])[..|us|] == us;
  }

  lemma Two(s: State, u: Upsert, v: Upsert, sql: bool)
    ensures All(s, [u, v], sql)
         == if sql then UpdateColumns(UpdateColumns(s, u), v) else Overwrite(Overwrite(s, u), v)
  {
    One(s, u, sql);
    Snoc(s, [u], v, sql);
    assert [u] + [v] == [u, v];
    hide All;
    hide UpdateColumns;
    hide Overwrite;
  }

  lemma Three(s: State, u: Upsert, v: Upsert, w: Upsert, sql: bool)
    ensures All(s, [u, v, w], sql)
         == if sql then UpdateColumns(UpdateColumns(UpdateColumns(s, u), v), w)
            else Overwrite(Overwrite(Overwrite(s, u), v), w)
  {
    Two(s, u, v, sql);
    Snoc(s, [u, v], w, sql);
    assert [u, v] + [w] == [u, v, w];
    hide All;
    hide UpdateColumns;
    hide Overwrite;
  }

  /** The same upserts, read off one at a time. */
  lemma Unfold(s: State, us: seq<Upsert>, sql: bool)
    ensures us == [] ==> All(s, us, sql) == s
    ensures |us| == 1 ==> All(s, us, sql) == if sql then UpdateColumns(s, us[0]) else Overwrite(s, us[0])
    ensures |us| == 2 ==>
              All(s, us, sql) == if sql then UpdateColumns(UpdateColumns(s, us[0]), us[1])
                                 else Overwrite(Overwrite(s, us[0]), us[1])
    ensures |us| == 3 ==>
              All(s, us, sql) == if sql then UpdateColumns(UpdateColumns(UpdateColumns(s, us[0]), us[1]), us[2])
                                 else Overwrite(Overwrite(Overwrite(s, us[0]), us[1]), us[2])
  {
    if |us| == 1 {
      assert us == [us[0]];
      One(s, us[0], sql);
    } else if |us| == 2 {
      assert us == [us[0], us[1]];
      Two(s, us[0], us[1], sql);
    } else if |us| == 3 {
      assert us == [us[0], us[1], us[2]];
      Three(s, us[0], us[1], us[2], sql);
    }
    hide UpdateColumns;
    hide Overwrite;
  }

  /** Which edits of a stored patch SQL loses: those that change it. */
  predicate EditLost(s: State, op: Op) {
    op.EditPatch? && op.proposalId in s.proposals && s.proposals[op.proposalId].patch != op.patch
  }

  lemma ProposalStep(hash: string -> string, s: State, op: Op, sql: bool)
    requires Keyed(s) && (op.Reflect? || op.Evaluate? || op.Open? || op.Load?)
    ensures Step(hash, s, op, sql) == Next(hash, s, op)
  {
    Unfold(s, Upserts(hash, s, op), sql);
    hide PatchHash;
    hide Passes;
    hide All;
  }

  lemma DecisionStep(hash: string -> string, s: State, op: Op, sql: bool)
    requires Keyed(s) && (op.Decide? || op.DecideRecord?)
    ensures Step(hash, s, op, sql) == Next(hash, s, op)
  {
    Unfold(s, Upserts(hash, s, op), sql);
    hide All;
  }

  lemma PromoteStep(hash: string -> string, s: State, op: Op, sql: bool)
    requires Keyed(s) && op.Promote?
    ensures Step(hash, s, op, sql) == Next(hash, s, op)
  {
    Unfold(s, Upserts(hash, s, op), sql);
    hide Promotable;
    hide FirstPassing;
    hide All;
  }

  lemma RollbackStep(hash: string -> string, s: State, op: Op, sql: bool)
    requires Keyed(s) && op.Rollback?
    ensures Step(hash, s, op, sql) == Next(hash, s, op)
  {
    Unfold(s, Upserts(hash, s, op), sql);
    hide All;
    if op.promotionId in s.promotions {
      var m := s.promotions[op.promotionId];
      if m.previousVersion.Some? && m.proposalId in s.proposals {
        assert |Upserts(hash, s, op)| == 3;
      } else if m.previousVersion.Some? || m.proposalId in s.proposals {
        assert |Upserts(hash, s, op)| == 2;
      } else {
        assert |Upserts(hash, s, op)| == 1;
      }
    }
  }

  lemma EditStep(hash: string -> string, s: State, op: Op, sql: bool)
    requires Keyed(s) && op.EditPatch?
    ensures Step(hash, s, op, sql) == Next(hash, s, op) <==> !sql || !EditLost(s, op)
  {
    Unfold(s, Upserts(hash, s, op), sql);
    hide All;
    if op.proposalId in s.proposals {
      var p := op.proposalId;
      assert Next(hash, s, op).proposals[p].patch == op.patch;
    }
  }

  /** An operation against the overwriting repository is the operation of the history theorems; against the
      SQL one it is too, exactly unless it edits a stored patch, which is in no conflict clause. */
  lemma SqlStepIff(hash: string -> string, s: State, op: Op)
    requires Keyed(s)
    ensures Step(hash, s, op, false) == Next(hash, s, op)
    ensures Step(hash, s, op, true) == Next(hash, s, op) <==> !EditLost(s, op)
  {
    hide Step;
    hide Next;
    match op
    case Promote(_, _, _) =>
      PromoteStep(hash, s, op, false);
      PromoteStep(hash, s, op, true);
    case Rollback(_, _) =>
      RollbackStep(hash, s, op, false);
      RollbackStep(hash, s, op, true);
    case Decide(_, _, _, _) =>
      DecisionStep(hash, s, op, false);
      DecisionStep(hash, s, op, true);
    case DecideRecord(_, _, _, _) =>
      DecisionStep(hash, s, op, false);
      DecisionStep(hash, s, op, true);
    case EditPatch(_, _) =>
      EditStep(hash, s, op, false);
      EditStep(hash, s, op, true);
    case _ =>
      ProposalStep(hash, s, op, false);
      ProposalStep(hash, s, op, true);
  }

  /** An upsert of a record under its own id, drawn before `now`. */
  predicate Fits(u: Upsert, now: Id) {
    match u
    case PutProposal(p) => p.proposalId < now
    case PutPromotion(m) => m.promotionId < now
    case PutLedger(r) => r.recordId < now
    case _ => true
  }

  lemma OverwriteKeyed(s: State, u: Upsert, now: nat)
    requires KeyedBefore(s, now) && Fits(u, now)
    ensures KeyedBefore(Overwrite(s, u), now)
  {
  }

  lemma {:induction false} AllKeyed(s: State, us: seq<Upsert>, now: nat)
    requires KeyedBefore(s, now) && forall i :: 0 <= i < |us| ==> Fits(us[i], now)
    ensures KeyedBefore(All(s, us, false), now)
  {
    hide KeyedBefore;
    hide Fits;
    if us != [] {
      AllKeyed(s, us[..|us| - 1], now);
      OverwriteKeyed(All(s, us[..|us| - 1], false), us[|us| - 1], now);
    }
    hide Overwrite;
  }

  lemma UpsertsFit(hash: string -> string, s: State, op: Op)
    requires Keyed(s)
    ensures forall i :: 0 <= i < |Upserts(hash, s, op)| ==> Fits(Upserts(hash, s, op)[i], s.clock + 1)
  {
    hide PatchHash;
    hide Passes;
    hide FirstPassing;
    hide Apply;
  }

  lemma KeyedLater(s: State, s': State, now: nat)
    requires KeyedBefore(s, now) && now <= s'.clock
    requires s'.proposals == s.proposals && s'.promotions == s.promotions && s'.approvals == s.approvals
    ensures Keyed(s') && KeyedBefore(s, now + 1)
  {
  }

  lemma KeyedStep(hash: string -> string, s: State, op: Op)
    requires Keyed(s)
    ensures Keyed(Next(hash, s, op))
  {
    SqlStepIff(hash, s, op);
    hide KeyedBefore;
    hide Next;
    hide Upserts;
    hide Fits;
    hide All;
    UpsertsFit(hash, s, op);
    KeyedLater(s, s, s.clock);
    AllKeyed(s, Upserts(hash, s, op), s.clock + 1);
    KeyedLater(All(s, Upserts(hash, s, op), false), Step(hash, s, op, false), s.clock + 1);
  }

  // ---- Whole histories -----------------------------------------------------------------------

  lemma {:induction false} KeyedRun(hash: string -> string, ops: seq<Op>)
    ensures Keyed(Run(hash, NOTHING, ops))
  {
    if ops != [] {
      KeyedRun(hash, ops[..|ops| - 1]);
      KeyedStep(hash, Run(hash, NOTHING, ops[..|ops| - 1]), ops[|ops| - 1]);
    }
    hide Next;
  }

  /** Over every history of pipeline operations, in any order, the SQL tables hold exactly what the
      in-memory repository holds. */
  lemma {:induction false} SqlPipelineSimulates(hash: string -> string, ops: seq<Op>)
    requires forall i :: 0 <= i < |ops| ==> !ops[i].EditPatch?
    ensures RunSql(hash, ops) == Run(hash, NOTHING, ops)
  {
    if ops != [] {
      SqlPipelineSimulates(hash, ops[..|ops| - 1]);
      KeyedRun(hash, ops[..|ops| - 1]);
      SqlStepIff(hash, Run(hash, NOTHING, ops[..|ops| - 1]), ops[|ops| - 1]);
    }
    hide Step;
    hide Next;
    hide Keyed;
  }
}
