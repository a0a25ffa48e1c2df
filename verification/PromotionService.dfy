/** The pipeline operations over mutable tables. A service remembers the operations it was asked for; its
    tables are what that history makes them, so the history theorems hold of every service. */
module PromotionService {
  import opened CanonicalJson
  import opened Decimal
  import opened NoRegression
  import opened Records
  import opened SelfImprovement

  datatype Result<+T> = Ok(value: T) | Raised(error: Error)

  /** A passing evaluation of the proposal, made for its tenant. */
  predicate PassingEvaluation(e: Evaluation, p: Id, tenantId: string) {
    e.proposalId == p && e.tenantId == tenantId && e.passed && !e.pending
  }

  /** The record approves exactly this proposal with this patch. */
  predicate ApprovesPatch(hash: string -> string, record: ApprovalRecord, p: Id, patch: string) {
    record.decision == Approve && record.payloadHash == PatchHash(hash, p, patch)
  }

  /** What promotion demands: an approved proposal, a passing evaluation of it, and its record approving the
      stored patch. */
  ghost predicate MayPromote(hash: string -> string, s: State, p: Id) {
    && p in s.proposals && s.proposals[p].status == Approved
    && (exists e :: e in s.evaluations && PassingEvaluation(e, p, s.proposals[p].tenantId))
    && s.proposals[p].approvalId.Some? && s.proposals[p].approvalId.value in s.approvals
    && ApprovesPatch(hash, s.approvals[s.proposals[p].approvalId.value], p, s.proposals[p].patch)
  }

  lemma {:induction false} FirstPassingIff(evaluations: seq<Evaluation>, p: Id, tenantId: string)
    ensures FirstPassing(evaluations, p, tenantId).Some?
       <==> exists e :: e in evaluations && PassingEvaluation(e, p, tenantId)
  {
    if evaluations != [] {
      var first, rest := evaluations[0], evaluations[1..];
      FirstPassingIff(rest, p, tenantId);
      assert forall e :: e in evaluations <==> e == first || e in rest;
      assert FirstPassing(evaluations, p, tenantId).Some?
        <==> PassingEvaluation(first, p, tenantId) || FirstPassing(rest, p, tenantId).Some?;
    }
  }

  lemma PromotableIff(hash: string -> string, s: State, p: Id)
    ensures Promotable(hash, s, p) <==> MayPromote(hash, s, p)
  {
    hide PatchHash;
    hide FirstPassing;
    hide PassingEvaluation;
    if p in s.proposals {
      FirstPassingIff(s.evaluations, p, s.proposals[p].tenantId);
    }
  }

  // ---- What an operation of the history does, case by case -----------------------------------

  /** The operation raised: only the clock moved, and the history tells nothing. */
  predicate Nothing(hash: string -> string, s: State, op: Op) {
    Next(hash, s, op) == s.(clock := s.clock + 1) && Told(hash, s, op) == []
  }

  lemma EvaluateIs(hash: string -> string, s: State, op: Op)
    requires op.Evaluate?
    ensures op.proposalId !in s.proposals ==> Nothing(hash, s, op)
    ensures op.proposalId in s.proposals ==>
              var p, passed := s.proposals[op.proposalId], op.canRun && Passes(s.proposals[op.proposalId], op.checks);
              var status := if !op.canRun then PendingEvaluation
                            else if passed then EvaluationPassed else EvaluationFailed;
              Next(hash, s, op) == s.(
                clock := s.clock + 1, proposals := s.proposals[op.proposalId := p.(status := status)],
                evaluations := s.evaluations + [Evaluation(s.clock, op.proposalId, p.tenantId, passed, !op.canRun)])
  {
    hide Passes;
  }

  lemma OpenIs(hash: string -> string, s: State, op: Op)
    requires op.Open?
    ensures Told(hash, s, op) == []
    ensures op.proposalId !in s.proposals || s.proposals[op.proposalId].status != EvaluationPassed ==>
              Nothing(hash, s, op)
    ensures op.proposalId in s.proposals && s.proposals[op.proposalId].status == EvaluationPassed ==>
              var p := s.proposals[op.proposalId];
              Next(hash, s, op) == s.(
                clock := s.clock + 1, approvals := s.approvals[s.clock := OpenedRecord(p, s.clock)],
                proposals := s.proposals[op.proposalId := p.(status := Status.AwaitingApproval,
                                                             approvalId := Some(s.clock))])
  {
  }

  lemma DecideIs(hash: string -> string, s: State, op: Op)
    requires op.Decide?
    ensures op.proposalId !in s.proposals || s.proposals[op.proposalId].approvalId.None? ==> Nothing(hash, s, op)
    ensures op.proposalId in s.proposals && s.proposals[op.proposalId].approvalId.Some?
            && s.proposals[op.proposalId].approvalId.value in s.approvals ==>
              var p := s.proposals[op.proposalId];
              var r := p.approvalId.value;
              var status := if op.decision == Approve then Approved
                            else if op.decision == Reject then Rejected else p.status;
              && (op.decision == Approve ==> Told(hash, s, op) == [Approval(op.proposalId)])
              && Next(hash, s, op) == s.(
                   clock := s.clock + 1, proposals := s.proposals[op.proposalId := p.(status := status)],
                   approvals := s.approvals[r := DecidedRecord(s.approvals[r], op.decision, op.approverId, op.channel,
                                                               s.clock)])
  {
    hide DecidedRecord;
    if op.proposalId in s.proposals {
      assert s.proposals[op.proposalId := s.proposals[op.proposalId]] == s.proposals;
    }
  }

  lemma ApprovalIsFresh(history: seq<Event>, p: Id)
    ensures Fresh(history + [Approval(p)], p)
  {
  }

  lemma PromoteIs(hash: string -> string, s: State, op: Op)
    requires op.Promote?
    ensures Raises(hash, s, op) <==> !MayPromote(hash, s, op.proposalId)
    ensures !MayPromote(hash, s, op.proposalId) ==> Nothing(hash, s, op)
    ensures MayPromote(hash, s, op.proposalId) ==>
              var p := s.proposals[op.proposalId];
              var passing := FirstPassing(s.evaluations, op.proposalId, p.tenantId).value;
              var promotion := Promotion(s.clock, op.proposalId, p.tenantId, p.approvalId.value, passing.evaluationId,
                                         op.version, op.previous,
                                         if p.patchHash.Some? then p.patchHash.value else "", false, None);
              Next(hash, s, op) == s.(
                clock := s.clock + 1, proposals := s.proposals[op.proposalId := p.(status := Promoted)],
                promotions := s.promotions[s.clock := promotion], pointer := s.pointer[p.tenantId := op.version])
  {
    PromotableIff(hash, s, op.proposalId);
    hide PatchHash;
    hide FirstPassing;
    hide MayPromote;
  }

  lemma RollbackIs(hash: string -> string, s: State, op: Op)
    requires op.Rollback?
    ensures Told(hash, s, op) == []
    ensures op.promotionId !in s.promotions ==> Nothing(hash, s, op)
    ensures op.promotionId in s.promotions ==>
              var m := s.promotions[op.promotionId];
              Next(hash, s, op) == s.(
                clock := s.clock + 1,
                promotions := s.promotions[op.promotionId := m.(rolledBack := true, rollbackReason := Some(op.reason))],
                pointer := if m.previousVersion.Some? then s.pointer[m.tenantId := m.previousVersion.value]
                           else s.pointer,
                proposals := if m.proposalId in s.proposals
                             then s.proposals[m.proposalId := s.proposals[m.proposalId].(status := RolledBack)]
                             else s.proposals)
  {
  }

  class Service {
    const hash: string -> string
    var proposals: map<Id, Proposal>
    var evaluations: seq<Evaluation>
    var promotions: map<Id, Promotion>
    var approvals: map<Id, ApprovalRecord>
    var pointer: map<string, string>
    /** The module global of `version_pin`: written by the loader only. */
    var loaded: Option<string>
    var clock: nat
    ghost var trail: seq<Op>

    ghost function Model(): State
      reads this
    {
      State(proposals, evaluations, promotions, approvals, pointer, loaded, clock)
    }

    ghost predicate Valid()
      reads this
    {
      Model() == Run(hash, NOTHING, trail) && AllDictionaries(trail)
    }

    /** The reflections, approvals and promotions so far. */
    ghost function Past(): seq<Event>
      reads this
    {
      History(hash, NOTHING, trail)
    }

    /** The call ran as this operation. */
    twostate predicate Took(op: Op)
      reads this
    {
      Valid() && trail == old(trail) + [op]
    }

    /** No table changed, and neither did the version served. */
    twostate predicate NoChange()
      reads this
    {
      && proposals == old(proposals) && evaluations == old(evaluations) && promotions == old(promotions)
      && approvals == old(approvals) && pointer == old(pointer) && loaded == old(loaded)
    }

    constructor (hash: string -> string)
      ensures this.hash == hash && Valid() && Past() == []
    {
      this.hash := hash;
      proposals, evaluations, promotions, approvals := map[], [], map[], map[];
      pointer, loaded, clock, trail := map[], None, 0, [];
    }

    method NewId() returns (id: Id)
      modifies this`clock
      ensures id == old(clock) && clock == old(clock) + 1
    {
      id := clock;
      clock := clock + 1;
    }

    method SetStatus(p: Id, status: Status)
      requires p in proposals
      modifies this`proposals
      ensures proposals == old(proposals)[p := old(proposals)[p].(status := status)]
    {
      proposals := proposals[p := proposals[p].(status := status)];
    }

    ghost method Remember(op: Op, was: State)
      requires was == Run(hash, NOTHING, trail) && Model() == Next(hash, was, op)
      requires AllDictionaries(trail) && (op.Evaluate? ==> Dictionaries(op.checks))
      modifies this`trail
      ensures Took(op)
      ensures Past() == old(Past()) + Told(hash, was, op)
      ensures Told(hash, was, op) == [] ==> Past() == old(Past())
    {
      hide Next;
      hide Told;
      RunSnoc(hash, NOTHING, trail, op);
      trail := trail + [op];
    }

    /** A new inert proposal under an id never used before; no other row changes. */
    method ReflectOnTask(tenantId: string, taskId: Option<Id>, patch: string) returns (proposal: Proposal)
      requires Valid()
      modifies this
      ensures Took(Reflect(tenantId, taskId, patch))
      ensures proposal.proposalId !in old(proposals)
      ensures proposals == old(proposals)[proposal.proposalId := proposal]
      ensures proposal.status == Draft && proposal.tenantId == tenantId && proposal.taskId == taskId
      ensures proposal.patch == patch && proposal.approvalId.None?
      ensures proposal.patchHash == Some(PatchHash(hash, proposal.proposalId, patch))
      ensures PatchHash(hash, proposal.proposalId, patch)
           == PayloadHash(hash, Obj(Field("proposal_id", Str(NatText(proposal.proposalId)),
                                    Field("proposed_patch", Str(patch), NoFields))))
      ensures Collisionless(hash) ==>
                forall other :: PatchHash(hash, proposal.proposalId, other) == proposal.patchHash.value ==>
                  other == patch
      ensures unchanged(this`evaluations, this`promotions, this`approvals, this`pointer, this`loaded)
      ensures ReflectedWith(Past(), proposal.proposalId, patch)
    {
      hide PayloadHash;
      ghost var was := Model();
      RowsFacts(hash, trail, was);
      var id := NewId();
      proposal := Proposal(id, tenantId, taskId, Draft, patch, None, None);
      proposal := proposal.(patchHash := Some(PayloadHash(hash, PatchPayload(id, patch))));
      proposals := proposals[id := proposal];
      ghost var past := Past();
      Remember(Reflect(tenantId, taskId, patch), was);
      Appended(past, Reflection(id, patch));
      PatchHashBinds(hash, id, patch);
    }

    method AllPassed(results: seq<bool>) returns (all: bool)
      ensures all <==> forall i :: 0 <= i < |results| ==> results[i]
    {
      for i := 0 to |results|
        invariant forall j :: 0 <= j < i ==> results[j]
      {
        if !results[i] {
          return false;
        }
      }
      all := true;
    }

    /** Runs the checks on a patch. */
    method RunChecks(patch: string, checks: Checks) returns (passed: bool)
      requires Dictionaries(checks)
      ensures passed <==> Earns(patch, checks)
    {
      hide IsSpace;
      hide Mean;
      hide NoneDropped;
      match checks {
        case Deterministic(results) =>
          var all := AllPassed(results);
          passed := !Blank(patch) && all;
        case HeldOut(candidate, baseline, threshold) =>
          if Blank(patch) {
            return false;
          }
          var regressions;
          passed, regressions := PassesNoRegression(candidate, baseline, threshold);
      }
    }

    /** Fails exactly for an unknown proposal, changing nothing. Otherwise one evaluation is added, passed exactly
        when it ran and the patch earned it, and only this proposal's status changes, to what it says. */
    method EvaluateProposal(p: Id, canRun: bool, checks: Checks) returns (result: Result<Evaluation>)
      requires Valid() && Dictionaries(checks)
      modifies this
      ensures Took(Evaluate(p, canRun, checks))
      ensures result == Raised(UnknownId) <==> p !in old(proposals)
      ensures result.Raised? ==> result.error == UnknownId && NoChange()
      ensures result.Ok? ==>
                && evaluations == old(evaluations) + [result.value]
                && result.value.proposalId == p && result.value.tenantId == old(proposals)[p].tenantId
                && result.value.pending == !canRun
                && (result.value.passed <==> canRun && Earns(old(proposals)[p].patch, checks))
                && p in proposals && proposals == old(proposals)[p := old(proposals)[p].(status := proposals[p].status)]
                && (proposals[p].status == EvaluationPassed <==> result.value.passed)
                && (proposals[p].status == PendingEvaluation <==> result.value.pending)
                && (proposals[p].status == EvaluationFailed <==> !result.value.passed && !result.value.pending)
      ensures unchanged(this`promotions, this`approvals, this`pointer, this`loaded)
    {
      hide Next;
      hide Told;
      hide Raises;
      hide Run;
      hide History;
      hide Passes;
      hide Earns;
      hide Dictionaries;
      ghost var was := Model();
      EvaluateIs(hash, was, Evaluate(p, canRun, checks));
      var id := NewId();
      if p !in proposals {
        Remember(Evaluate(p, canRun, checks), was);
        return Raised(UnknownId);
      }
      var proposal := proposals[p];
      PassesIff(proposal, checks);
      var evaluation := Evaluation(id, p, proposal.tenantId, false, !canRun);
      if !canRun {
        SetStatus(p, PendingEvaluation);
      } else {
        var passed := RunChecks(proposal.patch, checks);
        evaluation := evaluation.(passed := passed);
        SetStatus(p, if passed then EvaluationPassed else EvaluationFailed);
      }
      evaluations := evaluations + [evaluation];
      Remember(Evaluate(p, canRun, checks), was);
      result := Ok(evaluation);
    }

    /** Goes through exactly from status EVALUATION_PASSED: one new pending record, bound to the patch the
        proposal was reflected with, is added and linked. */
    method OpenPromotionApproval(p: Id) returns (result: Result<ApprovalRecord>)
      requires Valid()
      modifies this
      ensures Took(Open(p))
      ensures result == Raised(UnknownId) <==> p !in old(proposals)
      ensures result == Raised(Refused) <==> p in old(proposals) && old(proposals)[p].status != EvaluationPassed
      ensures result.Raised? ==> NoChange()
      ensures result.Ok? ==>
                && result.value.recordId !in old(approvals)
                && approvals == old(approvals)[result.value.recordId := result.value]
                && p in Reflected(Past())
                && result.value == ApprovalRecord(
                     result.value.recordId, result.value.recordId,
                     if old(proposals)[p].taskId.Some? then old(proposals)[p].taskId.value else p,
                     old(proposals)[p].tenantId, None, Pending, None, None,
                     PatchHash(hash, p, Reflected(Past())[p]), None, result.value.recordId)
                && proposals == old(proposals)[p := old(proposals)[p].(status := Status.AwaitingApproval,
                                                                       approvalId := Some(result.value.recordId))]
      ensures unchanged(this`evaluations, this`promotions, this`pointer, this`loaded) && Past() == old(Past())
    {
      hide Next;
      hide Told;
      hide Raises;
      hide PatchHash;
      hide Run;
      hide History;
      hide Reflected;
      ghost var was := Model();
      OpenIs(hash, was, Open(p));
      RowsFacts(hash, trail, was);
      var id := NewId();
      if p !in proposals {
        Remember(Open(p), was);
        return Raised(UnknownId);
      }
      if proposals[p].status != EvaluationPassed {
        Remember(Open(p), was);
        return Raised(Refused);
      }
      var record := OpenedRecord(proposals[p], id);
      approvals := approvals[id := record];
      proposals := proposals[p := proposals[p].(status := Status.AwaitingApproval, approvalId := Some(id))];
      Remember(Open(p), was);
      result := Ok(record);
    }

    /** Stores the decided record, and lets the proposal follow an approval or a rejection. */
    method WriteDecision(p: Id, r: Id, record: ApprovalRecord)
      requires p in proposals
      modifies this`approvals, this`proposals
      ensures approvals == old(approvals)[r := record]
      ensures proposals == old(proposals)[p := old(proposals)[p].(status :=
                             if record.decision == Approve then Approved
                             else if record.decision == Reject then Rejected
                             else old(proposals)[p].status)]
    {
      approvals := approvals[r := record];
      if record.decision == Approve {
        SetStatus(p, Approved);
      } else if record.decision == Reject {
        SetStatus(p, Rejected);
      }
    }

    /** Goes through exactly when the proposal has a record. The decision, its author, channel and time are
        all that changes in the ledger: the hash stays. Expiry leaves the status alone. A record once linked
        is always stored, so its lookup cannot fail. */
    method RecordApprovalDecision(p: Id, decision: Decision, approverId: string, channel: string)
      returns (result: Result<ApprovalRecord>)
      requires Valid()
      modifies this
      ensures Took(Decide(p, decision, approverId, channel))
      ensures result == Raised(UnknownId) <==> p !in old(proposals)
      ensures result == Raised(Refused) <==> p in old(proposals) && old(proposals)[p].approvalId.None?
      ensures result.Raised? ==> NoChange()
      ensures result.Ok? ==>
                var r := old(proposals)[p].approvalId.value;
                && r in old(approvals) && approvals == old(approvals)[r := result.value]
                && result.value == old(approvals)[r].(decision := decision, approverId := Some(approverId),
                                                      channel := Some(channel), decidedAt := result.value.decidedAt)
                && p in proposals && proposals == old(proposals)[p := old(proposals)[p].(status := proposals[p].status)]
                && (decision == Approve ==> proposals[p].status == Approved && Fresh(Past(), p))
                && (decision == Reject ==> proposals[p].status == Rejected)
                && (decision == Pending || decision == Expire ==> proposals[p].status == old(proposals)[p].status)
      ensures unchanged(this`evaluations, this`promotions, this`pointer, this`loaded)
    {
      hide AllDictionaries;
      hide Dictionaries;
      hide Next;
      hide Told;
      hide Raises;
      hide PatchHash;
      hide Run;
      hide History;
      hide Reflected;
      hide Fresh;
      hide Proper;
      ghost var was := Model();
      DecideIs(hash, was, Decide(p, decision, approverId, channel));
      ghost var past := Past();
      RowsFacts(hash, trail, was);
      var now := NewId();
      if p !in proposals {
        Remember(Decide(p, decision, approverId, channel), was);
        return Raised(UnknownId);
      }
      if proposals[p].approvalId.None? {
        Remember(Decide(p, decision, approverId, channel), was);
        return Raised(Refused);
      }
      var r := proposals[p].approvalId.value;
      var record := DecidedRecord(approvals[r], decision, approverId, channel, now);
      WriteDecision(p, r, record);
      Remember(Decide(p, decision, approverId, channel), was);
      ApprovalIsFresh(past, p);
      result := Ok(record);
    }

    /** The first evaluation listed for the proposal and tenant that passed and is not pending. */
    method FindPassing(p: Id, tenantId: string) returns (passing: Option<Evaluation>)
      ensures passing == FirstPassing(evaluations, p, tenantId)
      ensures passing.Some? <==> exists e :: e in evaluations && PassingEvaluation(e, p, tenantId)
      ensures passing.Some? ==>
                exists i :: 0 <= i < |evaluations| && evaluations[i] == passing.value
                         && PassingEvaluation(evaluations[i], p, tenantId)
                         && forall j :: 0 <= j < i ==> !PassingEvaluation(evaluations[j], p, tenantId)
    {
      passing := None;
      for i := 0 to |evaluations|
        invariant FirstPassing(evaluations, p, tenantId) == FirstPassing(evaluations[i..], p, tenantId)
        invariant forall j :: 0 <= j < i ==> !PassingEvaluation(evaluations[j], p, tenantId)
      {
        var e := evaluations[i];
        assert evaluations[i..][1..] == evaluations[i + 1..];
        if e.proposalId == p && e.tenantId == tenantId && e.passed && !e.pending {
          assert PassingEvaluation(evaluations[i], p, tenantId);
          return Some(e);
        }
      }
    }

    /** The guards of promotion, in the order they are checked. */
    method Grounds(p: Id) returns (grounds: Result<Evaluation>)
      ensures grounds == Raised(UnknownId) <==> p !in proposals
      ensures grounds.Ok? <==> MayPromote(hash, Model(), p)
      ensures grounds.Ok? ==> p in proposals && proposals[p].approvalId.Some?
      ensures grounds.Ok? ==> FirstPassing(evaluations, p, proposals[p].tenantId) == Some(grounds.value)
      ensures grounds.Ok? ==> grounds.value in evaluations
                              && PassingEvaluation(grounds.value, p, proposals[p].tenantId)
    {
      hide FirstPassing;
      hide PassingEvaluation;
      hide ApprovesPatch;
      if p !in proposals {
        return Raised(UnknownId);
      }
      var proposal := proposals[p];
      if proposal.status != Approved {
        return Raised(Refused);
      }
      var passing := FindPassing(p, proposal.tenantId);
      if passing.None? {
        return Raised(Refused);
      }
      if proposal.approvalId.None? || proposal.approvalId.value !in approvals {
        return Raised(Refused);
      }
      if !ApprovesPatch(hash, approvals[proposal.approvalId.value], p, proposal.patch) {
        return Raised(Refused);
      }
      grounds := Ok(passing.value);
    }

    /** Adds the promotion, points its tenant at the version and closes its proposal. */
    method StorePromotion(m: Promotion)
      requires m.proposalId in proposals
      modifies this`promotions, this`pointer, this`proposals
      ensures promotions == old(promotions)[m.promotionId := m]
      ensures pointer == old(pointer)[m.tenantId := m.promotedVersion]
      ensures proposals == old(proposals)[m.proposalId := old(proposals)[m.proposalId].(status := Promoted)]
    {
      promotions := promotions[m.promotionId := m];
      pointer := pointer[m.tenantId := m.promotedVersion];
      SetStatus(m.proposalId, Promoted);
    }

    /** Goes through exactly for an approved proposal with a passing evaluation and a record approving its
        stored patch. One promotion is added; only this tenant's pointer and this proposal's status change.
        It uses up an approval given since the last promotion, and what is promoted is what was reflected. */
    method PromoteProposal(p: Id, version: string, previous: Option<string>) returns (result: Result<Promotion>)
      requires Valid()
      modifies this
      ensures Took(Promote(p, version, previous))
      ensures result == Raised(UnknownId) <==> p !in old(proposals)
      ensures result.Ok? <==> MayPromote(hash, old(Model()), p)
      ensures result.Raised? ==> NoChange() && Past() == old(Past())
      ensures result.Ok? ==>
                var was, m := old(proposals)[p], result.value;
                && m.promotionId !in old(promotions) && promotions == old(promotions)[m.promotionId := m]
                && m.proposalId == p && m.tenantId == was.tenantId && Some(m.approvalId) == was.approvalId
                && m.promotedVersion == version && m.previousVersion == previous
                && !m.rolledBack && m.rollbackReason.None? && Some(m.patchHash) == was.patchHash
                && (exists e :: e in evaluations && PassingEvaluation(e, p, m.tenantId)
                                && e.evaluationId == m.evaluationId)
                && pointer == old(pointer)[was.tenantId := version]
                && proposals == old(proposals)[p := was.(status := Promoted)]
                && Fresh(old(Past()), p) && !Fresh(Past(), p)
                && Promotions(Past(), p) == Promotions(old(Past()), p) + 1 <= Approvals(Past(), p)
                && (Collisionless(hash) ==> ReflectedWith(old(Past()), p, was.patch))
      ensures unchanged(this`evaluations, this`approvals, this`loaded)
    {
      hide AllDictionaries;
      hide Dictionaries;
      hide Next;
      hide Told;
      hide Raises;
      hide FirstPassing;
      hide PassingEvaluation;
      hide MayPromote;
      hide ApprovesPatch;
      hide Fresh;
      hide Promotions;
      hide Approvals;
      hide ReflectedWith;
      hide Run;
      hide History;
      hide Reflected;
      ghost var was := Model();
      PromoteIs(hash, was, Promote(p, version, previous));
      ghost var op := Promote(p, version, previous);
      var grounds := Grounds(p);
      var id := NewId();
      if grounds.Raised? {
        Remember(op, was);
        return Raised(grounds.error);
      }
      var proposal := proposals[p];
      var patchHash := if proposal.patchHash.Some? then proposal.patchHash.value else "";
      var promotion := Promotion(id, p, proposal.tenantId, proposal.approvalId.value, grounds.value.evaluationId,
                                 version, previous, patchHash, false, None);
      PromotionFacts(hash, trail, was, op);
      RowsFacts(hash, trail, was);
      StorePromotion(promotion);
      Remember(op, was);
      result := Ok(promotion);
    }

    /** Fails exactly for an unknown promotion. Otherwise only the named promotion's rollback mark, its tenant's
        pointer - when it replaced a version - and its proposal's status change. */
    method RollbackPromotion(m: Id, reason: string) returns (result: Result<Promotion>)
      requires Valid()
      modifies this
      ensures Took(Rollback(m, reason)) && Past() == old(Past())
      ensures result == Raised(UnknownId) <==> m !in old(promotions)
      ensures result.Raised? ==> result.error == UnknownId && NoChange()
      ensures result.Ok? ==>
                var was := old(promotions)[m];
                && result.value == was.(rolledBack := true, rollbackReason := Some(reason))
                && promotions == old(promotions)[m := result.value]
                && pointer.Keys >= old(pointer).Keys
                && (forall tenantId :: tenantId in pointer && tenantId != was.tenantId ==>
                      tenantId in old(pointer) && pointer[tenantId] == old(pointer)[tenantId])
                && (was.previousVersion.None? ==> pointer == old(pointer))
                && (was.previousVersion.Some? ==>
                      was.tenantId in pointer && pointer[was.tenantId] == was.previousVersion.value)
                && proposals.Keys == old(proposals).Keys
                && (forall p :: p in proposals ==>
                      proposals[p] == if p == was.proposalId then old(proposals)[p].(status := RolledBack)
                                      else old(proposals)[p])
      ensures unchanged(this`evaluations, this`approvals, this`loaded)
    {
      hide Next;
      hide Told;
      hide Raises;
      hide PatchHash;
      hide Run;
      hide History;
      hide Reflected;
      ghost var before := Model();
      RollbackIs(hash, before, Rollback(m, reason));
      var _ := NewId();
      if m !in promotions {
        Remember(Rollback(m, reason), before);
        return Raised(UnknownId);
      }
      var promotion := promotions[m];
      var updated := promotion.(rolledBack := true, rollbackReason := Some(reason));
      promotions := promotions[m := updated];
      if promotion.previousVersion.Some? {
        pointer := pointer[promotion.tenantId := promotion.previousVersion.value];
      }
      if promotion.proposalId in proposals {
        SetStatus(promotion.proposalId, RolledBack);
      }
      Remember(Rollback(m, reason), before);
      result := Ok(updated);
    }

    /** The explicit boot or reload step: the only one that changes the version served. */
    method LoadActiveVersionAtBoot(tenantId: string) returns (version: Option<string>)
      requires Valid()
      modifies this`loaded, this`clock, this`trail
      ensures Took(Load(tenantId)) && Past() == old(Past())
      ensures version == loaded
      ensures loaded.Some? <==> tenantId in pointer
      ensures loaded.Some? ==> loaded.value == pointer[tenantId]
    {
      ghost var was := Model();
      var _ := NewId();
      loaded := if tenantId in pointer then Some(pointer[tenantId]) else None;
      Remember(Load(tenantId), was);
      version := loaded;
    }

    /** What the running process serves; the store is not read. */
    function ActiveVersion(): Option<string>
      reads this`loaded
    {
      loaded
    }
  }

  // ---- What the history says of the tables ---------------------------------------------------

  /** The promotions of a proposal stored in a service never outnumber the approvals it was asked to record. */
  lemma RowsWithinApprovals(service: Service, p: Id)
    requires service.Valid()
    ensures |PromotionsOf(service.Model(), p)| <= Approvals(service.Past(), p)
  {
    PromotionRowsWithinApprovals(service.hash, service.trail, service.Model(), p);
  }

  /** Each promotion stored in a service names an evaluation of its proposal and tenant whose checks were all true
      or whose scores met the gate, and went through with the patch its proposal was reflected with. */
  lemma RowsAreEarned(service: Service, m: Id) returns (e: Evaluation)
    requires service.Valid() && m in service.promotions && Collisionless(service.hash)
    ensures e in service.evaluations && PassingFor(e, service.promotions[m])
    ensures exists k: nat :: EarnedBy(service.hash, service.trail, k, e)
    ensures exists patch :: Promoting(service.promotions[m].proposalId, m, patch) in service.Past()
                         && ReflectedWith(service.Past(), service.promotions[m].proposalId, patch)
  {
    var s, h := service.Model(), service.Past();
    e := PromotionsEarned(service.hash, service.trail, s, m);
    RowIsEvent(service.hash, service.trail, m);
    hide EarnedBy;
    var j :| 0 <= j < |h| && h[j].Promoting? && h[j].promotionId == m;
    PromotionsAreEarned(service.hash, service.trail, s, h, j);
    assert Promoting(service.promotions[m].proposalId, m, h[j].patch) == h[j];
  }
}
