/** The active-version pointer: undoing promotions by rollback, and reads that change only at a load. */
module VersionPointer {
  import opened Records
  import opened SelfImprovement

  // ---- Undo ----------------------------------------------------------------------------------

  /** The operation promotes for the tenant and goes through. */
  predicate PromotesFor(hash: string -> string, s: State, op: Op, tenantId: string) {
    && op.Promote? && !Raises(hash, s, op)
    && op.proposalId in s.proposals && s.proposals[op.proposalId].tenantId == tenantId
  }

  /** No rollbacks of the tenant, and each of its promotions is given the current pointer as previous version. */
  predicate Faithful(hash: string -> string, s: State, op: Op, tenantId: string) {
    && (PromotesFor(hash, s, op, tenantId) ==> op.previous == Current(s, tenantId))
    && (op.Rollback? && op.promotionId in s.promotions ==> s.promotions[op.promotionId].tenantId != tenantId)
  }

  predicate FaithfulRun(hash: string -> string, s: State, ops: seq<Op>, tenantId: string) {
    ops == []
    || var before := ops[..|ops| - 1];
       FaithfulRun(hash, s, before, tenantId) && Faithful(hash, Run(hash, s, before), ops[|ops| - 1], tenantId)
  }

  /** The promotions of the tenant that a run makes, in order. */
  function Made(hash: string -> string, s: State, ops: seq<Op>, tenantId: string): seq<Id> {
    if ops == [] then []
    else
      var before := ops[..|ops| - 1];
      var s' := Run(hash, s, before);
      Made(hash, s, before, tenantId) + (if PromotesFor(hash, s', ops[|ops| - 1], tenantId) then [s'.clock] else [])
  }

  /** The pointer before the run, and after each of those promotions. */
  function Pointers(hash: string -> string, s: State, ops: seq<Op>, tenantId: string): seq<Option<string>> {
    if ops == [] then [Current(s, tenantId)]
    else
      var before, op := ops[..|ops| - 1], ops[|ops| - 1];
      var s' := Run(hash, s, before);
      Pointers(hash, s, before, tenantId)
      + (if PromotesFor(hash, s', op, tenantId) then [Current(Next(hash, s', op), tenantId)] else [])
  }

  /** The rollbacks of the last n of `made`, the latest first. */
  function Undo(made: seq<Id>, n: nat): seq<Op>
    requires n <= |made|
  {
    if n == 0 then [] else Undo(made, n - 1) + [Rollback(made[|made| - n], "undo")]
  }

  /** The record of promotion m says that it replaced `previous`. */
  predicate Replaced(s: State, tenantId: string, m: Id, previous: Option<string>) {
    m in s.promotions && s.promotions[m].tenantId == tenantId && s.promotions[m].previousVersion == previous
  }

  /** Each promotion in the chain leads from one pointer to the next, and the last is current. */
  ghost predicate Chain(s: State, tenantId: string, made: seq<Id>, pointers: seq<Option<string>>) {
    && |pointers| == |made| + 1 && Current(s, tenantId) == pointers[|made|]
    && (forall i :: 0 <= i < |made| ==> Replaced(s, tenantId, made[i], pointers[i]))
    && (forall i :: 0 < i < |pointers| ==> pointers[i].Some?)
  }

  /** Promotion ids come from the clock. */
  ghost predicate Numbered(s: State) {
    forall m :: m in s.promotions ==> m < s.clock
  }

  lemma NumberedKept(hash: string -> string, s: State, op: Op)
    requires Numbered(s)
    ensures Numbered(Next(hash, s, op))
  {
    hide PatchHash;
    hide FirstPassing;
    hide Passes;
    hide Promotable;
  }

  lemma PointerMoves(hash: string -> string, s: State, op: Op, tenantId: string)
    requires Faithful(hash, s, op, tenantId)
    ensures PromotesFor(hash, s, op, tenantId) ==>
              && Current(Next(hash, s, op), tenantId) == Some(op.version)
              && s.clock in Next(hash, s, op).promotions
              && Next(hash, s, op).promotions[s.clock].tenantId == tenantId
              && Next(hash, s, op).promotions[s.clock].previousVersion == op.previous
    ensures !PromotesFor(hash, s, op, tenantId) ==> Current(Next(hash, s, op), tenantId) == Current(s, tenantId)
  {
    hide PatchHash;
    hide FirstPassing;
    hide Passes;
    hide Promotable;
  }

  lemma ReplacedStays(hash: string -> string, s: State, op: Op, tenantId: string, m: Id, previous: Option<string>)
    requires Numbered(s) && Replaced(s, tenantId, m, previous)
    ensures Replaced(Next(hash, s, op), tenantId, m, previous)
  {
    PromotionStays(hash, s, op, m);
    hide Next;
  }

  lemma ChainGrows(hash: string -> string, s: State, op: Op, tenantId: string, made: seq<Id>,
                   pointers: seq<Option<string>>)
    requires Numbered(s) && Chain(s, tenantId, made, pointers) && Faithful(hash, s, op, tenantId)
    ensures PromotesFor(hash, s, op, tenantId) ==>
              Chain(Next(hash, s, op), tenantId, made + [s.clock], pointers + [Current(Next(hash, s, op), tenantId)])
    ensures !PromotesFor(hash, s, op, tenantId) ==> Chain(Next(hash, s, op), tenantId, made, pointers)
  {
    PointerMoves(hash, s, op, tenantId);
    if PromotesFor(hash, s, op, tenantId) {
      FaithfulPrevious(hash, s, op, tenantId);
    }
    forall i | 0 <= i < |made| ensures Replaced(Next(hash, s, op), tenantId, made[i], pointers[i]) {
      ReplacedStays(hash, s, op, tenantId, made[i], pointers[i]);
    }
    hide Next;
    hide PromotesFor;
    hide Faithful;
  }

  lemma FaithfulPrevious(hash: string -> string, s: State, op: Op, tenantId: string)
    requires Faithful(hash, s, op, tenantId) && PromotesFor(hash, s, op, tenantId)
    ensures op.Promote? && op.previous == Current(s, tenantId)
  {
    hide Apply;
  }

  lemma {:induction false} RunIsChain(hash: string -> string, s: State, ops: seq<Op>, tenantId: string)
    requires Numbered(s) && FaithfulRun(hash, s, ops, tenantId)
    ensures Numbered(Run(hash, s, ops))
    ensures Chain(Run(hash, s, ops), tenantId, Made(hash, s, ops, tenantId), Pointers(hash, s, ops, tenantId))
  {
    if ops != [] {
      var before, op := ops[..|ops| - 1], ops[|ops| - 1];
      RunIsChain(hash, s, before, tenantId);
      NumberedKept(hash, Run(hash, s, before), op);
      ChainGrows(hash, Run(hash, s, before), op, tenantId, Made(hash, s, before, tenantId),
                 Pointers(hash, s, before, tenantId));
    }
    hide Next;
    hide Chain;
    hide Numbered;
    hide PromotesFor;
    hide Faithful;
  }

  lemma ChainPointers(s: State, tenantId: string, made: seq<Id>, pointers: seq<Option<string>>)
    requires Chain(s, tenantId, made, pointers)
    ensures |pointers| == |made| + 1 && Current(s, tenantId) == pointers[|made|]
    ensures forall i :: 0 < i < |pointers| ==> pointers[i].Some?
  {
  }

  /** One rollback: the pointer goes back if the promotion had a previous version, else it stays. */
  lemma ChainShrinks(hash: string -> string, s: State, tenantId: string, made: seq<Id>, pointers: seq<Option<string>>)
    requires Numbered(s) && Chain(s, tenantId, made, pointers) && made != []
    ensures var s' := Next(hash, s, Rollback(made[|made| - 1], "undo"));
            && Numbered(s')
            && (pointers[|made| - 1].Some? ==> Chain(s', tenantId, made[..|made| - 1], pointers[..|made|]))
            && (pointers[|made| - 1].None? ==> Current(s', tenantId) == pointers[|made|])
  {
    var op, last := Rollback(made[|made| - 1], "undo"), |made| - 1;
    NumberedKept(hash, s, op);
    assert Replaced(s, tenantId, made[last], pointers[last]);
    forall i | 0 <= i < last ensures Replaced(Next(hash, s, op), tenantId, made[..last][i], pointers[..|made|][i]) {
      ReplacedStays(hash, s, op, tenantId, made[i], pointers[i]);
    }
  }

  lemma RunAppend(hash: string -> string, s: State, ops: seq<Op>, op: Op)
    ensures Run(hash, s, ops + [op]) == Next(hash, Run(hash, s, ops), op)
  {
    assert (ops + [op])[..|ops|] == ops;
  }

  /** The same for a prefix of the chain. */
  lemma PrefixShrinks(hash: string -> string, s: State, tenantId: string, made: seq<Id>,
                      pointers: seq<Option<string>>, k: nat)
    requires 0 < k <= |made| && |pointers| == |made| + 1
    requires Numbered(s) && Chain(s, tenantId, made[..k], pointers[..k + 1])
    ensures var s' := Next(hash, s, Rollback(made[k - 1], "undo"));
            && Numbered(s')
            && (pointers[k - 1].Some? ==> Chain(s', tenantId, made[..k - 1], pointers[..k]))
            && (pointers[k - 1].None? ==> Current(s', tenantId) == pointers[k])
  {
    hide Next;
    hide Chain;
    hide Numbered;
    ChainShrinks(hash, s, tenantId, made[..k], pointers[..k + 1]);
    assert made[..k][..k - 1] == made[..k - 1] && pointers[..k + 1][..k] == pointers[..k];
  }

  /** Rolling back the last n promotions of a chain brings the pointer back to what it was before them,
      unless there was none. */
  lemma {:induction false} ChainUndone(hash: string -> string, s: State, tenantId: string, made: seq<Id>,
                                       pointers: seq<Option<string>>, n: nat)
    requires Numbered(s) && Chain(s, tenantId, made, pointers) && n <= |made|
    ensures var s' := Run(hash, s, Undo(made, n));
            && Numbered(s')
            && (pointers[|made| - n].Some? || n == 0 ==>
                  Chain(s', tenantId, made[..|made| - n], pointers[..|made| - n + 1]))
            && (pointers[|made| - n].None? && n > 0 ==> Current(s', tenantId) == pointers[|made| - n + 1])
  {
    hide Next;
    hide Chain;
    hide Numbered;
    ChainPointers(s, tenantId, made, pointers);
    if n == 0 {
      assert made[..|made|] == made && pointers[..|made| + 1] == pointers;
    } else {
      ChainUndone(hash, s, tenantId, made, pointers, n - 1);
      var s1, k := Run(hash, s, Undo(made, n - 1)), |made| - n + 1;
      RunAppend(hash, s, Undo(made, n - 1), Rollback(made[|made| - n], "undo"));
      assert Undo(made, n) == Undo(made, n - 1) + [Rollback(made[|made| - n], "undo")];
      hide Run;
      hide Undo;
      PrefixShrinks(hash, s1, tenantId, made, pointers, k);
    }
  }

  lemma {:induction false} PointersStart(hash: string -> string, s: State, ops: seq<Op>, tenantId: string)
    ensures Pointers(hash, s, ops, tenantId) != [] && Pointers(hash, s, ops, tenantId)[0] == Current(s, tenantId)
  {
    if ops != [] {
      PointersStart(hash, s, ops[..|ops| - 1], tenantId);
    }
    hide Next;
  }

  lemma {:induction false} Reachable(hash: string -> string, ops: seq<Op>)
    ensures Numbered(Run(hash, NOTHING, ops))
  {
    if ops != [] {
      Reachable(hash, ops[..|ops| - 1]);
      NumberedKept(hash, Run(hash, NOTHING, ops[..|ops| - 1]), ops[|ops| - 1]);
    }
    hide Next;
  }

  /** From any reachable state, after any run whose promotions for a tenant are given its current pointer:
      rolling back all of them in reverse order restores the tenant's pointer exactly when it was not
      null, or there were none. */
  lemma PointerUndoIff(hash: string -> string, past: seq<Op>, ops: seq<Op>, tenantId: string)
    requires FaithfulRun(hash, Run(hash, NOTHING, past), ops, tenantId)
    ensures var s := Run(hash, NOTHING, past);
            var made := Made(hash, s, ops, tenantId);
            Current(Run(hash, Run(hash, s, ops), Undo(made, |made|)), tenantId) == Current(s, tenantId)
            <==> Current(s, tenantId).Some? || made == []
  {
    hide Run;
    hide Made;
    hide Pointers;
    hide FaithfulRun;
    hide Numbered;
    hide Chain;
    var s := Run(hash, NOTHING, past);
    var made, pointers := Made(hash, s, ops, tenantId), Pointers(hash, s, ops, tenantId);
    var s', n := Run(hash, s, ops), |made|;
    Reachable(hash, past);
    RunIsChain(hash, s, ops, tenantId);
    PointersStart(hash, s, ops, tenantId);
    ChainPointers(s', tenantId, made, pointers);
    ChainUndone(hash, s', tenantId, made, pointers, n);
    if pointers[0].Some? || n == 0 {
      ChainPointers(Run(hash, s', Undo(made, n)), tenantId, made[..0], pointers[..1]);
    }
  }

  /** Rolling back only the last n, fewer than all, always restores the pointer they started from. */
  lemma PartialUndo(hash: string -> string, past: seq<Op>, ops: seq<Op>, tenantId: string, n: nat)
    requires FaithfulRun(hash, Run(hash, NOTHING, past), ops, tenantId)
    requires n < |Made(hash, Run(hash, NOTHING, past), ops, tenantId)|
    ensures var s := Run(hash, NOTHING, past);
            var made, pointers := Made(hash, s, ops, tenantId), Pointers(hash, s, ops, tenantId);
            && |pointers| == |made| + 1
            && Current(Run(hash, Run(hash, s, ops), Undo(made, n)), tenantId) == pointers[|made| - n]
  {
    hide Run;
    hide Made;
    hide Pointers;
    hide FaithfulRun;
    hide Numbered;
    hide Chain;
    var s := Run(hash, NOTHING, past);
    var made, pointers := Made(hash, s, ops, tenantId), Pointers(hash, s, ops, tenantId);
    var s', k := Run(hash, s, ops), |made| - n;
    Reachable(hash, past);
    RunIsChain(hash, s, ops, tenantId);
    ChainPointers(s', tenantId, made, pointers);
    ChainUndone(hash, s', tenantId, made, pointers, n);
    ChainPointers(Run(hash, s', Undo(made, n)), tenantId, made[..k], pointers[..k + 1]);
  }

  // ---- Non-hot reads -------------------------------------------------------------------------

  lemma LoadedMoves(hash: string -> string, s: State, op: Op)
    ensures Next(hash, s, op).loaded == if op.Load? then Current(s, op.tenantId) else s.loaded
  {
    hide PatchHash;
    hide FirstPassing;
    hide Passes;
    hide Promotable;
  }

  /** The store's pointer at the last load of a history; none before any load. */
  function LastLoaded(hash: string -> string, ops: seq<Op>): Option<string> {
    if ops == [] then None
    else
      var before, op := ops[..|ops| - 1], ops[|ops| - 1];
      if op.Load? then Current(Run(hash, NOTHING, before), op.tenantId) else LastLoaded(hash, before)
  }

  /** The version the process serves is the store's pointer at the last load, whatever was promoted or
      rolled back since; before any load there is none. */
  lemma {:induction false} ServedIsLastLoaded(hash: string -> string, ops: seq<Op>)
    ensures Run(hash, NOTHING, ops).loaded == LastLoaded(hash, ops)
  {
    if ops != [] {
      ServedIsLastLoaded(hash, ops[..|ops| - 1]);
      LoadedMoves(hash, Run(hash, NOTHING, ops[..|ops| - 1]), ops[|ops| - 1]);
    }
    hide Next;
  }
}
