/** The mesh graph: four role nodes in a row, each a budget-checked model call, then the write gate. */
module MeshGraph {
  import opened Records
  import opened Budget

  datatype Role = Planner | Researcher | CodeWriter | Reviewer

  const NODES := [Planner, Researcher, CodeWriter, Reviewer]

  /** What one model call was estimated at beforehand and priced at afterwards. */
  datatype Pricing = Pricing(estimate: real, actual: real)

  /** The graph charges its calls to the tenant, and to no task. */
  function Delegated(tenantId: string, estimate: real): Flight {
    Flight(tenantId, tenantId, None, estimate)
  }

  /** The ledger after the first i nodes were charged. */
  function LedgerAfter(tenantId: string, ledger: seq<Row>, month: nat, pricing: seq<Pricing>, i: nat): seq<Row>
    requires i <= |pricing|
  {
    if i == 0 then ledger
    else
      var before := LedgerAfter(tenantId, ledger, month, pricing, i - 1);
      before + [RowOf(Delegated(tenantId, pricing[i - 1].estimate), |before|, pricing[i - 1].actual, month)]
  }

  /** The run gets through exactly n of the four nodes: the first n checks pass, and the next, if there
      is one, does not. */
  ghost predicate GetsThrough(settings: Settings, tenantId: string, ledger: seq<Row>, month: nat,
                              pricing: seq<Pricing>, n: nat)
    requires |pricing| == |NODES|
  {
    && n <= |NODES|
    && (forall i :: 0 <= i < n ==>
          Passes(settings, LedgerAfter(tenantId, ledger, month, pricing, i), month,
                 Delegated(tenantId, pricing[i].estimate)))
    && (n < |NODES| ==>
          !Passes(settings, LedgerAfter(tenantId, ledger, month, pricing, n), month,
                  Delegated(tenantId, pricing[n].estimate)))
  }

  ghost predicate Numbered(ledger: seq<Row>) {
    forall i :: 0 <= i < |ledger| ==> ledger[i].eventId < |ledger|
  }

  class Graph {
    const tracker: BudgetTracker
    const tenantId: string
    var gateway: seq<GatewayEvent>
    /** The roles whose model was called, in order. */
    var called: seq<Role>

    constructor (tracker: BudgetTracker, tenantId: string)
      ensures this.tracker == tracker && this.tenantId == tenantId && gateway == [] && called == []
    {
      this.tracker, this.tenantId, gateway, called := tracker, tenantId, [], [];
    }

    /** One role turn: checked before the call, priced after it. A refusal leaves one audit row and no
        ledger row, and the model is not called. */
    method Delegate(role: Role, taskId: Id, price: Pricing) returns (ok: bool)
      requires Numbered(tracker.ledger)
      modifies this, tracker
      ensures ok == old(Passes(tracker.settings, tracker.ledger, tracker.month, Delegated(tenantId, price.estimate)))
      ensures ok <==>
                && price.estimate <= tracker.settings.perTaskCap
                && price.estimate <= tracker.settings.monthlyCap
                                     - Spent(old(tracker.ledger), OwnerAccount(tenantId, tenantId), tracker.month)
      ensures tracker.month == old(tracker.month) && Numbered(tracker.ledger)
      ensures tracker.ledger == old(tracker.ledger)
              + (if ok then [Row(|old(tracker.ledger)|, tenantId, tenantId, None, price.actual, tracker.month)] else [])
      ensures called == old(called) + (if ok then [role] else [])
      ensures gateway == old(gateway) + (if ok then [] else [GatewayEvent(taskId, tenantId, "budget_halt", "block")])
    {
      var call := Delegated(tenantId, price.estimate);
      ok := tracker.Check(call);
      if !ok {
        gateway := gateway + [GatewayEvent(taskId, tenantId, "budget_halt", "block")];
        return;
      }
      called := called + [role];
      tracker.Record(RowOf(call, |tracker.ledger|, price.actual, tracker.month));
    }

    /** Runs the nodes in order and stops at the first refusal; only a full run reaches the write gate. */
    method Invoke(taskId: Id, pricing: seq<Pricing>) returns (atGate: bool, ghost n: nat)
      requires Numbered(tracker.ledger) && |pricing| == |NODES|
      modifies this, tracker
      ensures Numbered(tracker.ledger) && tracker.month == old(tracker.month)
      ensures GetsThrough(tracker.settings, tenantId, old(tracker.ledger), tracker.month, pricing, n)
      ensures atGate <==> n == |NODES|
      ensures called == old(called) + NODES[..n]
      ensures atGate ==> called == old(called) + [Planner, Researcher, CodeWriter, Reviewer]
      ensures tracker.ledger == LedgerAfter(tenantId, old(tracker.ledger), tracker.month, pricing, n)
      ensures gateway == old(gateway)
              + (if atGate then [] else [GatewayEvent(taskId, tenantId, "budget_halt", "block")])
    {
      hide Passes;
      hide Spent;
      atGate, n := false, 0;
      var ok := Delegate(Planner, taskId, pricing[0]);
      if !ok {
        return;
      }
      n := 1;
      ok := Delegate(Researcher, taskId, pricing[1]);
      if !ok {
        return;
      }
      n := 2;
      ok := Delegate(CodeWriter, taskId, pricing[2]);
      if !ok {
        return;
      }
      n := 3;
      ok := Delegate(Reviewer, taskId, pricing[3]);
      if !ok {
        return;
      }
      n := 4;
      atGate := true;
    }
  }

  /** What the first i nodes actually cost. */
  function CostOf(pricing: seq<Pricing>, i: nat): real
    requires i <= |pricing|
  {
    if i == 0 then 0.0 else CostOf(pricing, i - 1) + pricing[i - 1].actual
  }

  lemma {:induction false} SpentAfter(tenantId: string, ledger: seq<Row>, month: nat, pricing: seq<Pricing>, i: nat)
    requires i <= |pricing|
    ensures Spent(LedgerAfter(tenantId, ledger, month, pricing, i), OwnerAccount(tenantId, tenantId), month)
         == Spent(ledger, OwnerAccount(tenantId, tenantId), month) + CostOf(pricing, i)
  {
    if i > 0 {
      SpentAfter(tenantId, ledger, month, pricing, i - 1);
      var before := LedgerAfter(tenantId, ledger, month, pricing, i - 1);
      assert LedgerAfter(tenantId, ledger, month, pricing, i)[..|before|] == before;
    }
  }

  /** The estimate of the i-th node is within the task cap, and within what the month's cap leaves after the spend
      so far and what the nodes before it cost. */
  predicate Fits(settings: Settings, tenantId: string, ledger: seq<Row>, month: nat, pricing: seq<Pricing>, i: nat)
    requires i < |pricing|
  {
    && pricing[i].estimate <= settings.perTaskCap
    && pricing[i].estimate
       <= settings.monthlyCap - Spent(ledger, OwnerAccount(tenantId, tenantId), month) - CostOf(pricing, i)
  }

  /** A run gets through exactly the nodes before the first whose estimate does not fit. */
  lemma ThroughIff(settings: Settings, tenantId: string, ledger: seq<Row>, month: nat, pricing: seq<Pricing>, n: nat)
    requires |pricing| == |NODES|
    ensures GetsThrough(settings, tenantId, ledger, month, pricing, n)
       <==> && n <= |NODES| && (forall i :: 0 <= i < n ==> Fits(settings, tenantId, ledger, month, pricing, i))
            && (n < |NODES| ==> !Fits(settings, tenantId, ledger, month, pricing, n))
  {
    hide LedgerAfter;
    hide Spent;
    forall i: nat | i < |NODES|
      ensures Passes(settings, LedgerAfter(tenantId, ledger, month, pricing, i), month,
                     Delegated(tenantId, pricing[i].estimate))
         <==> Fits(settings, tenantId, ledger, month, pricing, i)
    {
      SpentAfter(tenantId, ledger, month, pricing, i);
    }
  }

  /** How far a run gets is determined by the ledger it starts from. */
  lemma GetsThroughUnique(settings: Settings, tenantId: string, ledger: seq<Row>, month: nat,
                          pricing: seq<Pricing>, n: nat, m: nat)
    requires |pricing| == |NODES|
    requires GetsThrough(settings, tenantId, ledger, month, pricing, n)
    requires GetsThrough(settings, tenantId, ledger, month, pricing, m)
    ensures n == m
  {
  }

  /** A run alone, with no call priced above its estimate, keeps the tenant within its monthly cap. */
  lemma {:induction false} RunStaysWithinCap(settings: Settings, tenantId: string, ledger: seq<Row>, month: nat,
                                             pricing: seq<Pricing>, n: nat, i: nat)
    requires |pricing| == |NODES| && GetsThrough(settings, tenantId, ledger, month, pricing, n) && i <= n
    requires forall j :: 0 <= j < |pricing| ==> pricing[j].actual <= pricing[j].estimate
    requires Spent(ledger, OwnerAccount(tenantId, tenantId), month) <= settings.monthlyCap
    ensures Spent(LedgerAfter(tenantId, ledger, month, pricing, i), OwnerAccount(tenantId, tenantId), month)
         <= settings.monthlyCap
  {
    if i > 0 {
      RunStaysWithinCap(settings, tenantId, ledger, month, pricing, n, i - 1);
      var before := LedgerAfter(tenantId, ledger, month, pricing, i - 1);
      assert Passes(settings, before, month, Delegated(tenantId, pricing[i - 1].estimate));
      assert LedgerAfter(tenantId, ledger, month, pricing, i)[..|before|] == before;
    }
  }
}
