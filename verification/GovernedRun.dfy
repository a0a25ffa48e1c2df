/** A fresh run and the graph it runs, put together: what a budget refusal in the middle of the graph leaves in
    the store, in the audit rows and in the budget ledger. */
module GovernedRun {
  import opened Lifecycle
  import opened Records
  import opened Budget
  import opened MeshGraph
  import P = Protocol
  import Runner

  /** What a worker makes of a graph run that got through n nodes. */
  function PlanOf(tenantId: string, n: nat, result: P.MeshResult): Runner.Plan {
    if n < |NODES| then Runner.Halted(tenantId) else Runner.Planned(result)
  }

  lemma {:induction false} LedgerGrows(tenantId: string, ledger: seq<Row>, month: nat, pricing: seq<Pricing>, i: nat)
    requires i <= |pricing|
    ensures var after := LedgerAfter(tenantId, ledger, month, pricing, i);
            && |after| == |ledger| + i && after[..|ledger|] == ledger
            && forall j :: 0 <= j < i ==> after[|ledger| + j].cost == pricing[j].actual
  {
    if i > 0 {
      LedgerGrows(tenantId, ledger, month, pricing, i - 1);
    }
  }

  /** The task fails exactly when some node's check refuses. Then exactly the nodes before it were charged, at
      their actual cost: the refused call left no ledger row and no later node ran. The run added one halt event
      of the refusal to the store, and no tool call and no approval record. */
  lemma RefusalHalts(hash: string -> string, execute: ToolCall -> P.Outcome, s: Store, s': Store, task: TaskRecord,
                     result: P.MeshResult, readIds: seq<Id>, callIds: seq<Id>, recordIds: seq<Id>,
                     settings: Settings, tenantId: string, ledger: seq<Row>, month: nat, pricing: seq<Pricing>, n: nat)
    requires |pricing| == |NODES| && GetsThrough(settings, tenantId, ledger, month, pricing, n)
    requires Runner.FreshRun(hash, execute, s, s', task, PlanOf(tenantId, n, result), readIds, callIds, recordIds)
    ensures task.taskId in s'.tasks
    ensures s'.tasks[task.taskId].state == Failed
       <==> exists i :: 0 <= i < |NODES|
                     && !Passes(settings, LedgerAfter(tenantId, ledger, month, pricing, i), month,
                                Delegated(tenantId, pricing[i].estimate))
    ensures s'.tasks[task.taskId].state == Failed ==>
              var after := LedgerAfter(tenantId, ledger, month, pricing, n);
              && n < |NODES| && |after| == |ledger| + n && after[..|ledger|] == ledger
              && (forall j :: 0 <= j < n ==> after[|ledger| + j].cost == pricing[j].actual)
              && !Passes(settings, after, month, Delegated(tenantId, pricing[n].estimate))
              && s'.gateway == s.gateway + [GatewayEvent(task.taskId, tenantId, "budget_halt", "block")]
              && s'.calls == s.calls && s'.approvals == s.approvals
              && (forall u :: u in s.tasks && u != task.taskId ==> u in s'.tasks && s'.tasks[u] == s.tasks[u])
  {
    hide Passes;
    Runner.FreshEnds(hash, execute, s, s', task, PlanOf(tenantId, n, result), readIds, callIds, recordIds);
    LedgerGrows(tenantId, ledger, month, pricing, n);
    hide LedgerAfter;
    if n == |NODES| {
      hide Runner.FreshRun;
      assert forall i :: 0 <= i < n ==> Passes(settings, LedgerAfter(tenantId, ledger, month, pricing, i), month,
                                               Delegated(tenantId, pricing[i].estimate));
    }
  }

  /** The ledger after n nodes: their rows at their actual costs, and no other. */
  ghost predicate ChargedFor(before: seq<Row>, after: seq<Row>, pricing: seq<Pricing>, n: nat) {
    && n <= |pricing| && |after| == |before| + n && after[..|before|] == before
    && forall j :: 0 <= j < n ==> after[|before| + j].cost == pricing[j].actual
  }

  lemma ThroughAtMost(settings: Settings, tenantId: string, ledger: seq<Row>, month: nat, pricing: seq<Pricing>, n: nat)
    requires |pricing| == |NODES| && GetsThrough(settings, tenantId, ledger, month, pricing, n)
    ensures n <= |NODES|
  {
  }

  /** Runs the graph; what it comes to is a plan for the worker. */
  method RunGraph(graph: Graph, task: TaskRecord, pricing: seq<Pricing>, result: P.MeshResult)
    returns (plan: Runner.Plan, ghost n: nat)
    requires MeshGraph.Numbered(graph.tracker.ledger) && |pricing| == |NODES|
    modifies graph, graph.tracker
    ensures GetsThrough(graph.tracker.settings, graph.tenantId, old(graph.tracker.ledger), graph.tracker.month,
                        pricing, n)
    ensures MeshGraph.Numbered(graph.tracker.ledger) && n <= |NODES| && plan == PlanOf(graph.tenantId, n, result)
    ensures graph.called == old(graph.called) + NODES[..n]
    ensures ChargedFor(old(graph.tracker.ledger), graph.tracker.ledger, pricing, n)
    ensures graph.gateway == old(graph.gateway)
            + (if plan.Halted? then [GatewayEvent(task.taskId, graph.tenantId, "budget_halt", "block")] else [])
  {
    hide Passes;
    hide GetsThrough;
    var atGate;
    ghost var ledger := graph.tracker.ledger;
    atGate, n := graph.Invoke(task.taskId, pricing);
    ThroughAtMost(graph.tracker.settings, graph.tenantId, ledger, graph.tracker.month, pricing, n);
    LedgerGrows(graph.tenantId, ledger, graph.tracker.month, pricing, n);
    hide LedgerAfter;
    plan := if atGate then Runner.Planned(result) else Runner.Halted(graph.tenantId);
  }

  /** The graph runs between the claim and what the plan asks for. The task fails exactly when some node's check
      refused; the nodes before it are all that ran and all that was charged, and the store shows the one audit
      row the graph wrote. */
  method RunGoverned(worker: Runner.Worker, graph: Graph, task: TaskRecord, pricing: seq<Pricing>, result: P.MeshResult)
    returns (r: Runner.Processed, ghost n: nat)
    requires worker.repo.Valid() && Runner.At(worker.repo.world, task.taskId, P.Claim(task))
    requires worker.repo.world.store.tasks[task.taskId] == task
    requires MeshGraph.Numbered(graph.tracker.ledger) && |pricing| == |NODES|
    modifies worker.repo, graph, graph.tracker
    ensures worker.repo.Valid() && task.taskId !in worker.repo.world.workers
    ensures MeshGraph.Numbered(graph.tracker.ledger)
    ensures Runner.OnlyWorks(old(worker.repo.world), old(worker.repo.trail), worker.repo.world, worker.repo.trail,
                             task.taskId)
    ensures r.IllegalTransition? <==> !CanTransition(task.state, Running)
    ensures r.IllegalTransition? ==> worker.repo.Model() == old(worker.repo.Model()) && unchanged(graph, graph.tracker)
    ensures !r.IllegalTransition? ==>
              && GetsThrough(graph.tracker.settings, graph.tenantId, old(graph.tracker.ledger), graph.tracker.month,
                             pricing, n)
              && n <= |NODES| && (r == Runner.State(Failed) <==> n < |NODES|)
              && graph.called == old(graph.called) + NODES[..n]
              && ChargedFor(old(graph.tracker.ledger), graph.tracker.ledger, pricing, n)
    ensures r == Runner.State(Failed) ==>
              var audit := [GatewayEvent(task.taskId, graph.tenantId, "budget_halt", "block")];
              && graph.gateway == old(graph.gateway) + audit
              && worker.repo.gateway == old(worker.repo.gateway) + audit
              && worker.repo.calls == old(worker.repo.calls) && worker.repo.approvals == old(worker.repo.approvals)
  {
    hide GetsThrough;
    hide ChargedFor;
    hide P.Run;
    hide P.Next;
    hide Runner.OnlyWorks;
    hide Runner.Claimed;
    hide Runner.ReadOnlyRun;
    hide Runner.ParkedRun;
    hide Runner.Moved;
    ghost var w0, trail0, s := worker.repo.world, worker.repo.trail, worker.repo.Model();
    var claimed := worker.Claim(task);
    if !claimed {
      return Runner.IllegalTransition, 0;
    }
    ghost var w1, trail1 := worker.repo.world, worker.repo.trail;
    var plan;
    plan, n := RunGraph(graph, task, pricing, result);
    var state;
    ghost var readIds, callIds, recordIds;
    state, readIds, callIds, recordIds := worker.RunPlan(task, plan, s);
    Runner.WorksOn(w0, trail0, w1, trail1, worker.repo.world, worker.repo.trail, task.taskId);
    Runner.FreshEnds(worker.repo.hash, worker.execute, s, worker.repo.Model(), task, plan, readIds, callIds, recordIds);
    r := Runner.State(state);
  }
}
