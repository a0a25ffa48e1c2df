/** The in-memory repository. Each call is one step of the protocol: its ghost `step` says whose turn
    it is, and the ghost `world` follows along. */
module Repository {
  import opened Lifecycle
  import opened Records
  import opened Protocol

  class InMemoryRepository {
    const hash: string -> string
    var tasks: map<Id, TaskRecord>
    var events: seq<TaskEvent>
    var calls: map<Id, ToolCall>
    var callOrder: seq<Id>
    var approvals: map<Id, ApprovalRecord>
    var approvalOrder: seq<Id>
    var gateway: seq<GatewayEvent>
    var clock: nat

    ghost var world: World
    ghost var trail: seq<Label>

    ghost function Model(): Store
      reads this
    {
      Store(tasks, events, calls, callOrder, approvals, approvalOrder, gateway)
    }

    /** The stored records are those of the protocol world reached by the steps so far. */
    ghost predicate Valid()
      reads this
    {
      world == Run(hash, INITIAL, trail) && world.store == Model() && world.clock == clock
    }

    constructor (hash: string -> string)
      ensures Valid() && this.hash == hash && trail == [] && world == INITIAL
    {
      this.hash := hash;
      tasks, events, calls, callOrder, gateway := map[], [], map[], [], [];
      approvals, approvalOrder := map[], [];
      clock := 0;
      world, trail := INITIAL, [];
    }

    /** Takes the protocol step that the call just made stands for. */
    ghost method Follow(step: Label, before: Store)
      requires world == Run(hash, INITIAL, trail) && world.store == before && world.clock == clock
      requires Model() == ExecSome(before, Effect(hash, world, step))
      modifies this`world, this`trail
      ensures world == Next(hash, old(world), step) && trail == old(trail) + [step]
      ensures world == Run(hash, INITIAL, trail) && world.store == Model() && world.clock == clock + 1
    {
      hide Next;
      assert (trail + [step])[..|trail|] == trail;
      NextStore(hash, world, step);
      world, trail := Next(hash, world, step), trail + [step];
    }

    /** A step without a repository call of its own: time passes. */
    method Tick(ghost step: Label)
      requires Valid() && Effect(hash, world, step) == None
      modifies this`clock, this`world, this`trail
      ensures Valid() && world == Next(hash, old(world), step) && trail == old(trail) + [step]
    {
      Follow(step, Model());
      clock := clock + 1;
    }

    method CreateTask(task: TaskRecord, ghost step: Label)
      requires Valid() && Effect(hash, world, step) == Some(PutTask(task))
      modifies this
      ensures Valid() && world == Next(hash, old(world), step) && trail == old(trail) + [step]
      ensures tasks == old(tasks)[task.taskId := task]
      ensures unchanged(this`events, this`calls, this`callOrder, this`approvals, this`approvalOrder, this`gateway)
    {
      ghost var before := Model();
      tasks := tasks[task.taskId := task];
      Follow(step, before);
      clock := clock + 1;
    }

    method GetTask(t: Id, ghost step: Label) returns (task: Option<TaskRecord>)
      requires Valid() && Effect(hash, world, step) == None
      modifies this`clock, this`world, this`trail
      ensures Valid() && world == Next(hash, old(world), step) && trail == old(trail) + [step]
      ensures task == if t in tasks then Some(tasks[t]) else None
    {
      Tick(step);
      task := if t in tasks then Some(tasks[t]) else None;
    }

    /** Returns the updated record, or nothing when the task is unknown or the move is illegal. */
    method TransitionTask(t: Id, target: TaskState, note: string, ghost step: Label)
      returns (updated: Option<TaskRecord>)
      requires Valid() && Effect(hash, world, step) == Some(Transition(t, target, note, clock))
      modifies this
      ensures Valid() && world == Next(hash, old(world), step) && trail == old(trail) + [step]
      ensures updated.Some? <==> t in old(tasks) && CanTransition(old(tasks)[t].state, target)
      ensures updated.Some? ==>
                && updated.value == old(tasks)[t].(state := target, updatedAt := old(clock))
                && tasks == old(tasks)[t := updated.value]
                && events == old(events) + [TaskEvent(t, old(tasks)[t].tenantId, target, note)]
      ensures updated.None? ==> tasks == old(tasks) && events == old(events)
      ensures unchanged(this`calls, this`callOrder, this`approvals, this`approvalOrder, this`gateway)
    {
      ghost var before := Model();
      updated := None;
      if t in tasks && CanTransition(tasks[t].state, target) {
        var task := tasks[t].(state := target, updatedAt := clock);
        tasks := tasks[t := task];
        events := events + [TaskEvent(t, task.tenantId, target, note)];
        updated := Some(task);
      }
      Follow(step, before);
      clock := clock + 1;
    }

    method UpsertToolCall(call: ToolCall, ghost step: Label)
      requires Valid() && Effect(hash, world, step) == Some(PutCall(call))
      modifies this
      ensures Valid() && world == Next(hash, old(world), step) && trail == old(trail) + [step]
      ensures calls == old(calls)[call.callId := call]
      ensures callOrder == old(callOrder) + (if call.callId in old(calls) then [] else [call.callId])
      ensures unchanged(this`tasks, this`events, this`approvals, this`approvalOrder, this`gateway)
    {
      ghost var before := Model();
      if call.callId !in calls {
        callOrder := callOrder + [call.callId];
      }
      calls := calls[call.callId := call];
      Follow(step, before);
      clock := clock + 1;
    }

    method ListToolCalls(t: Id, tenantId: string, ghost step: Label) returns (rows: seq<ToolCall>)
      requires Valid() && Effect(hash, world, step) == None
      modifies this`clock, this`world, this`trail
      ensures Valid() && world == Next(hash, old(world), step) && trail == old(trail) + [step]
      ensures rows == ListCalls(calls, callOrder, t, tenantId) && InInsertionOrder(rows, calls, callOrder, t, tenantId)
    {
      hide Next;
      hide Effect;
      hide InInsertionOrder;
      Tick(step);
      ListsInOrder(calls, callOrder, t, tenantId);
      rows := [];
      for i := 0 to |callOrder|
        invariant rows == ListCalls(calls, callOrder[..i], t, tenantId)
      {
        assert callOrder[..i + 1][..i] == callOrder[..i];
        var c := callOrder[i];
        if c in calls && calls[c].taskId == t && calls[c].tenantId == tenantId {
          rows := rows + [calls[c]];
        }
      }
      assert callOrder[..|callOrder|] == callOrder;
    }

    method UpsertApproval(record: ApprovalRecord, ghost step: Label)
      requires Valid() && Effect(hash, world, step) == Some(PutApproval(record))
      modifies this
      ensures Valid() && world == Next(hash, old(world), step) && trail == old(trail) + [step]
      ensures approvals == old(approvals)[record.recordId := record]
      ensures approvalOrder
           == old(approvalOrder) + (if record.recordId in old(approvals) then [] else [record.recordId])
      ensures unchanged(this`tasks, this`events, this`calls, this`callOrder, this`gateway)
    {
      ghost var before := Model();
      if record.recordId !in approvals {
        approvalOrder := approvalOrder + [record.recordId];
      }
      approvals := approvals[record.recordId := record];
      Follow(step, before);
      clock := clock + 1;
    }

    method GetApproval(r: Id, ghost step: Label) returns (record: Option<ApprovalRecord>)
      requires Valid() && Effect(hash, world, step) == None
      modifies this`clock, this`world, this`trail
      ensures Valid() && world == Next(hash, old(world), step) && trail == old(trail) + [step]
      ensures record == if r in approvals then Some(approvals[r]) else None
    {
      Tick(step);
      record := if r in approvals then Some(approvals[r]) else None;
    }

    method RecordGatewayEvent(event: GatewayEvent, ghost step: Label)
      requires Valid() && Effect(hash, world, step) == Some(PutGateway(event))
      modifies this
      ensures Valid() && world == Next(hash, old(world), step) && trail == old(trail) + [step]
      ensures gateway == old(gateway) + [event]
      ensures unchanged(this`tasks, this`events, this`calls, this`callOrder, this`approvals, this`approvalOrder)
    {
      ghost var before := Model();
      gateway := gateway + [event];
      Follow(step, before);
      clock := clock + 1;
    }
  }

  lemma NextStore(hash: string -> string, w: World, l: Label)
    ensures Next(hash, w, l).store == ExecSome(w.store, Effect(hash, w, l))
    ensures Next(hash, w, l).clock == w.clock + 1
  {
    hide Effect;
  }
}
