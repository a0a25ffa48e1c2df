/** Over a whole run without crashes, whatever its deliveries read, no write call is executed twice. */
module ExecutesOnce {
  import opened Lifecycle
  import opened Records
  import opened Protocol
  import LR = LogReplay

  /** A copy of a call that still names the task its stored row names. */
  predicate Known(s: Store, call: ToolCall) {
    call.callId in s.calls && s.calls[call.callId].taskId == call.taskId
  }

  predicate Distinct(calls: seq<ToolCall>) {
    forall i, j :: 0 <= i < j < |calls| ==> calls[i].callId != calls[j].callId
  }

  predicate ListOk(s: Store, calls: seq<ToolCall>) {
    Distinct(calls) && forall i :: 0 <= i < |calls| ==> Known(s, calls[i])
  }

  predicate PcOk(s: Store, pc: WorkerPc) {
    match pc
    case OpenApproval(_, _, _, _, call) => Known(s, call)
    case LinkCall(_, _, _, _, call, _) => Known(s, call)
    case FetchRecord(calls, _) => ListOk(s, calls)
    case Settle(calls, _, _) => ListOk(s, calls)
    case _ => true
  }

  predicate Passed(calls: seq<ToolCall>, k: nat, callId: Id) {
    exists i :: 0 <= i < k && i < |calls| && calls[i].callId == callId
  }

  /** The resume loop of the task is past this call. */
  predicate Behind(state: TaskState, pc: Option<WorkerPc>, callId: Id) {
    || state == Completed
    || (state == Approved && pc.Some? &&
        match pc.value
        case FetchRecord(calls, k) => Passed(calls, k, callId)
        case Settle(calls, k, _) => Passed(calls, k, callId)
        case Finish => true
        case _ => false)
  }

  ghost predicate TablesOk(w: World) {
    && (forall c :: c in w.store.calls ==> w.store.calls[c].callId == c && c < w.clock)
    && (forall i :: 0 <= i < |w.store.callOrder| ==> w.store.callOrder[i] in w.store.calls)
    && (forall i, j :: 0 <= i < j < |w.store.callOrder| ==> w.store.callOrder[i] != w.store.callOrder[j])
    && (forall t :: t in w.workers ==> PcOk(w.store, w.workers[t]))
  }

  ghost predicate ExecOk(w: World, e: Execution) {
    e.gate.Some? ==>
      && Known(w.store, e.call) && e.call.taskId in w.store.tasks
      && Behind(w.store.tasks[e.call.taskId].state, LR.PcOf(w, e.call.taskId), e.call.callId)
  }

  ghost predicate Once(execs: seq<Execution>) {
    forall i, j :: 0 <= i < j < |execs| && execs[i].gate.Some? && execs[j].gate.Some? ==>
      execs[i].call.callId != execs[j].call.callId
  }

  ghost predicate Inv(w: World) {
    && LR.Inv(w) && TablesOk(w) && Once(w.execs)
    && (forall i :: 0 <= i < |w.execs| ==> ExecOk(w, w.execs[i]))
  }

  lemma {:induction false} ListedOk(s: Store, order: seq<Id>, t: Id, tenantId: string)
    requires forall c :: c in s.calls ==> s.calls[c].callId == c
    requires forall i, j :: 0 <= i < j < |order| ==> order[i] != order[j]
    ensures ListOk(s, ListCalls(s.calls, order, t, tenantId))
    ensures forall i :: 0 <= i < |ListCalls(s.calls, order, t, tenantId)| ==>
              ListCalls(s.calls, order, t, tenantId)[i].callId in order
  {
    if order != [] {
      ListedOk(s, order[..|order| - 1], t, tenantId);
    }
  }

  /** What a worker's turn does to the call table. */
  predicate TurnOk(s: Store, now: Id, turn: Turn) {
    && (turn.call.Some? && turn.call.value.PutCall? ==>
          turn.call.value.call.callId == now || Known(s, turn.call.value.call))
    && (turn.next.Some? ==> PcOk(ExecSome(s, turn.call), turn.next.value))
  }

  ghost predicate CallsOk(s: Store, now: Id) {
    && (forall c :: c in s.calls ==> s.calls[c].callId == c && c < now)
    && (forall i, j :: 0 <= i < j < |s.callOrder| ==> s.callOrder[i] != s.callOrder[j])
  }

  lemma WorkerTurnOk(hash: string -> string, s: Store, t: Id, pc: WorkerPc, now: nat, input: Input)
    requires t in s.tasks && PcOk(s, pc) && CallsOk(s, now)
    ensures TurnOk(s, now, WorkerTurn(hash, s, t, pc, now, input))
  {
    hide WorkerTurn;
    hide TurnOk;
    hide PcOk;
    if pc.ListPending? || pc.FetchRecord? || pc.Settle? {
      LoopTurnOk(hash, s, t, pc, now, input);
    } else {
      PlainTurnOk(hash, s, t, pc, now, input);
    }
  }

  lemma LoopTurnOk(hash: string -> string, s: Store, t: Id, pc: WorkerPc, now: nat, input: Input)
    requires t in s.tasks && PcOk(s, pc) && CallsOk(s, now) && (pc.ListPending? || pc.FetchRecord? || pc.Settle?)
    ensures TurnOk(s, now, WorkerTurn(hash, s, t, pc, now, input))
  {
    hide IsApproved;
    if pc.ListPending? {
      ListedOk(s, s.callOrder, t, pc.task.tenantId);
    }
    hide ListCalls;
  }

  lemma PlainTurnOk(hash: string -> string, s: Store, t: Id, pc: WorkerPc, now: nat, input: Input)
    requires t in s.tasks && PcOk(s, pc) && CallsOk(s, now) && !(pc.ListPending? || pc.FetchRecord? || pc.Settle?)
    ensures TurnOk(s, now, WorkerTurn(hash, s, t, pc, now, input))
  {
    hide ReadSummary;
    hide CompletionSummary;
    hide ListCalls;
  }

  lemma KnownStays(s: Store, now: Id, c: Option<RepoCall>, call: ToolCall)
    requires Known(s, call) && call.callId < now
    requires c.Some? && c.value.PutCall? ==> c.value.call.callId == now || Known(s, c.value.call)
    ensures Known(ExecSome(s, c), call)
  {
  }

  lemma PcStays(s: Store, now: Id, c: Option<RepoCall>, pc: WorkerPc)
    requires PcOk(s, pc) && CallsOk(s, now)
    requires c.Some? && c.value.PutCall? ==> c.value.call.callId == now || Known(s, c.value.call)
    ensures PcOk(ExecSome(s, c), pc)
  {
    forall call | Known(s, call) ensures Known(ExecSome(s, c), call) {
      KnownStays(s, now, c, call);
    }
    hide Known;
    hide ExecSome;
  }

  /** A worker's turn never moves the resume loop back before a call, and moves it past the call it
      executes; that call was not behind it before. */
  lemma BehindTurn(hash: string -> string, s: Store, t: Id, pc: WorkerPc, now: nat, input: Input, callId: Id)
    requires t in s.tasks && LR.PcHolds(pc, s.tasks[t].state) && PcOk(s, pc)
    ensures var turn := WorkerTurn(hash, s, t, pc, now, input);
            var state' := LR.StateAfter(turn.call, s.tasks[t].state);
            && (Behind(s.tasks[t].state, Some(pc), callId) ==> Behind(state', turn.next, callId))
            && (turn.ran.Some? && turn.ran.value.gate.Some? ==>
                  && Behind(state', turn.next, turn.ran.value.call.callId)
                  && !Behind(s.tasks[t].state, Some(pc), turn.ran.value.call.callId)
                  && Known(s, turn.ran.value.call))
  {
    hide IsApproved;
    hide ReadSummary;
    hide CompletionSummary;
    hide ListCalls;
  }

  /** How one worker turn shows in the world, without the turn's own definition. */
  lemma WorkFacts(hash: string -> string, w: World, t: Id, input: Input) returns (turn: Turn, w': World)
    requires Inv(w) && t in w.workers
    ensures w' == Next(hash, w, Work(t, input))
    ensures turn == WorkerTurn(hash, w.store, t, w.workers[t], w.clock, input)
    ensures t in w.store.tasks
    ensures w'.store == ExecSome(w.store, turn.call) && w'.workers == Set(w.workers, t, turn.next)
    ensures w'.clock == w.clock + 1
    ensures w'.execs == if turn.ran.Some? then w.execs + [turn.ran.value] else w.execs
    ensures LR.TurnFits(w.store, t, turn) && TurnOk(w.store, w.clock, turn)
    ensures t in w'.store.tasks && w'.store.tasks[t].state == LR.StateAfter(turn.call, w.store.tasks[t].state)
  {
    hide WorkerTurn;
    hide LR.TurnFits;
    hide TurnOk;
    hide LR.PcHolds;
    hide LR.PcOwns;
    LR.PcFacts(w, t);
    w' := Next(hash, w, Work(t, input));
    turn := WorkerTurn(hash, w.store, t, w.workers[t], w.clock, input);
    LR.WorkerTurnFits(hash, w.store, t, w.workers[t], w.clock, input);
    StateAfterIs(w.store, t, turn);
    WorkerTurnOk(hash, w.store, t, w.workers[t], w.clock, input);
  }

  lemma StateAfterIs(s: Store, t: Id, turn: Turn)
    requires t in s.tasks && LR.TurnFits(s, t, turn)
    ensures t in ExecSome(s, turn.call).tasks
    ensures ExecSome(s, turn.call).tasks[t].state == LR.StateAfter(turn.call, s.tasks[t].state)
  {
  }

  ghost predicate Numbered(s: Store, now: Id) {
    && (forall c :: c in s.calls ==> s.calls[c].callId == c && c < now)
    && (forall i :: 0 <= i < |s.callOrder| ==> s.callOrder[i] in s.calls)
    && (forall i, j :: 0 <= i < j < |s.callOrder| ==> s.callOrder[i] != s.callOrder[j])
  }

  lemma NumberedKept(s: Store, now: Id, c: Option<RepoCall>)
    requires Numbered(s, now)
    requires c.Some? && c.value.PutCall? ==> c.value.call.callId == now || Known(s, c.value.call)
    ensures Numbered(ExecSome(s, c), now + 1)
  {
    hide Legal;
  }

  lemma WorkTables(w: World, w': World, t: Id, turn: Turn)
    requires TablesOk(w) && TurnOk(w.store, w.clock, turn)
    requires w'.store == ExecSome(w.store, turn.call) && w'.workers == Set(w.workers, t, turn.next)
    requires w'.clock == w.clock + 1
    ensures TablesOk(w')
  {
    hide PcOk;
    hide ExecSome;
    hide Known;
    NumberedKept(w.store, w.clock, turn.call);
    forall u | u in w'.workers ensures PcOk(w'.store, w'.workers[u]) {
      if u != t {
        PcStays(w.store, w.clock, turn.call, w.workers[u]);
      }
    }
  }

  lemma WorkOldExec(hash: string -> string, w: World, t: Id, input: Input, e: Execution)
    requires Inv(w) && t in w.workers && ExecOk(w, e)
    ensures ExecOk(Next(hash, w, Work(t, input)), e)
  {
    hide WorkerTurn;
    hide Next;
    hide LR.Inv;
    hide LR.TurnFits;
    hide LR.PcHolds;
    hide LR.PcOwns;
    hide PcOk;
    hide Behind;
    hide Known;
    hide ExecSome;
    var turn, w' := WorkFacts(hash, w, t, input);
    if e.gate.Some? {
      KnownBound(w, e.call);
      TurnPuts(w.store, w.clock, turn);
      KnownStays(w.store, w.clock, turn.call, e.call);
      if e.call.taskId == t {
        LR.PcFacts(w, t);
        BehindTurn(hash, w.store, t, w.workers[t], w.clock, input, e.call.callId);
      } else {
        LR.OthersFramed(w.store, t, turn);
      }
    }
  }

  lemma KnownBound(w: World, call: ToolCall)
    requires TablesOk(w) && Known(w.store, call)
    ensures call.callId < w.clock
  {
  }

  lemma TurnPuts(s: Store, now: Id, turn: Turn)
    requires TurnOk(s, now, turn)
    ensures turn.call.Some? && turn.call.value.PutCall? ==>
              turn.call.value.call.callId == now || Known(s, turn.call.value.call)
  {
  }

  /** A gated execution belongs to the worker's own task. */
  lemma RanIsOwn(hash: string -> string, s: Store, t: Id, pc: WorkerPc, now: nat, input: Input)
    requires t in s.tasks && LR.PcOwns(pc, t)
    ensures var turn := WorkerTurn(hash, s, t, pc, now, input);
            turn.ran.Some? && turn.ran.value.gate.Some? ==> turn.ran.value.call.taskId == t
  {
    hide IsApproved;
    hide ReadSummary;
  }

  lemma SameIdSameTask(s: Store, a: ToolCall, b: ToolCall)
    requires Known(s, a) && Known(s, b) && a.callId == b.callId
    ensures a.taskId == b.taskId
  {
  }

  lemma WorkNewExec(hash: string -> string, w: World, t: Id, input: Input)
    requires Inv(w) && t in w.workers
    ensures var turn := WorkerTurn(hash, w.store, t, w.workers[t], w.clock, input);
            turn.ran.Some? ==>
              && ExecOk(Next(hash, w, Work(t, input)), turn.ran.value)
              && forall i :: 0 <= i < |w.execs| && w.execs[i].gate.Some? && turn.ran.value.gate.Some? ==>
                   w.execs[i].call.callId != turn.ran.value.call.callId
  {
    hide WorkerTurn;
    hide Next;
    hide LR.Inv;
    hide LR.TurnFits;
    hide LR.PcHolds;
    hide LR.PcOwns;
    hide PcOk;
    hide Behind;
    hide Known;
    hide ExecSome;
    var turn, w' := WorkFacts(hash, w, t, input);
    LR.PcFacts(w, t);
    if turn.ran.Some? && turn.ran.value.gate.Some? {
      var call := turn.ran.value.call;
      BehindTurn(hash, w.store, t, w.workers[t], w.clock, input, call.callId);
      RanIsOwn(hash, w.store, t, w.workers[t], w.clock, input);
      KnownBound(w, call);
      TurnPuts(w.store, w.clock, turn);
      KnownStays(w.store, w.clock, turn.call, call);
      forall i | 0 <= i < |w.execs| && w.execs[i].gate.Some? && w.execs[i].call.callId == call.callId
        ensures false
      {
        assert ExecOk(w, w.execs[i]);
        SameIdSameTask(w.store, w.execs[i].call, call);
      }
    }
  }

  lemma WorkKeeps(hash: string -> string, w: World, t: Id, input: Input)
    requires Inv(w) && t in w.workers
    ensures Inv(Next(hash, w, Work(t, input)))
  {
    hide WorkerTurn;
    hide Next;
    hide LR.Inv;
    hide LR.TurnFits;
    hide TablesOk;
    hide TurnOk;
    hide ExecOk;
    hide ExecSome;
    LR.InvKept(hash, w, Work(t, input));
    var turn, w' := WorkFacts(hash, w, t, input);
    WorkTables(w, w', t, turn);
    WorkNewExec(hash, w, t, input);
    forall i | 0 <= i < |w.execs| ensures ExecOk(w', w.execs[i]) {
      WorkOldExec(hash, w, t, input, w.execs[i]);
    }
  }

  /** Ingress, deliveries and approvers do not disturb an execution already made. */
  lemma OtherExec(hash: string -> string, w: World, l: Label, e: Execution)
    requires Inv(w) && ExecOk(w, e) && !l.Crash? && (l.Work? ==> l.taskId !in w.workers)
    ensures ExecOk(Next(hash, w, l), e)
  {
    hide LR.Inv;
    hide WorkerTurn;
    if e.gate.Some? {
      var t, c := e.call.taskId, Effect(hash, w, l);
      TaskBound(w, t);
      assert w.store.tasks[t].state in {Approved, Completed};
      OtherState(hash, w, l, t);
      OtherKnown(hash, w, l, e.call);
    }
    hide Next;
  }

  lemma TaskBound(w: World, t: Id)
    requires LR.Inv(w) && t in w.store.tasks
    ensures t < w.clock
  {
  }

  lemma OtherState(hash: string -> string, w: World, l: Label, t: Id)
    requires t in w.store.tasks && w.store.tasks[t].state in {Approved, Completed}
    requires t < w.clock && (l.Work? ==> l.taskId !in w.workers) && !l.Crash?
    ensures var w' := Next(hash, w, l);
            && t in w'.store.tasks && w'.store.tasks[t].state == w.store.tasks[t].state
            && (t in w.workers ==> LR.PcOf(w', t) == LR.PcOf(w, t))
  {
    hide WorkerTurn;
  }

  lemma OtherKnown(hash: string -> string, w: World, l: Label, call: ToolCall)
    requires Known(w.store, call) && (l.Work? ==> l.taskId !in w.workers)
    ensures Known(Next(hash, w, l).store, call)
  {
    hide WorkerTurn;
    hide CanTransition;
  }

  lemma OtherTables(hash: string -> string, w: World, l: Label)
    requires TablesOk(w) && (l.Work? ==> l.taskId !in w.workers)
    ensures TablesOk(Next(hash, w, l))
  {
    hide WorkerTurn;
    hide CanTransition;
    var w' := Next(hash, w, l);
    forall t | t in w'.workers ensures PcOk(w'.store, w'.workers[t]) {
      if t in w.workers {
        PcStays(w.store, w.clock, Effect(hash, w, l), w.workers[t]);
      }
    }
    hide PcOk;
  }

  lemma OthersKeep(hash: string -> string, w: World, l: Label)
    requires Inv(w) && !l.Crash? && (l.Work? ==> l.taskId !in w.workers)
    ensures Inv(Next(hash, w, l))
  {
    hide LR.Inv;
    hide TablesOk;
    hide ExecOk;
    hide WorkerTurn;
    LR.InvKept(hash, w, l);
    OtherTables(hash, w, l);
    forall i | 0 <= i < |w.execs| ensures ExecOk(Next(hash, w, l), w.execs[i]) {
      OtherExec(hash, w, l, w.execs[i]);
    }
  }

  lemma {:induction false} RunKeeps(hash: string -> string, labels: seq<Label>)
    requires CrashFree(labels)
    ensures Inv(Run(hash, INITIAL, labels))
  {
    if labels != [] {
      var before, l := labels[..|labels| - 1], labels[|labels| - 1];
      RunKeeps(hash, before);
      if l.Work? && l.taskId in Run(hash, INITIAL, before).workers {
        WorkKeeps(hash, Run(hash, INITIAL, before), l.taskId, l.input);
      } else {
        OthersKeep(hash, Run(hash, INITIAL, before), l);
      }
    }
    hide Next;
  }

  /** In every run without crashes no write call is executed twice. */
  lemma ExecutesAtMostOnce(hash: string -> string, labels: seq<Label>, w: World, i: nat, j: nat)
    requires CrashFree(labels) && w == Run(hash, INITIAL, labels)
    requires i < j < |w.execs| && w.execs[i].gate.Some? && w.execs[j].gate.Some?
    ensures w.execs[i].call.callId != w.execs[j].call.callId
  {
    RunKeeps(hash, labels);
  }
}
