/** Concurrent `transition_task` calls of the SQL repository, with the read and the guarded UPDATE as
    separate steps and raw row write-backs in between: each successful call is one atomic transition at its
    UPDATE. */
module TransitionRace {
  import opened Lifecycle
  import opened Records
  import opened SqlTables
  import LR = LogReplay

  datatype Outcome = UnknownTask | IllegalTransition | LostRace | Committed

  /** A caller between its read and its UPDATE. */
  datatype Attempt = Attempt(taskId: Id, seen: TaskState, target: TaskState, tenantId: string, note: string)

  datatype Race = Race(
    db: Db,
    pending: map<Id, Attempt>,
    outcomes: map<Id, Outcome>,
    // Specification only: the atomic calls that the committed transitions and the write-backs amount to,
    // in the order they reached the database, and the callers of the transitions.
    linear: seq<RepoCall>,
    winners: seq<Id>,
    clock: nat)

  datatype Step =
    | Begin(caller: Id, taskId: Id, target: TaskState, note: string)
    | Update(caller: Id)
    | WriteBack(task: TaskRecord)

  function Outcomes(r: Race, caller: Id, o: Outcome): Race {
    r.(outcomes := r.outcomes[caller := o], pending := r.pending - {caller}, clock := r.clock + 1)
  }

  /** `UPDATE ... WHERE task_id AND state`, with the event insert of the same transaction. */
  function GuardedUpdate(db: Db, p: Attempt, now: nat): (Db, bool) {
    if p.taskId in db.tasks && db.tasks[p.taskId].state == p.seen then
      (db.(tasks := db.tasks[p.taskId := db.tasks[p.taskId].(state := p.target, updatedAt := now)],
           events := db.events + [TaskEvent(p.taskId, p.tenantId, p.target, p.note)],
           eventStamps := db.eventStamps + [now]), true)
    else (db, false)
  }

  /** A raw upsert of a copy of a stored row, changed at most in the columns an upsert sets. */
  predicate IsCopy(db: Db, task: TaskRecord) {
    task.taskId in db.tasks
    && var was := ReadTask(db, task.taskId);
       && SameTask(task, was.(state := task.state, resultSummary := task.resultSummary, error := task.error,
                              modelRouteProfile := task.modelRouteProfile, metadata := task.metadata))
       && (task.metadata.IsEmpty() ==> was.metadata.IsEmpty())
  }

  function Next(r: Race, step: Step): Race {
    match step
    case Begin(caller, t, target, note) =>
      if caller in r.pending || caller in r.outcomes then r
      else if t !in r.db.tasks then Outcomes(r, caller, UnknownTask)
      else if !CanTransition(r.db.tasks[t].state, target) then Outcomes(r, caller, IllegalTransition)
      else
        var row := r.db.tasks[t];
        r.(pending := r.pending[caller := Attempt(t, row.state, target, row.tenantId, note)])
    case Update(caller) =>
      if caller !in r.pending then r
      else
        var p := r.pending[caller];
        var (db', won) := GuardedUpdate(r.db, p, r.clock);
        if won then
          Outcomes(r, caller, Committed).(db := db',
            linear := r.linear + [Transition(p.taskId, p.target, p.note, r.clock)],
            winners := r.winners + [caller])
        else Outcomes(r, caller, LostRace)
    case WriteBack(task) =>
      if IsCopy(r.db, task)
      then r.(db := SqlExec(r.db, PutTask(task), r.clock), linear := r.linear + [PutTask(task)], clock := r.clock + 1)
      else r
  }

  function Run(r: Race, steps: seq<Step>): Race {
    if steps == [] then r else Next(Run(r, steps[..|steps| - 1]), steps[|steps| - 1])
  }

  /** The in-memory repository after a sequence of atomic calls. */
  function ExecAll(s: Store, calls: seq<RepoCall>): Store {
    if calls == [] then s else Exec(ExecAll(s, calls[..|calls| - 1]), calls[|calls| - 1])
  }

  /** A transition that succeeds, or an upsert of a known task. */
  predicate Succeeds(s: Store, c: RepoCall) {
    (c.Transition? && Legal(s, c.taskId, c.target)) || (c.PutTask? && c.task.taskId in s.tasks)
  }

  /** Every call of the sequence succeeds when its turn comes. */
  predicate AllSucceed(s: Store, calls: seq<RepoCall>) {
    forall i :: 0 <= i < |calls| ==> Succeeds(ExecAll(s, calls[..i]), calls[i])
  }

  /** How many of the calls are transitions. */
  function Moves(calls: seq<RepoCall>): nat {
    if calls == [] then 0
    else Moves(calls[..|calls| - 1]) + (if calls[|calls| - 1].Transition? then 1 else 0)
  }

  /** What a pending caller validated cannot be invalidated by others: the table is constant and the
      tenant of a row never changes. */
  predicate PendingOk(db: Db, p: Attempt) {
    p.taskId in db.tasks && CanTransition(p.seen, p.target) && db.tasks[p.taskId].tenantId == p.tenantId
  }

  /** One transition for each caller that committed, and none for any other. */
  ghost predicate OneEach(r: Race) {
    && |r.winners| == Moves(r.linear)
    && (forall i, j :: 0 <= i < j < |r.winners| ==> r.winners[i] != r.winners[j])
    && (forall a :: a in r.winners <==> a in r.outcomes && r.outcomes[a] == Committed)
    && (forall a :: a in r.pending ==> a !in r.outcomes)
  }

  ghost predicate Inv(s: Store, r: Race) {
    && OneEach(r)
    && AllSucceed(s, r.linear) && KeyedRight(ExecAll(s, r.linear))
    && Agree(ExecAll(s, r.linear), r.db)
    && (forall a :: a in r.pending ==> PendingOk(r.db, r.pending[a]))
  }

  /** What a caller is told: unknown task or illegal move from what it read; else whether the row was still in the
      state it read when its UPDATE came. */
  lemma CallersAreTold(r: Race, caller: Id, t: Id, target: TaskState, note: string)
    requires caller !in r.pending && caller !in r.outcomes
    ensures var r' := Next(r, Begin(caller, t, target, note));
            && r'.db == r.db
            && (caller in r'.outcomes && r'.outcomes[caller] == UnknownTask <==> t !in r.db.tasks)
            && (caller in r'.outcomes && r'.outcomes[caller] == IllegalTransition
                <==> t in r.db.tasks && !CanTransition(r.db.tasks[t].state, target))
            && (caller in r'.pending <==> t in r.db.tasks && CanTransition(r.db.tasks[t].state, target))
            && (caller in r'.pending ==>
                  r'.pending[caller] == Attempt(t, r.db.tasks[t].state, target, r.db.tasks[t].tenantId, note))
  {
  }

  lemma UpdatersAreTold(r: Race, caller: Id)
    requires caller in r.pending
    ensures var r', p := Next(r, Update(caller)), r.pending[caller];
            && caller in r'.outcomes && caller !in r'.pending
            && (r'.outcomes[caller] == Committed <==> p.taskId in r.db.tasks && r.db.tasks[p.taskId].state == p.seen)
            && (r'.outcomes[caller] == LostRace <==> r'.outcomes[caller] != Committed)
            && (r'.outcomes[caller] == LostRace ==> r'.db == r.db)
  {
  }

  /** A guarded UPDATE that matches is the atomic transition; one that does not changes nothing. */
  lemma GuardedIsAtomic(db: Db, p: Attempt, now: nat)
    requires PendingOk(db, p)
    ensures var (db', won) := GuardedUpdate(db, p, now);
            && (won <==> db.tasks[p.taskId].state == p.seen)
            && (won ==> db' == SqlExec(db, Transition(p.taskId, p.target, p.note, now), now))
            && (!won ==> db' == db)
  {
  }

  lemma ExecAllAppend(s: Store, calls: seq<RepoCall>, c: RepoCall)
    requires AllSucceed(s, calls) && Succeeds(ExecAll(s, calls), c) && KeyedRight(ExecAll(s, calls))
    ensures ExecAll(s, calls + [c]) == Exec(ExecAll(s, calls), c)
    ensures AllSucceed(s, calls + [c]) && KeyedRight(ExecAll(s, calls + [c]))
    ensures Moves(calls + [c]) == Moves(calls) + (if c.Transition? then 1 else 0)
  {
    assert (calls + [c])[..|calls|] == calls;
    hide Succeeds;
    forall i | 0 <= i < |calls| + 1 ensures Succeeds(ExecAll(s, (calls + [c])[..i]), (calls + [c])[i]) {
      assert i < |calls| ==> (calls + [c])[..i] == calls[..i];
    }
  }

  lemma CommitLinearises(s: Store, calls: seq<RepoCall>, db: Db, p: Attempt, now: nat)
    requires AllSucceed(s, calls) && KeyedRight(ExecAll(s, calls)) && Agree(ExecAll(s, calls), db)
    requires PendingOk(db, p) && db.tasks[p.taskId].state == p.seen
    ensures var calls' := calls + [Transition(p.taskId, p.target, p.note, now)];
            && AllSucceed(s, calls') && KeyedRight(ExecAll(s, calls')) && Moves(calls') == Moves(calls) + 1
            && Agree(ExecAll(s, calls'), GuardedUpdate(db, p, now).0)
  {
    hide SqlExec;
    hide Exec;
    hide AllSucceed;
    hide KeyedRight;
    hide ExecAll;
    hide Agree;
    hide GuardedUpdate;
    GuardedIsAtomic(db, p, now);
    SameState(ExecAll(s, calls), db, p.taskId);
    MoveAgrees(ExecAll(s, calls), db, p.taskId, p.target, p.note, now, now);
    ExecAllAppend(s, calls, Transition(p.taskId, p.target, p.note, now));
  }

  lemma CopyIsBenign(s: Store, db: Db, task: TaskRecord)
    requires Agree(s, db) && IsCopy(db, task)
    ensures task.taskId in s.tasks && TaskBenign(s, task)
  {
    assert SameTask(s.tasks[task.taskId], ReadTask(db, task.taskId));
    hide ReadRow;
    hide ReadMetadata;
  }

  /** A write-back is one atomic call too. */
  lemma WriteBackLinearises(s: Store, calls: seq<RepoCall>, db: Db, task: TaskRecord, now: nat)
    requires AllSucceed(s, calls) && KeyedRight(ExecAll(s, calls)) && Agree(ExecAll(s, calls), db) && IsCopy(db, task)
    ensures var calls' := calls + [PutTask(task)];
            && AllSucceed(s, calls') && KeyedRight(ExecAll(s, calls')) && Moves(calls') == Moves(calls)
            && Agree(ExecAll(s, calls'), SqlExec(db, PutTask(task), now))
  {
    hide SqlExec;
    hide Exec;
    hide AllSucceed;
    hide KeyedRight;
    hide ExecAll;
    hide Agree;
    hide TaskBenign;
    hide IsCopy;
    CopyIsBenign(ExecAll(s, calls), db, task);
    TaskAgree(ExecAll(s, calls), db, task, now);
    ExecAllAppend(s, calls, PutTask(task));
  }

  lemma PendingStays(db: Db, p: Attempt, now: nat, q: Attempt)
    requires PendingOk(db, p) && PendingOk(db, q)
    ensures PendingOk(GuardedUpdate(db, p, now).0, q)
  {
  }

  lemma PendingStaysBack(db: Db, task: TaskRecord, now: nat, q: Attempt)
    requires IsCopy(db, task) && PendingOk(db, q)
    ensures PendingOk(SqlExec(db, PutTask(task), now), q)
  {
  }

  lemma UpdateOneEach(r: Race, caller: Id)
    requires OneEach(r) && caller in r.pending
    ensures OneEach(Next(r, Update(caller)))
  {
    hide GuardedUpdate;
    var r', p := Next(r, Update(caller)), r.pending[caller];
    var c := Transition(p.taskId, p.target, p.note, r.clock);
    assert (r.linear + [c])[..|r.linear|] == r.linear;
    assert r'.winners == r.winners || r'.winners == r.winners + [caller];
  }

  lemma UpdateKeeps(s: Store, r: Race, caller: Id)
    requires Inv(s, r) && caller in r.pending
    ensures Inv(s, Next(r, Update(caller)))
  {
    hide GuardedUpdate;
    hide Agree;
    hide AllSucceed;
    hide KeyedRight;
    hide ExecAll;
    var p := r.pending[caller];
    GuardedIsAtomic(r.db, p, r.clock);
    UpdateOneEach(r, caller);
    hide OneEach;
    forall a | a in r.pending ensures PendingOk(GuardedUpdate(r.db, p, r.clock).0, r.pending[a]) {
      PendingStays(r.db, p, r.clock, r.pending[a]);
    }
    if r.db.tasks[p.taskId].state == p.seen {
      CommitLinearises(s, r.linear, r.db, p, r.clock);
    }
  }

  lemma BeginKeeps(s: Store, r: Race, step: Step)
    requires Inv(s, r) && !step.WriteBack? && (step.Update? ==> step.caller !in r.pending)
    ensures Inv(s, Next(r, step))
  {
    hide Agree;
    hide AllSucceed;
    hide KeyedRight;
    hide ExecAll;
    hide Moves;
  }

  lemma WriteBackKeeps(s: Store, r: Race, task: TaskRecord)
    requires Inv(s, r)
    ensures Inv(s, Next(r, WriteBack(task)))
  {
    hide Agree;
    hide AllSucceed;
    hide KeyedRight;
    hide ExecAll;
    hide SqlExec;
    hide Moves;
    hide PendingOk;
    if IsCopy(r.db, task) {
      WriteBackLinearises(s, r.linear, r.db, task, r.clock);
      forall a | a in r.pending ensures PendingOk(SqlExec(r.db, PutTask(task), r.clock), r.pending[a]) {
        PendingStaysBack(r.db, task, r.clock, r.pending[a]);
      }
    }
    hide IsCopy;
  }

  lemma SameState(s: Store, db: Db, t: Id)
    requires Agree(s, db) && t in db.tasks
    ensures t in s.tasks && s.tasks[t].state == db.tasks[t].state
  {
    assert SameTask(s.tasks[t], ReadTask(db, t));
  }

  /** For every schedule of any number of callers and of write-backs: the tables agree with the in-memory
      repository after the committed transitions and the write-backs alone, each executed atomically and
      successfully in the order it reached the database, with one transition for each committed caller. */
  lemma {:induction false} RaceLinearises(s: Store, db: Db, steps: seq<Step>)
    requires Agree(s, db) && KeyedRight(s)
    ensures var r := Run(Race(db, map[], map[], [], [], 0), steps);
            AllSucceed(s, r.linear) && Agree(ExecAll(s, r.linear), r.db) && OneEach(r) && Inv(s, r)
  {
    if steps != [] {
      RaceLinearises(s, db, steps[..|steps| - 1]);
      hide Next;
      hide Agree;
      hide AllSucceed;
      var r, step := Run(Race(db, map[], map[], [], [], 0), steps[..|steps| - 1]), steps[|steps| - 1];
      if step.Update? && step.caller in r.pending {
        UpdateKeeps(s, r, step.caller);
      } else if step.WriteBack? {
        WriteBackKeeps(s, r, step.task);
      } else {
        BeginKeeps(s, r, step);
      }
    }
  }

  // ---- Logs ----------------------------------------------------------------------------------

  /** The upsert carries the state its row has when it reaches the database. */
  predicate Current(s: Store, c: RepoCall) {
    c.PutTask? && c.task.taskId in s.tasks ==> c.task.state == s.tasks[c.task.taskId].state
  }

  predicate AllCurrent(s: Store, calls: seq<RepoCall>) {
    forall i :: 0 <= i < |calls| ==> Current(ExecAll(s, calls[..i]), calls[i])
  }

  /** One successful call keeps a task's log replaying to its state exactly when it is current for the task. */
  lemma CallKeepsLogIff(s: Store, c: RepoCall, t: Id)
    requires Succeeds(s, c) && LR.TaskOk(s, t, None)
    ensures LR.TaskOk(Exec(s, c), t, None) <==> (c.PutTask? && c.task.taskId == t ==> Current(s, c))
  {
    hide Log;
    hide LegalPath;
    if c.Transition? && c.taskId == t {
      LogAppend(s.events, TaskEvent(t, s.tasks[t].tenantId, c.target, c.note), t);
      LegalPathExtend(Log(s.events, t), c.target);
    } else if !(c.PutTask? && c.task.taskId == t) {
      LR.Frame(s, Some(c), t);
    }
  }

  lemma {:induction false} LinearKeepsLogs(s: Store, calls: seq<RepoCall>, t: Id)
    requires AllSucceed(s, calls) && AllCurrent(s, calls) && LR.TaskOk(s, t, None)
    ensures LR.TaskOk(ExecAll(s, calls), t, None)
  {
    if calls != [] {
      var before, c := calls[..|calls| - 1], calls[|calls| - 1];
      assert forall i :: 0 <= i < |before| ==> before[..i] == calls[..i];
      LinearKeepsLogs(s, before, t);
      CallKeepsLogIff(ExecAll(s, before), c, t);
    }
    hide LR.TaskOk;
  }

  /** So under any race whose write-backs are current, each task's event log is a legal path that replays to
      its stored state. */
  lemma RaceKeepsLogs(s: Store, db: Db, steps: seq<Step>, r: Race, t: Id)
    requires Agree(s, db) && KeyedRight(s) && LR.TaskOk(s, t, None)
    requires r == Run(Race(db, map[], map[], [], [], 0), steps) && AllCurrent(s, r.linear)
    ensures t in r.db.tasks && LegalPath(Log(r.db.events, t)) && Replay(Log(r.db.events, t)) == r.db.tasks[t].state
  {
    RaceLinearises(s, db, steps);
    LinearKeepsLogs(s, r.linear, t);
    SameState(ExecAll(s, r.linear), r.db, t);
  }

  lemma ThreeSteps(r: Race, a: Step, b: Step, c: Step)
    ensures Run(r, [a, b, c]) == Next(Next(Next(r, a), b), c)
  {
    hide Next;
    assert [a, b, c][..2] == [a, b] && [a, b][..1] == [a] && [a][..0] == [];
    assert Run(r, []) == r && Run(r, [a]) == Next(r, a);
    assert Run(r, [a, b]) == Next(Next(r, a), b);
  }

  lemma BeginAndUpdate(db: Db, t: Id, target: TaskState) returns (r: Race)
    requires t in db.tasks && CanTransition(db.tasks[t].state, target)
    ensures r == Next(Next(Race(db, map[], map[], [], [], 0), Begin(0, t, target, "")), Update(0))
    ensures r.outcomes == map[0 := Committed]
    ensures r.db == Moved(db, t, target, 0)
  {
    var r1 := Next(Race(db, map[], map[], [], [], 0), Begin(0, t, target, ""));
    assert r1.pending[0] == Attempt(t, db.tasks[t].state, target, db.tasks[t].tenantId, "");
    r := Next(r1, Update(0));
  }

  lemma WriteBackStep(r: Race, task: TaskRecord)
    requires IsCopy(r.db, task)
    ensures Next(r, WriteBack(task)).db == SqlExec(r.db, PutTask(task), r.clock)
    ensures Next(r, WriteBack(task)).outcomes == r.outcomes
  {
  }

  /** The tables after a committed transition of t at time `at`. */
  function Moved(db: Db, t: Id, target: TaskState, at: nat): Db
    requires t in db.tasks
  {
    db.(tasks := db.tasks[t := db.tasks[t].(state := target, updatedAt := at)],
        events := db.events + [TaskEvent(t, db.tasks[t].tenantId, target, "")], eventStamps := db.eventStamps + [at])
  }

  lemma WrittenBack(db: Db, t: Id, target: TaskState, at: nat, now: nat)
    requires t in db.tasks
    ensures IsCopy(Moved(db, t, target, at), ReadTask(db, t))
    ensures var db' := SqlExec(Moved(db, t, target, at), PutTask(ReadTask(db, t)), now);
            && t in db'.tasks && db'.tasks[t].state == db.tasks[t].state
            && db'.events == db.events + [TaskEvent(t, db.tasks[t].tenantId, target, "")]
  {
  }

  lemma MovedLog(s: Store, db: Db, t: Id, target: TaskState)
    requires Agree(s, db) && LR.TaskOk(s, t, None) && t in db.tasks && CanTransition(db.tasks[t].state, target)
    ensures Replay(Log(db.events + [TaskEvent(t, db.tasks[t].tenantId, target, "")], t)) == target
  {
    SameState(s, db, t);
    LogAppend(db.events, TaskEvent(t, db.tasks[t].tenantId, target, ""), t);
    LegalPathExtend(Log(db.events, t), target);
    hide Agree;
  }

  /** A copy read before another caller's UPDATE and written back after it: the row goes back to the state it
      had, and the log does not replay to it. */
  lemma StaleWriteBack(s: Store, db: Db, t: Id, target: TaskState)
    requires Agree(s, db) && LR.TaskOk(s, t, None) && t in db.tasks
    requires CanTransition(db.tasks[t].state, target) && target != db.tasks[t].state
    ensures var steps := [Begin(0, t, target, ""), Update(0), WriteBack(ReadTask(db, t))];
            var r := Run(Race(db, map[], map[], [], [], 0), steps);
            && t in r.db.tasks && r.outcomes == map[0 := Committed]
            && r.db.tasks[t].state == db.tasks[t].state && Replay(Log(r.db.events, t)) == target
  {
    hide *;
    ThreeSteps(Race(db, map[], map[], [], [], 0), Begin(0, t, target, ""), Update(0), WriteBack(ReadTask(db, t)));
    var r := BeginAndUpdate(db, t, target);
    WrittenBack(db, t, target, 0, r.clock);
    WriteBackStep(r, ReadTask(db, t));
    MovedLog(s, db, t, target);
  }
}
