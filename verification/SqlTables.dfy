/** The SQL repository's statements as updates of tables, and exactly when they agree with the
    in-memory repository's whole-record overwrites. */
module SqlTables {
  import opened Lifecycle
  import opened Records

  /** A row of the tasks table; the metadata dictionary lives in its own table. */
  datatype TaskRow = TaskRow(
    tenantId: string, clientSlug: string, entrypoint: string, requesterId: string, sessionId: string,
    prompt: string, state: TaskState, modelRouteProfile: string, resultSummary: Option<string>,
    error: Option<string>, createdAt: nat, updatedAt: nat)

  datatype Db = Db(
    tasks: map<Id, TaskRow>,
    metadata: map<Id, Metadata>,
    events: seq<TaskEvent>,
    // The creation time the database gave each event.
    eventStamps: seq<nat>,
    calls: map<Id, ToolCall>,
    approvals: map<Id, ApprovalRecord>,
    gateway: seq<GatewayEvent>)

  const NO_ROWS := Db(map[], map[], [], [], map[], map[], [])

  /** An inserted task row takes its creation time from the database clock, not from the record. */
  function InsertedRow(task: TaskRecord, now: nat): TaskRow {
    TaskRow(task.tenantId, task.clientSlug, task.entrypoint, task.requesterId, task.sessionId, task.prompt,
            task.state, task.modelRouteProfile, task.resultSummary, task.error, now, now)
  }

  /** The columns in the conflict clause of each upsert; all others keep what was inserted. */
  function UpdatedRow(row: TaskRow, task: TaskRecord, now: nat): TaskRow {
    row.(state := task.state, resultSummary := task.resultSummary, error := task.error,
         modelRouteProfile := task.modelRouteProfile, updatedAt := now)
  }

  function UpdatedCall(row: ToolCall, call: ToolCall): ToolCall {
    row.(status := call.status, parameters := call.parameters, result := call.result,
         approvalRecordId := call.approvalRecordId, modelRoute := call.modelRoute,
         integrationStyle := call.integrationStyle, schemaValidation := call.schemaValidation,
         isRead := call.isRead)
  }

  function UpdatedApproval(row: ApprovalRecord, record: ApprovalRecord): ApprovalRecord {
    row.(decision := record.decision, approverId := record.approverId, channel := record.channel,
         decidedAt := record.decidedAt)
  }

  function SqlExec(db: Db, c: RepoCall, now: nat): Db {
    match c
    case PutTask(task) =>
      var t := task.taskId;
      db.(tasks := db.tasks[t := if t in db.tasks then UpdatedRow(db.tasks[t], task, now)
                                 else InsertedRow(task, now)],
          metadata := if task.metadata.IsEmpty() then db.metadata else db.metadata[t := task.metadata])
    case Transition(t, target, note, _) =>
      if t in db.tasks && CanTransition(db.tasks[t].state, target) then
        db.(tasks := db.tasks[t := db.tasks[t].(state := target, updatedAt := now)],
            events := db.events + [TaskEvent(t, db.tasks[t].tenantId, target, note)],
            eventStamps := db.eventStamps + [now])
      else db
    case PutCall(call) =>
      var c := call.callId;
      db.(calls := db.calls[c := if c in db.calls then UpdatedCall(db.calls[c], call) else call])
    case PutApproval(record) =>
      var r := record.recordId;
      db.(approvals := db.approvals[r := if r in db.approvals then UpdatedApproval(db.approvals[r], record)
                                         else record])
    case PutGateway(event) => db.(gateway := db.gateway + [event])
  }

  // ---- Reading back --------------------------------------------------------------------------

  function ReadRow(t: Id, row: TaskRow, metadata: Metadata): TaskRecord {
    TaskRecord(t, row.tenantId, row.clientSlug, row.entrypoint, row.requesterId, row.sessionId, row.prompt,
               row.state, row.modelRouteProfile, row.resultSummary, row.error, metadata,
               row.createdAt, row.updatedAt)
  }

  /** A missing metadata row reads as the empty dictionary. */
  function ReadMetadata(db: Db, t: Id): Metadata {
    if t in db.metadata then db.metadata[t] else Metadata(None, map[])
  }

  function ReadTask(db: Db, t: Id): TaskRecord
    requires t in db.tasks
  {
    ReadRow(t, db.tasks[t], ReadMetadata(db, t))
  }

  /** Equal in every field but the two time stamps. */
  predicate SameTask(a: TaskRecord, b: TaskRecord) {
    a == b.(createdAt := a.createdAt, updatedAt := a.updatedAt)
  }

  /** Every read gives the same answer from either repository, task time stamps aside. */
  ghost predicate Agree(s: Store, db: Db) {
    && s.tasks.Keys == db.tasks.Keys
    && (forall t :: t in s.tasks ==> SameTask(s.tasks[t], ReadTask(db, t)))
    && db.metadata.Keys <= db.tasks.Keys && |db.eventStamps| == |db.events|
    && s.events == db.events && s.calls == db.calls && s.approvals == db.approvals && s.gateway == db.gateway
  }

  // ---- When the two agree --------------------------------------------------------------------

  /** Only columns of the conflict clause change, and stored metadata is not emptied. */
  predicate TaskBenign(s: Store, task: TaskRecord) {
    task.taskId in s.tasks ==>
      var was := s.tasks[task.taskId];
      && SameTask(task, was.(state := task.state, resultSummary := task.resultSummary, error := task.error,
                             modelRouteProfile := task.modelRouteProfile, metadata := task.metadata))
      && (task.metadata.IsEmpty() ==> was.metadata.IsEmpty())
  }

  predicate CallBenign(s: Store, call: ToolCall) {
    call.callId in s.calls ==>
      call == s.calls[call.callId].(status := call.status, parameters := call.parameters, result := call.result,
                                    approvalRecordId := call.approvalRecordId, modelRoute := call.modelRoute,
                                    integrationStyle := call.integrationStyle,
                                    schemaValidation := call.schemaValidation, isRead := call.isRead)
  }

  predicate ApprovalBenign(s: Store, record: ApprovalRecord) {
    record.recordId in s.approvals ==>
      record == s.approvals[record.recordId].(decision := record.decision, approverId := record.approverId,
                                              channel := record.channel, decidedAt := record.decidedAt)
  }

  predicate Benign(s: Store, c: RepoCall) {
    match c
    case PutTask(task) => TaskBenign(s, task)
    case PutCall(call) => CallBenign(s, call)
    case PutApproval(record) => ApprovalBenign(s, record)
    case _ => true
  }

  predicate KeyedRight(s: Store) {
    forall t :: t in s.tasks ==> s.tasks[t].taskId == t
  }

  /** Reading back an updated row gives the new record exactly when the update is benign. */
  lemma UpdatedReadsBack(t: Id, was: TaskRecord, row: TaskRow, m: Metadata, task: TaskRecord, now: nat)
    requires was.taskId == t && task.taskId == t && SameTask(was, ReadRow(t, row, m))
    ensures SameTask(task, ReadRow(t, UpdatedRow(row, task, now), if task.metadata.IsEmpty() then m else task.metadata))
       <==> && SameTask(task, was.(state := task.state, resultSummary := task.resultSummary, error := task.error,
                                   modelRouteProfile := task.modelRouteProfile, metadata := task.metadata))
            && (task.metadata.IsEmpty() ==> was.metadata.IsEmpty())
  {
  }

  lemma InsertedReadsBack(t: Id, task: TaskRecord, now: nat)
    requires task.taskId == t
    ensures SameTask(task, ReadRow(t, InsertedRow(task, now), task.metadata))
  {
  }

  /** The one stamp an insert does not carry over: a new task reads back with its own creation time
      exactly when the database clock shows that time. */
  lemma CreationTimeIff(db: Db, task: TaskRecord, now: nat)
    requires task.taskId !in db.tasks
    ensures ReadTask(SqlExec(db, PutTask(task), now), task.taskId).createdAt == task.createdAt
       <==> now == task.createdAt
  {
  }

  lemma MovedReadsBack(t: Id, was: TaskRecord, row: TaskRow, m: Metadata, target: TaskState, at: nat, now: nat)
    requires SameTask(was, ReadRow(t, row, m))
    ensures SameTask(was.(state := target, updatedAt := at), ReadRow(t, row.(state := target, updatedAt := now), m))
    ensures was.state == row.state && was.tenantId == row.tenantId
  {
  }

  lemma TaskAgree(s: Store, db: Db, task: TaskRecord, now: nat)
    requires Agree(s, db) && KeyedRight(s)
    ensures Agree(Exec(s, PutTask(task)), SqlExec(db, PutTask(task), now)) <==> TaskBenign(s, task)
  {
    hide SameTask;
    hide ReadRow;
    hide UpdatedRow;
    hide InsertedRow;
    var t := task.taskId;
    if t in s.tasks {
      UpdatedReadsBack(t, s.tasks[t], db.tasks[t], ReadMetadata(db, t), task, now);
      var s', db' := Exec(s, PutTask(task)), SqlExec(db, PutTask(task), now);
      assert ReadMetadata(db', t) == if task.metadata.IsEmpty() then ReadMetadata(db, t) else task.metadata;
      assert SameTask(s'.tasks[t], ReadTask(db', t)) <==> TaskBenign(s, task);
    } else {
      InsertedReadsBack(t, task, now);
      assert task.metadata.IsEmpty() ==> task.metadata == Metadata(None, map[]);
    }
  }

  lemma MoveAgrees(s: Store, db: Db, t: Id, target: TaskState, note: string, at: nat, now: nat)
    requires Agree(s, db)
    ensures Agree(Exec(s, Transition(t, target, note, at)), SqlExec(db, Transition(t, target, note, at), now))
  {
    hide SameTask;
    hide ReadRow;
    hide CanTransition;
    if t in s.tasks {
      MovedReadsBack(t, s.tasks[t], db.tasks[t], ReadMetadata(db, t), target, at, now);
    }
  }

  lemma TablesAgree(s: Store, db: Db, c: RepoCall, now: nat)
    requires Agree(s, db) && (c.PutCall? || c.PutApproval? || c.PutGateway?)
    ensures Agree(Exec(s, c), SqlExec(db, c, now)) <==> Benign(s, c)
  {
    hide SameTask;
    hide ReadRow;
    var s', db' := Exec(s, c), SqlExec(db, c, now);
    if c.PutCall? {
      assert s'.calls[c.call.callId] == c.call;
    } else if c.PutApproval? {
      assert s'.approvals[c.record.recordId] == c.record;
    }
  }

  /** From agreement, one call keeps agreement exactly when it is benign: it leaves every column
      outside its conflict clause alone and does not empty stored metadata. */
  lemma AgreeIffBenign(s: Store, db: Db, c: RepoCall, now: nat)
    requires Agree(s, db) && KeyedRight(s)
    ensures Agree(Exec(s, c), SqlExec(db, c, now)) <==> Benign(s, c)
  {
    hide Agree;
    hide TaskBenign;
    match c
    case PutTask(task) => TaskAgree(s, db, task, now);
    case Transition(t, target, note, at) => MoveAgrees(s, db, t, target, note, at, now);
    case _ => TablesAgree(s, db, c, now);
  }
}
