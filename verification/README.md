# Governed execution: a verified model

Agent Mesh runs a task through a model graph, executes the reads it proposes at once, parks its proposed
writes behind human approvals, and executes an approved write only when its payload still hashes to what
was approved. This project states that engine in Dafny and proves what its parts promise together.

- **The task protocol** (`Lifecycle`, `Records`, `Protocol`). One step per repository call: ingress, at
  most one `process` per task, any number of approvers, crashes, and an actor that rewrites stored tool
  calls, interleaved in every order. `LogReplay` (events replay to the stored state), `SingleRun` (one run
  per task), `Halts` (budget halts), `WriteGate` and `GateHistory` (what an execution has behind it),
  `ExecutesOnce`, `Bystanders` and `GatedRuns` (what a fresh run leaves behind while others act),
  `EarlyDecisions` (what its records show when it parks) and `ResumeRuns` (what a resume completes while others
  act) are theorems over all its runs. `ApprovedWrites` puts the fresh run, the wait and the resume together, each
  interleaved with every other actor.
- **The code that takes those steps** (`Repository`, `Runner` in Worker.dfy, `SingleProcess`). Classes with
  the loops of the source; every repository call is proved to be one protocol step, so the run theorems
  hold of them, and their own contracts say what a parked, completed, halted or resumed run leaves behind
  when its worker runs alone.
- **Two repositories** (`SqlTables`, `SqlListings`, `SqlRuns`, `SqlWorkers`, `TransitionRace`). The SQL
  statements as map updates, when one call reads back as the in-memory overwrite does, when
  `ORDER BY created_at` lists in insertion order, that every protocol run stays within that, that a system acting
  on SQL reads stays in step with the one in memory, and the read-then-guarded-UPDATE race of `transition_task`.
- **Hashing and tokens** (`Decimal`, `CanonicalJson`, `ApprovalToken`).
- **The statistical gate** (`Binomial`, `Judges`, `NoRegression`), in exact real arithmetic.
- **The budget** (`Budget`, `MeshGraph`, `GovernedRun`): concurrent check, call and record, the graph that
  halts, and what a refusal inside it makes of the task.
- **Self-improvement** (`SelfImprovement`, `PromotionService`, `PipelineTables`, `VersionPointer`): a history
  of operations in any order, the service whose tables follow it, those tables under SQL, and the
  active-version pointer.

Conventions. Ids are drawn from a counter that also serves as the clock. SHA-256 is a function parameter,
assumed collision-free only where a lemma says so; HMAC is a function parameter with hexadecimal digests,
ideal only in the soundness lemma. What the model graph returns and what a tool returns are arbitrary
functions. The one assumption about deliveries is that two `process` calls of the same task do not overlap.
The theorems that also assume no delivery of a task that awaits approval say so by the predicate
`SingleRun.DisciplinedRun`, those that assume no crash by `Protocol.CrashFree`, and single-process mode is
proved to satisfy both.

Where the code does not do what its comments or a reader would expect, the code is modelled and the exact
condition is proved:

- A task can enter RUNNING twice even without overlapping deliveries: a delivery that reads it awaiting
  approval, and an approval before the claim, suffice (`SingleRun.SecondRunIff`).
- For the same reason a FAILED task can have tool calls and approvals (`Halts.FailedWithRecordsIff`).
- SQL stamps events with the database clock and lists them by it: when that clock steps back, or does not
  move, a task's events can come in another order than in memory (`SqlListings.EventOrderIff`,
  `SqlRuns.SteppingClockReorders`).
- A task row read from SQL carries the database's creation time, not the record's
  (`SqlTables.CreationTimeIff`).
- A decision is written to the ledger before the lifecycle may refuse the task's move
  (`SingleProcess.TaskService.SubmitApprovalDecision`). One that comes before the park is refused its move and
  stays in the ledger: the task then awaits an approval its record already shows
  (`EarlyDecisions.ApprovedBeforePark`, `EarlyDecisions.PendingAtPark`).
- A raw row write-back made from a copy read before another caller's transition undoes that transition without
  a trace in the log (`TransitionRace.StaleWriteBack`); in the protocol every write-back carries the current state
  (`LogReplay.FittingKeeps`, `LogReplay.LogReplaysToState`).
- The no-regression gate calls a dropped item the worst possible regression; dropping one can turn
  rejection into acceptance (`NoRegression.DroppingHelpsIff`).
- The per-task cap holds over a task's calls only with the in-memory ledger, or when no call with a cost passes,
  and only for calls with a task id (`Budget.TaskCapIff`, `Budget.UntrackedTasks`).
- Rolling back a tenant's first promotion leaves its pointer where it was (`VersionPointer.PointerUndoIff`).
- The Type-I bound needs a non-negative alpha (`Judges.TypeIBound`).

## Model

| member | source | states |
|---|---|---|
| Lifecycle.LegalMoves | src/agent_mesh/contracts/lifecycle.py:12-35 | the legal moves, target by target |
| Lifecycle.LegalPathExtend | src/agent_mesh/contracts/lifecycle.py:12-45 | a log that is a legal path through the transition table stays one exactly when the next entry is allowed from the state it replays to |
| LogReplay.LogReplaysToState | src/agent_mesh/worker/runner.py:50-207 | in every interleaving, crashes and raw row write-backs included, each task's events form a legal path that replays from RECEIVED to its stored state |
| LogReplay.RunKeeps | src/agent_mesh/worker/runner.py:50-207 | the invariant behind it - log, state, and what each worker in flight relies on - holds after every run from a world where it holds |
| LogReplay.TerminalIsFinal | src/agent_mesh/contracts/lifecycle.py:30-34 | whatever runs later, a terminal task keeps its state and its log |
| LogReplay.OthersFit | src/agent_mesh/services/task_service.py:54-89 | no move of ingress or an approver disturbs what a worker in flight relies on |
| LogReplay.FittingKeeps | src/agent_mesh/worker/runner.py:118-161 | a raw row write-back or a transition of a worker keeps the log and the stored state together |
| SingleRun.RunsOnce | src/agent_mesh/worker/runner.py:50-207 | without deliveries of tasks awaiting approval, and with any crashes, a task's log is one of ten, of at most five events, with RUNNING at most once |
| SingleRun.RunKeeps | src/agent_mesh/worker/runner.py:50-207 | the invariant behind it - logs by state, no calls or records before a plan - holds after every run that keeps that delivery discipline, crashes included |
| SingleRun.FailedIsUntouched | src/agent_mesh/worker/orchestrator.py:143-174 | under the same discipline a FAILED task has no tool calls and no approvals |
| Halts.GovernedHalt | src/agent_mesh/worker/orchestrator.py:143-174 | in every run without crashes a task has at most one budget-halt event, and one exactly when it is FAILED or its worker is between the event and the move |
| Halts.RunKeeps | src/agent_mesh/worker/orchestrator.py:143-174 | the invariant behind it holds after every crash-free run |
| Halts.FailedWithRecordsIff | src/agent_mesh/worker/runner.py:52-83 | a delivery can lead to a FAILED task that has calls or approvals exactly when it reads the task awaiting approval |
| Halts.OvertakenHalt | src/agent_mesh/worker/runner.py:52-83 | the run that does it: deliver, approve before the claim, claim, halt |
| SingleRun.SecondRunIff | src/agent_mesh/worker/runner.py:52-63 | a delivery can lead to a second entry into RUNNING exactly when it reads the task awaiting approval |
| SingleRun.OvertakenRunsTwice | src/agent_mesh/worker/runner.py:52-63 | the run that does it: deliver, approve before the claim, claim |
| WriteGate.GateHolds | src/agent_mesh/worker/runner.py:183-202 | every execution in every run is an ungated read that is nobody's proposed write, or ran behind a linked record read as approved with parameters equal to the proposed ones, even with rewritten calls and re-decided records |
| WriteGate.RunKeeps | src/agent_mesh/services/approvals.py:195-263 | in every run each record, wherever it was copied to, keeps the hash of the write it was opened for, and every execution so far met its gate |
| GateHistory.ApprovedBeforeRun | src/agent_mesh/services/approvals.py:223-263 | in every run a gated execution comes after a decision that approved the very record it ran behind |
| GateHistory.RunsItsOwnCall | src/agent_mesh/worker/runner.py:183-202 | while nobody rewrites stored calls, the call that runs is the one its record was opened for |
| ExecutesOnce.ExecutesAtMostOnce | src/agent_mesh/worker/runner.py:185-196 | over every run without crashes, whatever is delivered, decided or rewritten, no write call is executed twice |
| GatedRuns.ParkBinds | src/agent_mesh/worker/runner.py:62-161 | from the arrival of a task's plan in any reachable world, over any interleaving in which its worker does not crash and nobody rewrites its calls: a task that parks has one executed, unlinked call for each proposed read, run exactly once and holding what that one execution gave, and one call, one record and one token for each proposed write, bound to each other and to the proposed parameters, no id shared or left over, earlier tokens kept; one that completes has its reads and their evidence |
| GatedRuns.RunGates | src/agent_mesh/worker/runner.py:85-161 | the invariant behind it - what is recorded at each point of the run, and that each read's row is the outcome of its one execution - survives every such interleaving |
| GatedRuns.GateStays | src/agent_mesh/services/approvals.py:223-250 | nothing another actor may do to the store moves the run from where it is |
| Bystanders.WaitCarries | src/agent_mesh/worker/runner.py:156-161 | while a task's own worker takes no step and nobody rewrites its calls, its calls, its records and their bindings, its tenant and its metadata stay |
| EarlyDecisions.LedgerShows | src/agent_mesh/services/approvals.py:223-250 | in every run each record shows the last decision written on it, and is pending until there is one |
| EarlyDecisions.PendingAtPark | src/agent_mesh/services/task_service.py:63-85 | when a task parks, each of its new records is pending exactly when no decision was written on it before the park, or the last one wrote pending again |
| EarlyDecisions.ApprovedBeforePark | src/agent_mesh/services/task_service.py:63-85 | from every reachable world about to park, the crash-free run after which the task awaits approval with its record approved and no approver left to move it |
| ResumeRuns.ResumeCompletes | src/agent_mesh/worker/runner.py:163-207 | from any reachable world about to resume a task, over any interleaving that leaves its calls, their records and its worker alone, once the task is completed each of its calls is settled by its record and exactly the cleared ones ran since, each once, their rows holding what that execution gave |
| ResumeRuns.ClearedRunExactlyOnce | src/agent_mesh/worker/runner.py:183-202 | over the whole run, when nothing crashed in it, each cleared call was executed exactly once |
| ResumeRuns.RunResumes | src/agent_mesh/worker/runner.py:163-207 | the invariant behind it - what is settled so far, what ran so far, and the listing the worker holds - survives every such interleaving |
| Repository.InMemoryRepository.CreateTask | src/agent_mesh/services/repository.py:106-109 | replaces the whole row and touches no other table, as one protocol step |
| Repository.InMemoryRepository.TransitionTask | src/agent_mesh/services/repository.py:115-132 | moves a known task along the table and appends one event of its tenant, state and note, or refuses and changes nothing, as one protocol step |
| Repository.InMemoryRepository.UpsertToolCall | src/agent_mesh/services/repository.py:147-150 | replaces the call, keeps its place in insertion order or adds it at the end, and touches no other table, as one protocol step |
| Repository.InMemoryRepository.ListToolCalls | src/agent_mesh/services/repository.py:156-162 | returns exactly the calls of the task and tenant, each once, in the order they were first inserted |
| Repository.InMemoryRepository.UpsertApproval | src/agent_mesh/services/repository.py:164-167 | replaces the whole ledger record and touches no other table, as one protocol step |
| Repository.InMemoryRepository.GetApproval | src/agent_mesh/services/repository.py:169-171 | reads the record stored under the id, if there is one |
| Repository.InMemoryRepository.RecordGatewayEvent | src/agent_mesh/services/repository.py:273-276 | appends one gateway event, as one protocol step |
| SqlTables.AgreeIffBenign | src/agent_mesh/services/repository.py:690-922 | from agreeing tables, one call leaves every row reading the same in both exactly when it changes no column outside its conflict clause and does not empty stored metadata |
| SqlTables.UpdatedReadsBack | src/agent_mesh/services/repository.py:690-753 | the upserted task row reads back as the new record exactly under that condition |
| SqlTables.MoveAgrees | src/agent_mesh/services/repository.py:755-792 | the SQL transition agrees with the in-memory one, refusals included |
| SqlTables.CreationTimeIff | src/agent_mesh/services/repository.py:690-746 | a new task reads back with its own creation time exactly when the database clock shows it |
| SqlListings.ListingsAgree | src/agent_mesh/services/repository.py:870-878 | whatever order the database picks, it lists a task's calls by creation time in insertion order |
| SqlListings.ApprovalListingsAgree | src/agent_mesh/services/repository.py:915-922 | the same for a task's approval records |
| SqlListings.EventOrderPossibleIff | src/agent_mesh/services/repository.py:814-821 | SQL may list a task's events in the in-memory order exactly when the database clock never stepped back between them |
| SqlListings.EventOrderIff | migrations/0001_init.sql:53-61 | SQL always lists them so exactly when that clock, which stamps them, showed a later time at each |
| SqlRuns.SqlSimulates | src/agent_mesh/services/repository.py:690-1193 | after every protocol run, whatever the database clock shows, the tables read back as the in-memory records do, task time stamps aside, and list a task's calls and approval records in the same order |
| SqlRuns.EventsListed | src/agent_mesh/services/repository.py:781-821 | after every protocol run, events are listed in the in-memory order if the database clock never stepped back, and in no other if it moved forth at every step |
| SqlRuns.SteppingClockReorders | src/agent_mesh/services/repository.py:781-821 | a run and any clock that steps back over it for which SQL cannot list the events in the in-memory order |
| SqlWorkers.SqlInStep | src/agent_mesh/services/repository.py:690-922 | the protocol run on what the tables read back stays in step with the run in memory, every actor at the same point with locals equal up to task time stamps, the same executions, and tables that read back as the in-memory records do |
| SqlWorkers.Turns | src/agent_mesh/worker/runner.py:50-207 | a worker's turn on either repository's reads makes the same call, runs the same tool and goes to the same point, task time stamps aside |
| SqlRuns.WorkKeeps | src/agent_mesh/worker/runner.py:85-202 | no worker call changes a column its upsert omits or empties metadata |
| SqlRuns.OthersKeep | src/agent_mesh/services/approvals.py:223-250 | neither do ingress, approvers or a rewriting actor |
| TransitionRace.RaceLinearises | src/agent_mesh/services/repository.py:690-792 | for every schedule of any number of transition callers and raw row write-backs, the tables agree with the in-memory repository after the committed transitions and the write-backs alone, each atomic and successful in the order it reached the database, one transition for each committed caller |
| TransitionRace.GuardedIsAtomic | src/agent_mesh/services/repository.py:768-790 | a guarded UPDATE that matches is the atomic transition, one that does not changes nothing |
| TransitionRace.CallersAreTold | src/agent_mesh/services/repository.py:755-767 | a caller is refused exactly for an unknown task or an illegal move from the state it read, and else waits with that state and changes nothing yet |
| TransitionRace.UpdatersAreTold | src/agent_mesh/services/repository.py:768-792 | a waiting caller commits exactly when the row is still in the state it read, and else loses and changes nothing |
| TransitionRace.RaceKeepsLogs | src/agent_mesh/services/repository.py:755-792 | under any race whose write-backs carry the state their row has, each log stays a legal path that replays to the stored state |
| TransitionRace.CallKeepsLogIff | src/agent_mesh/services/repository.py:690-792 | one successful call keeps a task's log replaying to its state exactly when it is no write-back of another state |
| TransitionRace.StaleWriteBack | src/agent_mesh/worker/runner.py:149-156 | a copy read before another caller's UPDATE and written back after it puts the old state back under the new log |
| PipelineTables.SqlPipelineSimulates | src/agent_mesh/services/repository.py:925-1084 | over every history of pipeline operations the SQL tables hold exactly what the in-memory repository holds |
| PipelineTables.SqlStepIff | src/agent_mesh/services/repository.py:925-1084 | one operation has the same effect through column updates as through overwriting, exactly unless it edits a stored patch, which is in no conflict clause |
| PipelineTables.ReadsBackIff | src/agent_mesh/services/repository.py:925-1084 | an upsert of a stored row reads back as the new record exactly when nothing outside its conflict clause changes, column by column |
| Runner.Worker.Process | src/agent_mesh/worker/runner.py:50-161 | exactly when a task is unknown or its claim illegal, and otherwise that a terminal task is left alone, an approved one resumed, any other run afresh, by steps of its own worker only |
| Runner.Worker.RunFresh | src/agent_mesh/worker/runner.py:62-161 | run alone, the outcome by what the mesh came to: halted, completed with read evidence, or parked |
| Runner.Worker.RunReads | src/agent_mesh/worker/runner.py:85-103 | each proposed read becomes one executed, ungated, unlinked call of its own tool and parameters, every field of its row written out, holding the result, style and validation the tool gave for this very call, with one line of evidence that tells that outcome; the ledger untouched |
| Runner.Worker.GateWrites | src/agent_mesh/worker/runner.py:122-147 | each proposed write gets one call, one pending record with the hash of its parameters and one token, call and record pointing at each other, no id shared |
| Runner.Worker.OpenApproval | src/agent_mesh/services/approvals.py:195-220 | a pending record bound to the call's payload hash, and its token |
| Runner.Worker.Park | src/agent_mesh/worker/runner.py:149-161 | merges the new tokens into the stashed ones and moves the task to AWAITING_APPROVAL |
| Runner.ParkIs | src/agent_mesh/worker/runner.py:85-161 | for a worker running alone the phases together are a one-to-one match of proposed writes, gated calls, pending records and tokens, with earlier tokens kept and all other rows as before (with other actors: GatedRuns.ParkBinds) |
| Runner.StashKeeps | src/agent_mesh/worker/runner.py:149-156 | the stash holds exactly the earlier and the new tokens, the earlier ones unchanged |
| Runner.Worker.GovernedBudgetHalt | src/agent_mesh/worker/orchestrator.py:143-174 | one halt event and the task FAILED, nothing else |
| Runner.Worker.CompleteReads | src/agent_mesh/worker/runner.py:105-120 | completes a task without writes and stores the summary with its read evidence |
| Protocol.Joins | src/agent_mesh/worker/runner.py:105-120 | evidence is joined in order, with a semicolon and a space between any two |
| Runner.Worker.ResumeAfterApproval | src/agent_mesh/worker/runner.py:163-207 | run alone, settles each of the task's own calls by its record, runs each cleared call exactly once and records what the tool gave for it, completes the task and changes no other task's or tenant's calls |
| Runner.Worker.PendingCalls | src/agent_mesh/worker/runner.py:209-212 | lists each call of the task and tenant once and no other |
| Runner.Worker.SettleCall | src/agent_mesh/worker/runner.py:185-202 | one round: executed if approved and unmodified, rejected if its record is, else as it was |
| Runner.ResumeIs | src/agent_mesh/worker/runner.py:183-207 | the loop over the listing leaves executed, rejected or unchanged calls and one execution per cleared call |
| ApprovedWrites.ExactlyTheApprovedRun | src/agent_mesh/worker/runner.py:62-207 | from the arrival of a plan through a fresh run, a wait and a resume, each interleaved with every other actor, each proposed write of the completed task followed the decision its own record showed at the resume, with the parameters it was proposed with and, if it ran, the outcome of that run in its row; nothing ran twice, and nothing that was not proposed by this plan or, for a task delivered while it awaited approval, by an earlier one |
| SingleProcess.TaskService.CreateTask | src/agent_mesh/services/task_service.py:37-58 | a fresh QUEUED task with every field of the request in its place, one event, and one publication after it is stored |
| SingleProcess.TaskService.SubmitApprovalDecision | src/agent_mesh/services/task_service.py:63-90 | when the record is unknown, when the move is refused with the decision already written, and otherwise the task's new state, the one event that tells of it, and whether it is queued again |
| SingleProcess.TaskService.RecordDecision | src/agent_mesh/services/approvals.py:223-250 | writes decision, approver, channel and time whatever was there, keeps every other field - hash and links among them - and changes no other record |
| SingleProcess.DrainOne | src/agent_mesh/worker/main.py:71-74 | a dequeued task is known and waiting, never meets an illegal transition, and ends terminal or awaiting a decision on a pending record of its own |
| SingleProcess.RunInProcess | src/agent_mesh/worker/main.py:65-75 | the drain terminates with an empty queue, every task in it at rest, no other task changed, as many drained as were queued |
| SingleProcess.Published | src/agent_mesh/services/task_service.py:54-85 | publishing on the move to QUEUED or APPROVED keeps each task in the queue exactly once when it waits and not at all otherwise |
| SingleProcess.ProcessDisciplined | src/agent_mesh/worker/main.py:71-74 | processing from the queue keeps the delivery discipline the single-run theorems assume |
| SingleProcess.IdleTasks | src/agent_mesh/worker/main.py:65-75 | between service calls each task has a single-run log and is FAILED exactly with one halt event |
| SingleProcess.InProcessDispatcher.Get | src/agent_mesh/services/dispatch.py:21-34 | takes the oldest published task, and nothing exactly when none is left |
| Decimal.IntRoundTrip | src/agent_mesh/services/approvals.py:141-144 | reading the decimal text of any integer gives the integer back |
| Decimal.ReadsIff | src/agent_mesh/services/approvals.py:141-144 | a text reads as an integer exactly when it is, between white space, an optional sign and then digits with no underscore first, last or beside another |
| Decimal.SignedReads | src/agent_mesh/services/approvals.py:141-144 | and then as the number its digits write, negated after a minus sign |
| Decimal.Ungroups | src/agent_mesh/services/approvals.py:141-144 | only underscores drop out and digits keep their order |
| Decimal.SpaceCodes | src/agent_mesh/services/approvals.py:141-144 | the white space around it, by code point |
| CanonicalJson.CanonicalParses | src/agent_mesh/services/approvals.py:42-46 | reading the canonical text of any payload by the grammar of RFC 8259 gives back that payload with its keys in order, and nothing is left over |
| CanonicalJson.TextBack | src/agent_mesh/services/approvals.py:42-46 | the same reader gets any value back from its compact text, whatever may follow it |
| CanonicalJson.SortedInOrder | src/agent_mesh/services/approvals.py:42-46 | in a sorted value each key of an object precedes the next: it is a proper prefix of it, or smaller by code point at the first place they differ, stated on indices |
| CanonicalJson.BeforeIff | src/agent_mesh/services/approvals.py:42-46 | the comparison the sort uses is exactly that order |
| CanonicalJson.EscapeShape | src/agent_mesh/services/approvals.py:42-46 | which characters stand for themselves, which take a two-character escape and which one or two lower-case hexadecimal units; the text is printable ASCII |
| CanonicalJson.TextUnique | src/agent_mesh/services/approvals.py:42-46 | the compact text of a value, followed by anything that may follow a value, determines the value (a corollary of the reader) |
| CanonicalJson.SortedIffSame | src/agent_mesh/services/approvals.py:42-46 | sorting keys makes two values identical exactly when they are equal as nested dictionaries |
| CanonicalJson.CanonicalIffSame | src/agent_mesh/services/approvals.py:42-46 | canonical texts are equal exactly when payloads are equal as dictionaries |
| CanonicalJson.PayloadHashBinds | src/agent_mesh/services/approvals.py:42-46 | under a collision-free hash, equal payload hashes mean equal payloads and conversely |
| ApprovalToken.RoundTripIff | src/agent_mesh/services/approvals.py:84-156 | for every requester id a token verifies against its record exactly when there is a secret, the record id has no dot and the time is at most the second of issue and the lifetime |
| ApprovalToken.LivesItsTime | src/agent_mesh/services/approvals.py:84-156 | such a token is accepted up to a second before its lifetime has run, and never after it |
| ApprovalToken.IssuedExpiry | src/agent_mesh/services/approvals.py:101-111 | the expiry a token states is the second of issue and the lifetime |
| ApprovalToken.AcceptedIff | src/agent_mesh/services/approvals.py:114-156 | for any token text at all: accepted for a requester exactly when there is a secret, the record id has no dot, and the text is record id, requester, an expiry that reads as an integer not yet passed, and the MAC of the four fields, joined by dots |
| ApprovalToken.RaisesIff | src/agent_mesh/services/approvals.py:145-156 | the signature comparison raises exactly for an unexpired token of the record whose signature is not ASCII |
| ApprovalToken.AcceptedWasIssued | src/agent_mesh/services/approvals.py:114-156 | under an ideal MAC acceptance means a token was issued for exactly this record, hash and requester, with the expiry written in the token, which has not passed |
| ApprovalToken.MessageUnique | src/agent_mesh/services/approvals.py:77-81 | the colon-joined signing string determines its four fields when record id and hash hold no colon |
| ApprovalToken.ColonsCollide | src/agent_mesh/services/approvals.py:77-81 | with a colon in a record id two different grants sign the same string |
| Judges.BinomialUpperTail | src/agent_mesh/eval/judges.py:230-253 | raises exactly outside the domain, and the loop sum, the two shortcuts and the clamp give the probability of at least that many wins |
| Binomial.SumIsAtLeast | src/agent_mesh/eval/judges.py:239-253 | the closed-form sum equals the probability defined trial by trial, so the full sum is 1 |
| Binomial.ChooseFactorials | src/agent_mesh/eval/judges.py:252 | the binomial coefficient is n! over k! (n - k)! |
| Binomial.AntitoneInWins | src/agent_mesh/eval/judges.py:230-253 | more wins are less likely |
| Binomial.MonotoneInTrials | src/agent_mesh/eval/judges.py:230-253 | more trials make a number of wins likelier |
| Binomial.MonotoneInRate | src/agent_mesh/eval/judges.py:230-253 | a higher win rate makes a number of wins likelier |
| Binomial.AllWins | src/agent_mesh/eval/judges.py:230-253 | winning all n trials has probability p to the n |
| Judges.PassesTypeI | src/agent_mesh/eval/judges.py:256-273 | false without samples, an error outside the domain, else whether the tail is at most alpha |
| Judges.UpwardClosed | src/agent_mesh/eval/judges.py:256-273 | more wins never turn acceptance into refusal |
| Judges.ReachThreshold | src/agent_mesh/eval/judges.py:256-273 | the chance of acceptance over independent trials is the chance of reaching the least accepted count |
| Judges.TypeIBound | src/agent_mesh/eval/judges.py:256-273 | for every sample size and every true rate at or below the null, the probability of acceptance is at most alpha, exactly when alpha is not negative |
| Judges.WinsIff | src/agent_mesh/eval/judges.py:130-158 | a win needs both orderings to point at the candidate, a flip is the same position picked twice |
| Judges.ExchangeMirrors | src/agent_mesh/eval/judges.py:130-158 | exchanging the two responses mirrors the verdict, so not both can win |
| Judges.PositionalNeverGoes | src/agent_mesh/eval/judges.py:306-331 | no decision on the verdicts of a judge that answers by position alone says go when alpha is below one |
| Judges.AnotherWinKeepsGo | src/agent_mesh/eval/judges.py:306-331 | turning one verdict into a win never turns go into no-go, whatever the scores |
| Judges.ScoresOnlyArbitrate | src/agent_mesh/eval/judges.py:281-331 | exchanging the scores keeps the decision, equal scores never make the judge sole arbiter, and no scores change whether it says go |
| Judges.JudgeDecide | src/agent_mesh/eval/judges.py:306-331 | raises exactly for verdicts under an invalid null rate; says go exactly when the agreeing wins it counted have probability at most alpha under the null; sole arbiter exactly when the scores lie further apart than the margin, either way |
| Judges.WinCountIs | src/agent_mesh/eval/judges.py:161-163 | the win count is the number of pairs whose two orderings both pick the candidate |
| Judges.Calibrate | src/agent_mesh/eval/judges.py:171-222 | each confusion count is the number of pairs with that judged and human label, the rates are the fractions of them, trust asks for size and both thresholds, unaligned labels raise |
| Judges.CountIs | src/agent_mesh/eval/judges.py:194-197 | a confusion count is the size of the set of pairs with those two labels |
| Judges.CorrectionKeepsTrust | src/agent_mesh/eval/judges.py:171-222 | correcting one label to the human one never loses trust |
| NoRegression.PassesNoRegression | src/agent_mesh/services/eval_harness.py:205-251 | an empty baseline passes; otherwise accepts exactly when the candidate's mean is at least the baseline's, no item both have lost more than the threshold and no item the candidate lacks scored above it, all stated on indices; reports the two means, or in baseline order the item, both scores and the loss of exactly those that did |
| NoRegression.MeanIs | src/agent_mesh/services/eval_harness.py:205-216 | a mean is the sum shared out evenly over the scores, and zero without any |
| NoRegression.SumSplits | src/agent_mesh/services/eval_harness.py:205-216 | the sum behind the means adds up over any split, each score counted once |
| NoRegression.RaisingKeepsAcceptance | src/agent_mesh/services/eval_harness.py:205-251 | raising candidate scores never turns acceptance into rejection |
| NoRegression.DropsWithinGains | src/agent_mesh/services/eval_harness.py:205-251 | over equal key sets acceptance bounds total drops by total gains |
| NoRegression.DroppedOffendsIff | src/agent_mesh/services/eval_harness.py:218-240 | a missing item is reported exactly when its baseline score exceeds the threshold |
| NoRegression.DroppingHelpsIff | src/agent_mesh/services/eval_harness.py:218-240 | exactly when dropping an item scored zero or more turns rejection into acceptance |
| NoRegression.DroppingCanHelp | src/agent_mesh/services/eval_harness.py:218-240 | such a drop exists |
| Budget.BudgetTracker.ToDate | src/agent_mesh/worker/budget.py:52-75 | the loop over the ledger sums this month's rows of the owner or the task |
| Budget.SpentIs | src/agent_mesh/worker/budget.py:52-75 | spend adds up over the ledger, and a row counts with its cost exactly when it is the account's and of the month or later |
| Budget.BudgetTracker.Check | src/agent_mesh/worker/budget.py:77-106 | passes exactly when the estimate is within the month's cap less the owner's spend and, with a task id, within the task's cap less its spend, which counts only in memory |
| Budget.BudgetTracker.Record | src/agent_mesh/services/repository.py:251-256 | appends one row, or nothing for an event already recorded |
| Budget.OverspendBound | src/agent_mesh/worker/budget.py:77-110 | for caps that are not negative and with at most k calls in flight, spend and outstanding estimates stay within the cap and k - 1 largest calls, also across months, and within the cap for k = 1 |
| Budget.OrderlyKeeps | src/agent_mesh/worker/graph.py:174-210 | the invariant behind it holds after every orderly run of checks, records and new months |
| Budget.BoundIsReached | src/agent_mesh/worker/budget.py:77-110 | for every k some run reaches that bound exactly |
| Budget.TaskCapIff | src/agent_mesh/worker/budget.py:55-75 | for all settings, and one call at a time, the cap bounds a task in every run exactly when it is not negative and either the ledger is in memory or no call with a cost passes the caps |
| Budget.UntrackedTasks | src/agent_mesh/worker/graph.py:165-210 | calls without a task id never count against any task |
| MeshGraph.Graph.Delegate | src/agent_mesh/worker/graph.py:174-211 | the check sees the node's own estimate for its tenant and owner and no task; a refusal leaves one audit event, no ledger row and no model call; otherwise one row at the actual cost, every field written out |
| MeshGraph.Graph.Invoke | src/agent_mesh/worker/graph.py:214-368 | of `Planner`, `Researcher`, `CodeWriter` and `Reviewer` exactly those before the first refusal run and are charged, in that order, and only a full run reaches the write gate |
| MeshGraph.ThroughIff | src/agent_mesh/worker/graph.py:174-211 | a run gets through exactly the nodes before the first whose estimate exceeds the task cap, or the month's cap less the tenant's spend and what the nodes before it actually cost |
| MeshGraph.GetsThroughUnique | src/agent_mesh/worker/graph.py:174-192 | how far a run gets is determined by the ledger it starts from |
| MeshGraph.RunStaysWithinCap | src/agent_mesh/worker/graph.py:165-210 | a run alone with no call above its estimate keeps the tenant within its cap |
| GovernedRun.RefusalHalts | src/agent_mesh/worker/graph.py:174-211 | a fresh run fails exactly when some node's check refuses; then exactly the nodes before it were charged at their actual cost, the refused call left no ledger row, and the store gained one halt event and no tool call or approval |
| GovernedRun.RunGoverned | src/agent_mesh/worker/runner.py:62-76 | claim, graph and what the plan asks for in one run: it fails exactly when a node's check refused, the nodes before it are all that ran and was charged, and the store holds the audit row the graph wrote |
| SelfImprovement.PromotionsWithinApprovals | src/agent_mesh/services/self_improvement.py:314-346 | over any order of operations a proposal is promoted at most as often as approved |
| SelfImprovement.RunKeeps | src/agent_mesh/services/self_improvement.py:119-475 | after every history, APPROVED means an approval not yet used up, hashes are those of the reflected patches, and promotions have their evidence |
| SelfImprovement.ApprovalBetweenPromotions | src/agent_mesh/services/self_improvement.py:336-346 | an approval separates any two promotions of a proposal |
| SelfImprovement.PromotionsAreEarned | src/agent_mesh/services/self_improvement.py:348-412 | each promotion had a passing, non-pending evaluation of its proposal and tenant, and under a collision-free hash promoted the patch it was reflected with, even with edited patches and ledger-only decisions |
| SelfImprovement.EvaluationsAreEarned | src/agent_mesh/services/self_improvement.py:196-273 | over any order of operations, each evaluation marked passed was made by one that ran its checks on a patch not blank, and they were all true or its held-out scores met the gate |
| SelfImprovement.PromotionsEarned | src/agent_mesh/services/self_improvement.py:314-413 | and each stored promotion names such an evaluation of its own proposal |
| SelfImprovement.StatusMoves | src/agent_mesh/services/self_improvement.py:454-475 | only an approved decision makes a status APPROVED, and a promotion ends it |
| PromotionService.Service.ReflectOnTask | src/agent_mesh/services/self_improvement.py:119-167 | adds one draft under an unused id, changing no other row; its hash is that of its own id and patch, and of no other patch when the hash is collision-free |
| PromotionService.Service.EvaluateProposal | src/agent_mesh/services/self_improvement.py:179-273 | fails with no change exactly for an unknown proposal; otherwise adds one evaluation, passed exactly when it ran, some character of the patch is not a space, and every check is true or the held-out scores meet the mean and per-item conditions of the gate; the status becomes pending, passed or failed as it says, and no other row changes |
| PromotionService.Service.OpenPromotionApproval | src/agent_mesh/services/self_improvement.py:276-311 | refuses with no change exactly unless the status is EVALUATION_PASSED; otherwise adds and links one pending record under an unused id, every field of it written out, bound to the patch the history says was reflected |
| PromotionService.Service.RecordApprovalDecision | src/agent_mesh/services/self_improvement.py:454-475 | refuses with no change exactly without a linked record; otherwise only the decision fields of that record and this proposal's status change, and an approval is fresh in the history |
| PromotionService.Service.FindPassing | src/agent_mesh/services/self_improvement.py:348-349 | finds one exactly when some listed evaluation of the proposal and tenant passed and is not pending, and then the first |
| PromotionService.Service.PromoteProposal | src/agent_mesh/services/self_improvement.py:314-413 | goes through exactly for an approved proposal with a passing evaluation and a record approving its stored patch, else changes nothing; adds one promotion, changes only its tenant's pointer and its proposal's status, uses up an approval given since the last promotion, and promotes the reflected patch |
| PromotionService.Service.RollbackPromotion | src/agent_mesh/services/self_improvement.py:416-442 | fails with no change exactly for an unknown promotion; otherwise only its rollback mark, its tenant's pointer if it replaced a version, and its proposal's status change |
| PromotionService.Service.LoadActiveVersionAtBoot | src/agent_mesh/services/version_pin.py:37-46 | the served version becomes the store's pointer, absent or not, and nothing else changes |
| PromotionService.RowsWithinApprovals | src/agent_mesh/services/self_improvement.py:314-346 | in the tables of any service, however it was called, a proposal's promotions never outnumber its approvals |
| PromotionService.RowsAreEarned | src/agent_mesh/services/self_improvement.py:348-412 | each stored promotion names an evaluation of its proposal and tenant whose checks, at the operation that made it, were all true or whose scores met the gate, and went through with the reflected patch |
| VersionPointer.PointerUndoIff | src/agent_mesh/services/self_improvement.py:406-442 | rolling back all promotions that were given the current pointer restores the original pointer exactly when it was not null or there were none |
| VersionPointer.ChainUndone | src/agent_mesh/services/self_improvement.py:416-442 | rolling back the last n promotions of a chain shortens it by n, or stops where there was no previous version |
| VersionPointer.PartialUndo | src/agent_mesh/services/self_improvement.py:416-442 | rolling back fewer than all of them always restores the pointer they started from |
| VersionPointer.ServedIsLastLoaded | src/agent_mesh/services/version_pin.py:37-54 | in every history the served version is the store's pointer at the last load |

## Left out

- Overlapping deliveries of one task and exactly-once execution across a crash: not promised by the code; `LogReplay`, `SingleRun`, `WriteGate`, `GateHistory`, `ResumeRuns` and `SqlRuns` still cover crashes.
- Connection pools, failed statements and transactions other than the guarded UPDATE: each SQL statement is one update of a map. A repository call or tool that raises stops `process` where it is, which is a crash of the protocol.
- NUMERIC rounding of costs in SQL, floating-point rounding everywhere, lone surrogates and floats in payloads: reals, integers and scalar strings are exact here.
- Fresh UUIDs and real clocks: a counter; the SQL lemmas take the database clock as a parameter.
- Sessions, approval evidence texts, and budget columns beside tenant, owner, task, cost and time: not read by the modelled code.
- `metadata["approval_tokens"]` that is not a dictionary: the worker would raise; the model takes it as absent or a dictionary.
- Token texts inside the stash: the protocol keeps what a token vouches for; its text is the subject of `ApprovalToken`.
- Token verification at the API before a decision is submitted: the protocol lets any approver decide.
- The refusal quoted in the note of a budget halt's event: the note is the fixed words it begins with.
- `resume_mesh`: it re-enters the graph at the write gate, after the last budgeted node, so the model's resume never halts.
- Which reads and writes the graph proposes: arbitrary; the four nodes are modelled for their budget checks only.
- Unicode digits and the length limit in Python's `int`: `Decimal.ParseInt` reads ASCII digits, signs, underscores and surrounding space.
- Interleavings inside one self-improvement operation: each is one step; AI-BOM contents are left out and the held-out scores come as parameters; evaluations are listed in the order they were made, as their growing time stamps order them.
- PromotionService.Service.RecordApprovalDecision: has no branch for a linked record that is missing, because a service never loses one; the history theorems keep that branch.
- Ledger-only decisions and edited patches by other actors: operations of the histories, but not methods of `PromotionService.Service`.
- Budget and gateway ledgers under SQL: both repositories keep the first row of an id, and the sums and listings read the same columns.
- Budget.OverspendBound: assumes costs are not negative and no call costs more than it was checked for, because the code does not bound the actual cost.
- Budget.TaskCapIff: speaks of the tracker used with a task id, because the graph passes none (see Budget.UntrackedTasks).
- Risk classes, `can_auto_promote`, request mappers, ingress adapters, tool gateway, sandbox, observability, Langfuse, deploy scripts: straight-line or foreign code.
