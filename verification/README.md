# Gate dispatch: a verified model

The system dispatches hydropower gates. An operator drafts a directive for a gate, a second person approves it, the
directive executes, and a confirmation records that it was carried out or failed. Four kinds of rows take part
(reservoirs, gates, directives, confirmations), every row carries a version for optimistic locking, and every change
leaves an audit entry. This project models the services, the transactions they write and the rate limiter in front of
them, and proves what survives when many requests interleave and when writes fail.

## How it is built

| file | content |
|---|---|
| `text.dfy` | trimming, upper-casing and case folding over ASCII, and what they are |
| `model.dfy` | kinds, statuses, the four transition graphs, rows, approvals, audit entries, requests |
| `store.dfy` | the tables, unique indexes, and what one transaction (at most three row writes with their evidence) does |
| `planning.dfy` | what each service decides to write, check by check, from the rows it has read; `Serve` runs one request alone |
| `database.dfy` | the class `Database`: tables changed in place, savepoints, and an oracle that may fail any write or commit |
| `services.dfy` | the class `Service`: the service methods statement by statement, proved against the plans for every oracle |
| `protocol.dfy` | many requests at once: separate read events, one atomic commit event, any interleaving |
| `journal.dfy` | the audit log read back: histories, paths, and the blocks the log is cut into |
| `laws.dfy` | what holds in every run, whatever versions clients send |
| `lives.dfy`, `safety.dfy`, `consistency.dfy` | the inductive invariant of careful runs: one row, one commit, all entities together |
| `outcomes.dfy` | the main results about careful runs |
| `alone.dfy` | requests that run alone, and several of them one after the other, told as runs |
| `serving.dfy` | what each request achieves when it runs alone in a consistent state |
| `progress.dfy` | what can always still be done: execute, abort, complete |
| `exits.dfy` | when an executing directive can leave execution, exactly |
| `reference.dfy` | creates, updates and deletes written out: accepted exactly when, and every column and entry they leave |
| `decisions.dfy` | the status changes written out in the same way, with approvals and linked rows |
| `refusals.dfy` | what each error says about the request that gets it |
| `attribution.dfy` | every entry and approval of a run belongs to a request that was made |
| `creations.dfy` | free codes and identifiers: new rows can always be created |
| `completion.dfy` | when an executing directive can be completed, exactly |
| `guards.dfy` | what the version guard protects, exactly |
| `limits.dfy` | what guessed versions and deletes break |
| `links.dfy` | the linked entries of the log concern the rows that are linked |
| `sequential.dfy` | requests served one after the other: the whole log replays, deletes included |
| `witness.dfy` | a run from empty tables into the states the results speak of |
| `acceptance.dfy` | which requests are accepted |
| `ratelimit.dfy` | the in-memory rate limiter: its counters and its quota per minute |
| `rateinterval.dfy` | its bound on any 60 seconds |

A request reads its rows one at a time, outside any transaction, and then commits in one step. `Protocol.Run` gives the
system after any list of events: starts, reads and commits of any number of requests in any order, where a commit may
also fail for reasons of its own. The results of `outcomes.dfy` and `exits.dfy` are about all such lists.

*Careful* runs are those in which a committing update or transition sent a version that is not ahead of the row it then
read. That is so whenever clients send versions their rows showed before (`Outcomes.ShownVersionsAreHonest`); the web
client sends the version it displays (frontend/src/stores/factory.ts:11). Version counting, row evolution, the record of
deletes and the grammar of the log need no such condition.

How far the guard reaches without it is told by `Guards.GuardIsExact`: a version that is ahead of the row is caught only
if the row can never get there. A pending directive, for example, has at most three further versions, and at most two if
its gate is deleted; a gate has no bound. `Limits.GuessedVersionBreaksHistory` shows in a run what an abort that guesses
the next version does.

Runs start from empty tables. Actors are not empty, and a directive's requested gate state is one of the values the
request binding admits (backend/internal/dto/operation_directive.go:20); `Model.Bound` says so.

Four findings:

- The guard on a delete is only as fresh as its read. A delete carries no version, so a draft that was submitted, approved
  and executed in the meantime is still deleted. Such a directive never leaves execution, although its gate is live
  (`Limits.LateDeleteLosesDirective`). The entry of a delete continues the history of a directive or confirmation exactly
  if no entry since the read has changed its status (`Limits.DeleteJoinsHistory`). Served one after the other, requests
  leave a log that replays as a whole (`Sequential.SequentialReplay`).
- A directive in execution can leave it exactly if its own row is live and its gate is live, or a request under way has
  read the gate where it has to go and is otherwise up to date (`Exits.ExitIsExact`).
- It can be completed exactly if, besides, no deleted confirmation names it, and what is under way, if the gate is
  deleted, is a confirmation (`Completion.CompletionIsExact`). Deleting the pending confirmation is enough to lose that for
  good, because the deleted row keeps its place in the unique index (`Completion.DeletedClaimIsReached`).
- The limiter keeps its quota per minute exactly for clocks that never return to a minute they have left
  (`RateLimit.QuotaClockIsExact`), and its bound on 60 seconds exactly for clocks that do not change the minute twice
  within them (`RateInterval.IntervalClockIsExact`).

All results about entities count soft-deleted rows.

`reference.dfy`, `decisions.dfy` and `refusals.dfy` do not speak through the functions by which the services decide. They
say in terms of tables, columns and letters when a request served alone is accepted, what it leaves behind, and what an
error means, for all tables that satisfy the invariant of careful runs (`Consistency.SafeTables`). As the methods of
`Service` and the events of `Protocol` are proved against those same functions, this is what they do, too.

## Model

| member | source | states |
|---|---|---|
| `Outcomes.OptimisticLockSound` | backend/internal/repository/base.go:88-101 | in every careful run, each row a successful commit overwrites (its own and the linked ones) is still the row that was read and validated |
| `Laws.VersionIdentifiesContent` | backend/internal/repository/base.go:88-101 | in every run, two moments that show the same version of a row show the same content; versions never fall and deleted rows never come back |
| `Guards.GuardIsExact` | backend/internal/repository/base.go:88-99 | for every live row of a careful run and every version: over all careful continuations an update guarded by that version overwrites only the row that was read if and only if the version is not ahead of the one read or is out of the row's reach; otherwise a reservoir, gate or directive gets there in another status |
| `Guards.CommitGuardIsExact` | backend/internal/repository/base.go:88-99 | for requests that update one row and record no approval, the same condition decides the whole commit |
| `Limits.GuessedVersionBreaksHistory` | backend/internal/service/operation_directive.go:181-186 | from every careful run with an approved directive and a live gate: an abort that guesses the next version starts, at most two requests execute the directive, and the abort still commits, leaves the gate unlocked and breaks the history |
| `Outcomes.ShownVersionsAreHonest` | frontend/src/stores/factory.ts:11 | a run in which every update and transition starts with a version its row showed before is careful |
| `Laws.VersionCountsEntries` | backend/internal/repository/base.go:88-110 | in every run a row's version equals the number of non-delete audit entries of its entity |
| `Laws.LivenessIsLogged` | backend/internal/repository/base.go:112-121 | in every run a row is deleted exactly if the log holds an entry that deletes it; there is never a second one, and no entry of that row follows it |
| `Laws.DeadRowsAreFinal` | backend/internal/repository/base.go:88-121 | in every run a deleted row never changes again |
| `Outcomes.CommitRaisesVersionsByOne` | backend/internal/service/gate_unit.go:127-135 | a commit raises the version of each row it writes by one and changes no other row |
| `Laws.LogParses` | backend/internal/service/execution_confirmation.go:164-194 | the whole audit log of every run is a sequence of transaction blocks; linked entries follow the first entry of their block, with its actor and request and with matching statuses, and a delete stands alone |
| `Attribution.CommitIsSigned` | backend/internal/service/operation_directive.go:172-199 | every entry and approval that a commit adds has the actor, the identifier, the verb, the subject and the target (an approval the role, too) of the request that is committed |
| `Attribution.EveryBlockHasItsRequest` | backend/internal/service/execution_confirmation.go:164-195 | in every run each block of the log belongs to one request that started in the run, which all its entries tell, and no request has two |
| `Attribution.EveryEntryHasItsRequest` | backend/internal/service/execution_confirmation.go:164-195 | in every run each entry names the actor and identifier of a request that started in it |
| `Attribution.ApprovalsAreLogged` | backend/internal/service/operation_directive.go:169-186 | in every run each approval was given by a request that started in it and stands beside the entry of the same act, every logged submission or approval has its approval row, and no directive has two of one stage |
| `Attribution.ConfirmedByTheOneWho` | backend/internal/service/execution_confirmation.go:135-138 | in every careful run a confirmation is confirmed exactly if it names somebody, who is the actor of its last entry, from pending to confirmed |
| `Outcomes.DeletedWhile` | backend/internal/service/operation_directive.go:211-218 | in every run the entry that deletes a directive says it was a draft, and one that deletes a confirmation says it was pending |
| `Sequential.DeletedAsDrafts` | backend/internal/service/operation_directive.go:211-218 | served one after the other, deleted directives are drafts and deleted confirmations are pending |
| `Links.LinkedEntriesMatch` | backend/internal/service/execution_confirmation.go:164-194 | in careful runs they belong to the directive that the confirmation names and to the gate that the directive acts on |
| `Outcomes.AuditReplay` | backend/internal/service/operation_directive.go:183-199 | in every careful run the history of every row, its deletes set aside, starts from nothing, is unbroken, uses only graph edges and permitted edits, and ends in the row's status |
| `Sequential.SequentialReplay` | backend/internal/service/operation_directive.go:183-220 | served one after the other, all entries of a row, its delete included, form an unbroken chain that ends in its status, or in deleted exactly if it is deleted |
| `Outcomes.TwoPersonEvidence` | backend/internal/service/operation_directive.go:160-180 | an approved, executing or completed directive has exactly two approval rows, by two persons whose names differ in more than case, in permitted roles, matching its own fields; the other states have what they must have |
| `Outcomes.EntitiesAgree` | backend/internal/service/execution_confirmation.go:145-181 | a directive is completed if and only if a confirmed confirmation names it; failed and cancelled mean aborted, pending means executing or aborted; at most one confirmation per directive ever |
| `Outcomes.ConfirmationsCopyDirectives` | backend/internal/service/execution_confirmation.go:92-109 | every confirmation names a directive and agrees with it on facility, category and risk, also after edits |
| `Outcomes.LateDecisionChangesNothing` | backend/internal/service/execution_confirmation.go:164-194 | once a directive has left execution, any abort, confirmation or failure still racing for it changes nothing at all |
| `Outcomes.UniqueHistory` | backend/internal/constants/status.go:44-51 | the path of a completed directive is the one full path, that of an aborted one a prefix with an abort; it leaves execution at most once |
| `Outcomes.DirectivePath` | backend/internal/constants/status.go:44-51 | the statuses of any unbroken directive history, told by where it ends |
| `Outcomes.SubmittedDirectivesAreFrozen` | backend/internal/service/operation_directive.go:85-87 | from submission on, only status, version, approver and deletion of a directive ever change |
| `Outcomes.DirectivesTerminate` | backend/internal/constants/status.go:44-51 | a change of status raises the rank, and every version after submission is a step in rank, so at most three follow |
| `Outcomes.GatesMoveSafely` | backend/internal/constants/status.go:37-42 | whichever service moves it, a gate follows its graph, and opens from closed or locked only through moving |
| `Outcomes.OpensThroughMoving` | backend/internal/constants/status.go:37-42 | the same of any path in the gate graph |
| `Outcomes.OutcomesSettleGates` | backend/internal/service/execution_confirmation.go:154-161 | in no run does a directive outcome leave a gate it writes in moving |
| `Outcomes.OutcomePlacesGate` | backend/internal/service/execution_confirmation.go:184-194 | after an outcome the gate is at its goal if the commit wrote it, else it was there when it was read |
| `Outcomes.DirectivePlacesGate` | backend/internal/service/operation_directive.go:189-199 | after an abort of an execution the gate is locked if the commit wrote it, else it was locked when it was read; likewise for the beginning of an execution |
| `Exits.ExitIsExact` | backend/internal/service/execution_confirmation.go:145-194 | some careful continuation takes an executing directive out of execution if and only if its row is live, and its gate is live or a request under way holds the gate at its goal with its other rows and its version current |
| `Exits.LeavingIsDecisive` | backend/internal/service/operation_directive.go:189-191 | once the gate is deleted, a commit that ends the execution had read the gate at its goal |
| `Exits.DecisiveCommits` | backend/internal/service/execution_confirmation.go:184-186 | and every such request can commit |
| `Progress.CanExecute` | backend/internal/service/operation_directive.go:125-204 | from every reachable state a live draft with a live gate is brought to execution by at most four requests |
| `Progress.CanAbort` | backend/internal/service/operation_directive.go:142-158 | from every reachable state one request of an operator, reviewer or admin aborts an executing directive whose row and gate are live, and locks the gate |
| `Serving.AbortServes` | backend/internal/service/operation_directive.go:142-158 | served alone, the request aborts the directive, locks the gate and changes nothing else |
| `Progress.CanComplete` | backend/internal/service/execution_confirmation.go:145-161 | with a live pending confirmation, at most two transitions of the gate and then the confirmation complete the directive, and the gate ends where it was to go |
| `Serving.DecisionServes` | backend/internal/service/execution_confirmation.go:145-194 | a confirmation or failure without interference: all columns of the confirmation and the directive, who confirmed among them, and the place of the gate |
| `Exits.StrandedForever` | backend/internal/service/execution_confirmation.go:150-153 | where that condition fails it fails for good: no careful run takes the directive out of execution any more |
| `Completion.CompletionIsExact` | backend/internal/service/execution_confirmation.go:44-194 | some careful continuation completes an executing directive if and only if it is live, no deleted confirmation names it, and its gate is live or a confirmation under way holds the gate at its goal with its other rows and its version current |
| `Completion.BlockedForever` | backend/internal/service/execution_confirmation.go:145-161 | where that condition fails, the directive goes on executing or is aborted, in every careful continuation |
| `Completion.DeletedClaimIsReached` | backend/internal/service/execution_confirmation.go:201-215 | from every careful run with a pending confirmation, deleting it leaves a directive that can still be aborted and never completed |
| `Exits.NeverCompletes` | backend/internal/service/execution_confirmation.go:48-61 | the deleted pending confirmation of a directive rules out its completion in every careful continuation |
| `Creations.NewConfirmation` | backend/internal/service/execution_confirmation.go:44-79 | a live executing directive with a live gate that no confirmation names can always be given one |
| `Exits.GateReadEarlierStillCompletes` | backend/internal/service/execution_confirmation.go:184-186 | the run in which a confirmation reads the gate in place, the gate is deleted, and the confirmation still completes the directive |
| `Witness.ConfirmableIsReached` | backend/internal/service/execution_confirmation.go:44-79 | a careful run from empty tables reaches a directive in execution with a live gate and a live pending confirmation |
| `Alone.SoloServes` | backend/internal/repository/base.go:37-44 | a request whose events nothing interrupts does to the running system what the service method does to the tables |
| `Alone.SolosReach` | backend/internal/repository/base.go:37-44 | requests that succeed one after the other make a careful run with the same effect |
| `Limits.DeleteIsUnguarded` | backend/internal/repository/base.go:112-121 | a delete that passed its checks commits if and only if the row is live, whatever has become of it |
| `Limits.DeleteJoinsHistory` | backend/internal/service/operation_directive.go:206-220 | the entry of a delete continues the history of a directive or confirmation if and only if no entry between the read and the commit changed its status |
| `Limits.LateDeleteLosesDirective` | backend/internal/service/operation_directive.go:206-220 | from every careful run with a live draft and a live gate: a delete reads the draft, at most four requests bring it to execution, the delete commits, and the directive executes for ever |
| `Safety.CommitSeesSnapshots` | backend/internal/service/execution_confirmation.go:176-178 | the first row is guarded by the client's version and the linked rows by the versions read, and all of them equal their snapshots |
| `Consistency.NewConfirmationAgrees` | backend/internal/service/execution_confirmation.go:48-70 | a confirmation inserted after its directive was read executing still agrees with it |
| `Consistency.CommitConsistent` | backend/internal/service/execution_confirmation.go:145-181 | every successful commit keeps directives, gates and confirmations consistent |
| `Acceptance.DirectiveTransitionAccepted` | backend/internal/service/operation_directive.go:131-164 | exactly which directive transitions are accepted, the roles and the letters of names written out |
| `Acceptance.ConfirmationTransitionAccepted` | backend/internal/service/execution_confirmation.go:129-161 | exactly which confirmation transitions are accepted |
| `Journal.BlocksCoverLog` | backend/internal/service/execution_confirmation.go:164-194 | cutting the log into blocks loses nothing |
| `Journal.PathEnds` | backend/internal/constants/status.go:60-63 | the statuses of an unbroken history form a path in the graph of its kind from the initial status to the current one |
| `Text.NormIdempotent` | backend/internal/repository/base.go:74-78 | looking up a stored code finds that same code |
| `Text.TrimIsExact` | backend/internal/repository/base.go:74-78 | trimming takes away exactly the white space around a text |
| `Text.NormIsExact` | backend/internal/repository/base.go:74-78 | the stored form of a code is the text without the white space around it, every lower-case letter replaced by its capital and nothing else changed |
| `Text.EqualFoldIsExact` | backend/internal/service/operation_directive.go:161 | names count as equal exactly if they agree letter by letter, whatever the case |
| `Reference.GraphsAreMirrored` | frontend/src/types/status.ts:8-13 | the services have exactly the edges that the web client lists, for each kind |
| `Reference.CreateDirectiveIs` | backend/internal/service/operation_directive.go:43-78 | served alone: accepted if and only if its texts are complete, its code is free and its code leads to a live, unlocked gate of the same facility; leaves a live draft of version 1, asking for a closed gate unless told otherwise, all columns and the entry given |
| `Reference.UpdateDirectiveIs` | backend/internal/service/operation_directive.go:80-123 | accepted if and only if a live draft, at the version sent, complete, and with such a gate; every column of the row left behind |
| `Reference.CreateConfirmationIs` | backend/internal/service/execution_confirmation.go:44-79 | accepted if and only if complete, of a free code, and its code leads to a live executing directive that no confirmation, live or deleted, names; takes that directive's columns |
| `Reference.UpdateConfirmationIs` | backend/internal/service/execution_confirmation.go:81-121 | accepted if and only if live and pending, at the version sent, complete, still of the same directive, and that one executes |
| `Reference.CreateGateIs` | backend/internal/service/gate_unit.go:43-74 | accepted if and only if complete, of a free code, and its code leads to a live reservoir of the same facility |
| `Reference.UpdateGateIs` | backend/internal/service/gate_unit.go:76-116 | accepted if and only if live, at the version sent, complete, still of the same reservoir, and that one is live and of the facility given |
| `Reference.CreateReservoirIs` | backend/internal/service/reservoir.go:42-66 | accepted if and only if complete and of a free code |
| `Reference.UpdateReservoirIs` | backend/internal/service/reservoir.go:68-98 | accepted if and only if live, at the version sent, and complete |
| `Reference.DeleteIs` | backend/internal/service/operation_directive.go:206-220 | accepted if and only if live, and a draft if it is a directive, pending if it is a confirmation; only marks the row |
| `Decisions.SubmitIs` | backend/internal/service/operation_directive.go:169-174 | accepted if and only if a live draft at the version sent, from an operator or admin; the row, the approval and the entry written out |
| `Decisions.ApproveIs` | backend/internal/service/operation_directive.go:160-180 | accepted if and only if live and pending at the version sent, from a reviewer or admin whose name differs from the submitter's in more than case; the row, the approval and the entry written out |
| `Decisions.ExecuteIs` | backend/internal/service/operation_directive.go:142-203 | accepted if and only if live and approved at the version sent, from an operator or admin, with a live unlocked gate; both rows and entries written out |
| `Decisions.AbortIs` | backend/internal/service/operation_directive.go:142-203 | accepted if and only if live and pending, approved, or executing with a live gate, at the version sent, from an operator, reviewer or admin; only out of execution is the gate locked |
| `Decisions.NoOtherTarget` | backend/internal/service/operation_directive.go:134-136 | no request brings a directive to any other status |
| `Decisions.ConfirmIs` | backend/internal/service/execution_confirmation.go:123-199 | accepted if and only if live and pending at the version sent, with a live executing directive and its live gate at the goal or one move from it; the three rows and their entries written out |
| `Decisions.FailIs` | backend/internal/service/execution_confirmation.go:123-199 | accepted if and only if live and pending at the version sent, with a live executing directive and its live gate, wherever it is; the three rows and their entries written out |
| `Decisions.CancelIs` | backend/internal/service/execution_confirmation.go:123-199 | accepted if and only if live and failed at the version sent; nothing else is written |
| `Decisions.NoOtherDecision` | backend/internal/service/execution_confirmation.go:129-131 | no request brings a confirmation to any other status |
| `Decisions.StatusChangeIs` | backend/internal/service/gate_unit.go:118-137 | for reservoirs and gates: accepted if and only if live, at the version sent, and along a listed edge |
| `Refusals.EveryRefusalIsExplained` | backend/internal/service/errors.go:6-10 | whatever the request: the error it gets when served alone is true of it, each error told in terms of rows and names |
| `Services.MethodsServe` | backend/internal/service/operation_directive.go:125-204 | the specifications of the service methods are those the protocol uses |
| `Databases.Database.Update` | backend/internal/repository/base.go:88-101 | the optimistic update: exactly the guarded swap, or an error and no change |
| `Databases.Database.Create` | backend/internal/repository/base.go:80-82 | the insert under the unique indexes, or an error and no change |
| `Databases.Database.Remove` | backend/internal/repository/base.go:112-121 | the soft delete of a live row, or an error and no change |
| `Databases.Database.GetByCode` | backend/internal/repository/base.go:74-78 | the live row of this kind that is stored under the code, told letter by letter, if there is one |
| `Databases.Database.CountByDirectiveCode` | backend/internal/repository/execution_confirmation.go:55-60 | the number of live confirmations that name the directive |
| `Databases.Database.Finish` | backend/internal/repository/base.go:37-44 | a transaction that fails, or cannot commit, returns to where it began; an inner one to its savepoint |
| `Databases.Database.TransitionWithApproval` | backend/internal/repository/operation_directive.go:65-78 | row, approval and audit entry together or not at all |
| `Databases.Database.TransitionWithAudit` | backend/internal/repository/base.go:103-110 | row and audit entry together or not at all |
| `Services.Service.TransitionDirective` | backend/internal/service/operation_directive.go:125-204 | for every pattern of failing writes: all of its plan and the stored row, or the error and the database as it was |
| `Services.Service.TransitionDirectiveAmid` | backend/internal/service/operation_directive.go:125-204 | the same code with other requests committing between its reads and its transaction: exactly the attempt of the protocol |
| `Services.Service.LinkedGate` | backend/internal/service/operation_directive.go:142-158 | finds the gate of a directive and where it has to go, or refuses with the error the plan of the same rows gives |
| `Services.Service.CreateDirective` | backend/internal/service/operation_directive.go:43-78 | the same for creating a directive |
| `Services.Service.UpdateDirective` | backend/internal/service/operation_directive.go:80-123 | the same for editing a draft |
| `Services.Service.RemoveDirective` | backend/internal/service/operation_directive.go:206-220 | the same for deleting a draft |
| `Services.Service.TransitionConfirmation` | backend/internal/service/execution_confirmation.go:123-199 | the same for confirming, failing and cancelling |
| `Services.Service.TransitionConfirmationAmid` | backend/internal/service/execution_confirmation.go:123-199 | the same code with other requests committing between its reads and its transaction: exactly the attempt of the protocol |
| `Services.Service.LinkedDirective` | backend/internal/service/execution_confirmation.go:145-161 | finds directive, gate and goal of a pending confirmation, so that the rows to write are those of the plan, or refuses as the plan does |
| `Services.Service.CreateConfirmation` | backend/internal/service/execution_confirmation.go:44-79 | the same for creating a confirmation |
| `Services.Service.UpdateConfirmation` | backend/internal/service/execution_confirmation.go:81-121 | the same for editing a pending confirmation |
| `Services.Service.RemoveConfirmation` | backend/internal/service/execution_confirmation.go:201-215 | the same for deleting a pending confirmation |
| `Services.Service.CreateGate` | backend/internal/service/gate_unit.go:43-74 | the same for creating a gate |
| `Services.Service.UpdateGate` | backend/internal/service/gate_unit.go:76-116 | the same for editing a gate |
| `Services.Service.TransitionGate` | backend/internal/service/gate_unit.go:118-137 | the same for moving a gate by hand |
| `Services.Service.RemoveGate` | backend/internal/service/gate_unit.go:139-150 | the same for deleting a gate |
| `Services.Service.CreateReservoir` | backend/internal/service/reservoir.go:42-66 | the same for creating a reservoir |
| `Services.Service.UpdateReservoir` | backend/internal/service/reservoir.go:68-98 | the same for editing a reservoir |
| `Services.Service.TransitionReservoir` | backend/internal/service/reservoir.go:100-119 | the same for a reservoir's status |
| `Services.Service.RemoveReservoir` | backend/internal/service/reservoir.go:121-132 | the same for deleting a reservoir |
| `RateLimit.WindowIsMinute` | backend/internal/middleware/ratelimit.go:74 | minutes last 60 seconds each and follow each other without a gap |
| `RateLimit.CounterIsExact` | backend/internal/middleware/ratelimit.go:71-94 | as long as the clock does not return to a minute it has left, the counter is the number of calls with that key so far this minute; eviction is invisible |
| `RateLimit.TableStaysSmall` | backend/internal/middleware/ratelimit.go:85-94 | while the minutes do not go back, the table holds at most 512 keys, or at most the keys called this minute |
| `RateLimit.QuotaIsExact` | backend/internal/middleware/ratelimit.go:48-94 | as long as the clock does not return to a minute it has left, the counters admit per key and minute exactly the smaller of the limit and the calls |
| `RateLimit.QuotaClockIsExact` | backend/internal/middleware/ratelimit.go:48-94 | a schedule of instants keeps that quota for all keys and limits if and only if the clock never returns to a minute it has left |
| `RateInterval.IntervalBound` | backend/internal/middleware/ratelimit.go:48-94 | the counters admit at most twice the limit in any 60 seconds, unless three calls within 60 seconds are separated twice by a change of the minute |
| `RateInterval.IntervalClockIsExact` | backend/internal/middleware/ratelimit.go:48-94 | a schedule of instants keeps that bound for all keys and limits if and only if there are no such calls |
| `RateInterval.NeverReturnsSuffices` | backend/internal/middleware/ratelimit.go:71-83 | a clock that never returns to a minute it has left keeps it |
| `RateLimit.ClockIsExact` | backend/internal/middleware/ratelimit.go:71-83 | a schedule of instants is counted exactly for every assignment of keys if and only if the clock never returns to a minute it has left |
| `RateLimit.Limiter.IncrementLocal` | backend/internal/middleware/ratelimit.go:71-83 | for any clock: counts a call exactly if the clock has not returned to a minute, and keeps the table small if the minutes have not gone back |
| `RateLimit.Limiter.CleanupLocal` | backend/internal/middleware/ratelimit.go:85-94 | below 512 keys drops nothing, from 512 keys on exactly the counters of earlier minutes |
| `RateLimit.Limiter.Admit` | backend/internal/middleware/ratelimit.go:37-55 | for any clock: admits a call if and only if the counter is within the limit, and reports what remains |

## Left out

- Handlers, routing, JSON binding, tokens, passwords, response envelopes: actor and role are inputs; trimming of the requested status is taken as done.
- SQL drivers, start-up and seed rows: seed rows have no audit entries, so runs start from empty tables.
- Redis: the limiter is modelled with its memory counters only, and its mutex as atomic calls.
- Lists, pages, searches, status counts and audit summaries: single database queries without state.
- Order of the log: entries stand in the order of commits; on a server that runs transactions in parallel the identifiers of unrelated transactions may interleave, so `Laws.LogParses` speaks of the log by commit.
- Guards.CommitGuardIsExact: covers commits that hang on one guard; where an approval or a linked row is written too, the other writes may refuse as well, and `Outcomes.OptimisticLockSound` gives the sufficient half.
- Timestamps, reasons and audit details: no result depends on them; the descriptive columns are one opaque value apart from name and owner.
- Unicode: trimming and case folding are over ASCII.
- Integer width: versions are unbounded; a version would have to pass 2^64 to wrap.
- Failing reads: a read finds its row or does not; only writes and commits fail.
- The second query of the directive lookup by code: the row is read once, at the moment of the second query, which finds the same row because codes never change.
- Interference inside the methods: `TransitionDirectiveAmid` and `TransitionConfirmationAmid` put it between all reads and the transaction; reads at different moments are part of the protocol only, and the other methods are proved for calls without interference.
- Deadlocks and lock waits: a victim is a commit that fails.
- Entities as objects: rows are values inside the in-place tables of `Database`; the four tables share one row type, keyed by kind and identifier as the audit log keys them.
