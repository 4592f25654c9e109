# Registration saga: verification project

The registration saga service owns the workflow that creates an account: it stores a
session row and step rows in PostgreSQL, sends commands to the user, auth and mail
services, consumes their results from Kafka, and later verifies the mailed code and
activates the user. This project models that workflow in Dafny and proves what holds of
it in every run, under any interleaving of callers, result deliveries and goroutines.
`dafny verify dfyconfig.toml` checks everything.

## How the model is laid out

The concurrent core is a state machine over one session. Every SQL statement, remote call
and publication is one atomic step; the processes are the service calls, the result
handlers and the goroutines, in any number, and every call may fail. The imperative
modules then write the service down as its sequential methods and prove each of them
equal to its process of the state machine running alone, and to an outcome stated without
control points: rows, answer and exact log by which of its calls is the first to fail
(`SagaOutcomes.dfy`). `Server.dfy` lets these methods
serve any sessions in any order and proves that every session has lived through a run of
its machine, so the theorems about runs hold of the service's sessions.

| file | what it holds |
|---|---|
| `Domain.dfy` | statuses, step keys, rows, the aggregate of a step table, the guard of the step update (`internal/domain/session.go`, `internal/infra/postgres/repository.go:204-210`) |
| `Saga.dfy` | the state machine: `StepStart` (`service.go:84-133`), `StepDispatch` (`start_dispatch.go`), `StepHandler` (`service.go:136-269`), `StepSync` (`repository.go:44-86`), `StepCompensate` (`service.go:350-439`), `StepVerify`, `StepCompletion`, `StepStatusCall` (`verify_email.go`) |
| `SagaStructure.dfy` | who holds the row lock, who created the rows, when a session is live |
| `SagaVerification.dfy`, `SagaAbandoned.dfy`, `SagaGate.dfy` | verification and token claim at most once; verifications that can never be resumed; no verification without a table of completed steps |
| `SagaProgress.dfy`, `SagaQuiescence.dfy`, `SagaAgreement.dfy` | steps move forward; quiescent consistency of the aggregate status |
| `SagaLastWrite.dfy`, `SagaFalls.dfy`, `SagaClaims.dfy` | exactly when a settled status agrees with the steps, when the status falls, and when a session can still hand out its tokens |
| `SagaSuccess.dfy`, `SagaCompensation.dfy`, `SagaSticky.dfy`, `SagaForward.dfy` | convergence of success runs, the single code-sent notice; failures stick and are compensated; conditions under which the status only moves forward |
| `SagaScenarios.dfy` | families of runs: a registration that succeeds, one that settles inconsistent, one whose status falls |
| `SagaEndings.dfy` | what ended calls, handlers and goroutines have left behind in every run: whom they answered, whom they deactivated, what they published |
| `SagaSolo.dfy`, `SagaOutcomes.dfy` | a process running alone; what each call then leaves behind, spelled out for every stored row and every pattern of call failures |
| `SagaStatements.dfy`, `SagaStarts.dfy` | the SQL statement behind every step; racing Start calls of one session |
| `Tables.dfy`, `Repository.dfy` | tables, constraints, outbox triggers and seeding; the repositories as methods on a mutable database |
| `Service.dfy`, `Server.dfy` | the application service as methods, each refining its process; the service at work for many sessions |
| `World.dfy` | all sessions of one database, meeting at the lookups and unique indexes |
| `Messaging.dfy`, `EventBroker.dfy` | claim/handle/release inside the Kafka retry and dead-letter loop: the state machine, and the code as methods |
| `PullConsumer.dfy` | configuration, adaptive plans and the bounded queue of the NATS pull consumer |

`creator` and `verifier` in `Saga.Shared`, the claimant in `Messaging.Claim`, and
`Messaging.Consumer.fates` are auxiliary: no transition reads them. An event that is not
enabled changes nothing, so a theorem about all event sequences is a theorem about all
runs. Rows of the table below whose member is a method state its whole effect on the
database, the observable log and the other sessions' rows.

## Where the code and its descriptions part

- `internal/domain/session.go` calls `failed` non-recoverable, and the comment on
  `ReconcileStatus` says its lock keeps a stale reconciliation from overwriting a newer
  status. The aggregate is written unconditionally (`internal/infra/postgres/repository.go:79`):
  a duplicate result handled during verification moves `verifying_email` back to
  `in_progress` (`SagaScenarios.DuplicateRegresses`). The status falls exactly when a
  commit writes an aggregate below the stored status, or a verification write finds a
  status above its own (`SagaFalls.StatusFallsIff`), which the WHERE clause of the update
  could check; a run is forward-only exactly if it has no such write
  (`SagaFalls.ForwardIff`). `SagaForward.ForwardOnly` gives conditions on callers that
  rule them out; claims and launches are at most once without any.
- The step guard protects only `completed` from `in_progress`. An auth success handled
  after a mail failure re-activates the failed mail step, and the settled status can then
  contradict the steps (`SagaScenarios.RevivedMailDisagrees`). It does so exactly when the
  last status write set `failed` over a table without a failed step
  (`SagaLastWrite.SettledAgreesIff`), which the update in `compensateRegistrationFailure`
  could check; agreeing results without such a re-activation rule it out
  (`SagaAgreement.AgreedResultsSettle`).
- The start lookups ignore `failed` and `completed` sessions, which suggests that their
  email may be used again; the unique indexes do not ignore them, so such a Start ends in
  an error (`Service.RefusedAfterChecks` says exactly when).
- A VerifyEmail that loses one of its later writes leaves the verify step behind; every
  retry then fails on its primary key and the session can never be completed
  (`SagaAbandoned.AbandonedForever`). A VerifyEmail without failures on a `code_sent`
  session gets through exactly if there is no verify step (`SagaClaims.VerifyLaunchesIff`),
  and `SagaClaims.ClaimableIff` says exactly which sessions can still hand out tokens.
- The release of an event claim ignores its error. If it fails, the retry is acknowledged
  without being handled (`Messaging.FailedReleaseLosesEvent`). An event that is not
  dead-lettered is lost exactly if a release of its claim failed
  (`Messaging.LostIffReleaseFailed`).
- After a successful enqueue for retry the worker does not commit the message it retried
  (`internal/presentation/event_broker/kafka/broker.go:133`); the model keeps that.

## Model

| member | source | states |
|---|---|---|
| SagaStructure.AlwaysStructured | internal/infra/postgres/repository.go:44-86 | in every reachable state the row lock is held exactly by a process between its SELECT FOR UPDATE and its commit; a missing session has no steps; a session past `started` has its three initial steps; results exist only for live sessions |
| SagaVerification.VerificationAtMostOnce | internal/application/verify_email.go:54-64 | in every run, with any concurrent VerifyEmail calls, handlers and late reconciles, at most one completion goroutine is launched, at most one ActivateUser call made and one completed event published |
| SagaVerification.TokenClaimAtMostOnce | internal/application/verify_email.go:92-102 | in every run, answers of `completed` plus one if the status still is `completed` are bounded by the writes of `completed`, these by the inserts of the verify step, and these by one |
| SagaVerification.StatusJustifiesSteps | internal/application/verify_email.go:112-141 | `completed` and `tokens_claimed` imply both verification steps completed, a launch and a successful ActivateUser; `activating_user` implies the verify step completed, which implies an accepted code |
| SagaAbandoned.LostWriteAbandons | internal/application/verify_email.go:57-62 | a VerifyEmail whose second INSERT or status write fails leaves its verification abandoned |
| SagaAbandoned.AbandonedForever | internal/application/verify_email.go:54-64 | whatever happens after that, no completion is launched, ActivateUser is never called and the session is never completed |
| SagaClaims.VerifyLaunchesIff | internal/application/verify_email.go:39-64 | on every reachable `code_sent` session a VerifyEmail by its client without call failures launches the verification iff there is no verify step; otherwise it changes nothing and fails |
| SagaClaims.TokensWithinReach | internal/application/verify_email.go:112-152 | a session that is not exhausted, once its code was sent or its verify step inserted, has a continuation that ends `tokens_claimed` with one more answer of `completed` |
| SagaClaims.ExhaustedForever | internal/application/verify_email.go:92-102 | an exhausted session (verify step present, status not `completed`, no VerifyEmail past its first INSERT and no unfailed completion under way) stays so, whatever happens, and hands out no tokens |
| SagaClaims.ClaimableIff | internal/application/verify_email.go:54-152 | hence some continuation hands out tokens iff the session is not exhausted |
| SagaClaims.AbandonedIsExhausted | internal/application/verify_email.go:54-64 | an abandoned verification is one of the exhausted sessions |
| SagaGate.VerificationGate | internal/application/verify_email.go:39-52 | each launch is preceded in the log by a reconciliation snapshot with all steps, the three initial ones among them, completed together |
| SagaGate.SnapshotsAreReal | internal/infra/postgres/repository.go:60-63 | every logged snapshot is the step table at an earlier point of the run |
| SagaGate.GateOpenedInTable | internal/infra/postgres/repository.go:64-78 | hence before each launch there was a moment at which the table itself had all rows completed |
| SagaProgress.StepProgress | internal/infra/postgres/repository.go:172-210 | along events during which nothing is failed, no step row disappears and pending < in_progress < completed never decreases |
| SagaQuiescence.QuiescentStatus | internal/application/service.go:136-254 | with any handlers interleaved at statement level, once they and the dispatch have settled before verification, the status is the aggregate of the steps, or `failed` |
| SagaLastWrite.SettledAgreesIff | internal/application/service.go:371-382 | exactly: the settled status equals the aggregate of the steps iff the last status write agreed with the table it was written over, and differs iff that write set `failed` over a table whose aggregate was not |
| SagaAgreement.QuiescentConsistency | internal/infra/postgres/repository.go:64-85 | and if no failed step was overwritten, it is exactly the aggregate |
| SagaAgreement.AgreementKeepsFailures | internal/infra/postgres/repository.go:204-210 | no failed step is overwritten when results for one step agree and no auth success re-activates failed mail |
| SagaAgreement.AgreedResultsSettle | internal/application/service.go:136-254 | quiescent consistency from what callers can see: agreeing results in any number and order, with redeliveries, and respected mail failures |
| SagaScenarios.RevivedMailDisagrees | internal/application/service.go:200-203 | for every registration there is a run with agreeing results that settles with status `failed` over steps that aggregate to `in_progress`, because mail was re-activated before the last write |
| SagaScenarios.DuplicateRegresses | internal/infra/postgres/repository.go:79 | for every registration there is a failure-free run in which a duplicate result moves `verifying_email` back to `in_progress`, through a lowering write |
| SagaScenarios.RegistrationSucceeds | internal/application/verify_email.go:15-152 | for every registration there is a run in which its verification is launched, its user activated and its tokens handed out |
| SagaFalls.StatusFallsIff | internal/infra/postgres/repository.go:79 | in every reachable state an event makes the status fall iff it commits an aggregate below the stored status, or writes `verifying_email`, `activating_user` or `completed` over a higher one |
| SagaFalls.ForwardIff | internal/infra/postgres/repository.go:149-152 | a run never lets the status fall iff none of its events is such a write |
| SagaFalls.FallHasLowering | internal/infra/postgres/repository.go:79 | between two points of a run between which the status has fallen there is such a write |
| SagaForward.ForwardOnly | internal/application/service.go:136-323 | if calls do not overlap, each result is handled once, an unpublished command gets no success, mail does not fail before the auth success and failed dispatches are recorded, then between any two points of a run the status only climbs to `tokens_claimed` or drops to `failed` for good |
| SagaForward.OrderlyNeverLowers | internal/application/service.go:136-323 | under the same conditions no lowering write happens |
| SagaSuccess.SuccessConverges | internal/application/service.go:155-208 | for success results in any order with any duplicates, the settled step table is a closed form of the set of results, and the status is `code_sent` iff all three arrived |
| SagaSuccess.CodeSentAtMostOnce | internal/application/service.go:264-266 | in every run whatsoever the client is told `code_sent` at most once |
| SagaSuccess.CodeSentExactlyOnce | internal/application/service.go:256-269 | in settled success-only runs with a realtime publisher it is told exactly once if all three results arrived, and not before |
| SagaCompensation.FailureSticks | internal/application/service.go:350-439 | while the table holds a failed step, every handler that ends without a repository error, unless it had read the steps before and was not redelivered since, has had the right user and its auth record deactivated, has called the broker with registration.failed, and leaves the session failed |
| SagaSticky.FailedStepSticks | internal/application/service.go:271-283 | the same from a failed step on, until a success for that step (for mail: an auth success) overwrites it |
| SagaEndings.FailedResultCompensates | internal/application/service.go:350-439 | in every run, the handler of a failed result that ended without a repository error has written `failed`, had the user its result names, or else the session's, and the auth record deactivated, and called the broker with registration.failed |
| SagaEndings.FailedCompletionUndoes | internal/application/verify_email.go:154-173 | in every run, a completion that ended in failure, at whatever exit, has had the session's user and auth record deactivated and called the broker with registration.failed |
| SagaEndings.CompletionCompletes | internal/application/verify_email.go:112-152 | one that ended well had the code accepted and the user activated, and wrote `activating_user` and `completed` |
| SagaEndings.AnnouncementsNoted | internal/application/service.go:422-433 | the log notes exactly the attempts to publish registration.failed, each with its outcome |
| SagaEndings.DispatchedCommands | internal/application/start_dispatch.go:20-33 | a dispatch that ended well sent both commands after marking the session; one that could not send a command sent none after it |
| SagaEndings.OnlyTheClient | internal/application/verify_email.go:33-35 | in every run, whoever is answered a status by VerifyEmail or GetRegistrationStatus is the session's client |
| SagaEndings.OnlyTheClientVerifies | internal/application/verify_email.go:33-62 | nobody else gets past the first read of a VerifyEmail |
| SagaEndings.TokensGoToTheClient | internal/application/verify_email.go:89-102 | handed out tokens and answers of `completed` correspond one to one, and each of these calls was the session's client's |
| SagaEndings.AnswersWereStored | internal/application/verify_email.go:85-110 | every answered status was stored at some point of the run; `tokens_claimed` also stands for a `completed` that could not be claimed any more |
| SagaStarts.AlwaysRaced | internal/application/start.go:63-101 | in every run of a session at most one Start call wins, its row is the session's row, and at most one dispatch is started |
| SagaStarts.StatementsKeepIdentity | internal/infra/postgres/repository.go:149-171 | no step changes a session's client, user, email or username or removes it |
| SagaStatements.StepRuns | internal/infra/postgres/repository.go:119-210 | every step of every process changes the rows exactly as one SQL statement does, or not at all |
| SagaStatements.LockedStatements | internal/infra/postgres/repository.go:44-86 | a step waits for the row lock iff it is the SELECT FOR UPDATE or updates the session row without holding the lock |
| SagaSolo.StepProgresses | internal/application/service.go:84-323 | every process has a bounded number of steps: each call brings it closer to its end |
| SagaSolo.SoloIsARun | internal/application/service.go:136-254 | a process running alone never blocks and is a run of the state machine, so all theorems about runs hold of it |
| SagaSolo.StartSpawnsDispatch | internal/application/service.go:123 | a Start starts its dispatch goroutine exactly when it ends well |
| SagaSolo.VerifySpawnsCompletion | internal/application/verify_email.go:64 | a VerifyEmail starts its completion goroutine exactly when it answers `verifying_email` |
| SagaOutcomes.CompensationRuns | internal/application/service.go:350-439 | a compensation whose read and status write succeed leaves `failed` and appends exactly that write, both deactivations of the target user and the attempt to publish; otherwise it changes nothing |
| SagaOutcomes.HandlerRunsTo | internal/application/service.go:136-323 | rows, log and error result of each result handler, for every pattern of call failures |
| SagaOutcomes.VerifyAnswers | internal/application/verify_email.go:29-70 | a VerifyEmail without call failures on any reachable session that is not `in_progress`: strangers, missing sessions and all statuses but `completed` and `code_sent` are refused and change nothing |
| SagaOutcomes.VerifyReconciles | internal/application/verify_email.go:39-70 | and on one that is: it launches iff all steps are completed and there is no verify step, compensates if a step failed, and else leaves the aggregate written |
| SagaOutcomes.FailedVerification | internal/application/verify_email.go:112-174 | the completion whose k-th call is the first to fail: session `failed`, the verify step failed for the first two calls and the activate step for the other five, and the exact log |
| SagaOutcomes.SuccessfulVerification | internal/application/verify_email.go:112-152 | without failures: `completed`, both steps completed, and the exact log |
| SagaOutcomes.DispatchRunsTo | internal/application/start_dispatch.go:20-74 | rows, log and sent commands of a dispatch by its first failing call |
| Tables.StatementReplays | migration/postgres/000002_add_outbox_triggers.up.sql:17-47 | replaying what the triggers append for one statement, none for a refused or guarded one, lands on its result |
| Tables.OutboxReplays | migration/postgres/000002_add_outbox_triggers.up.sql:17-55 | for any sequence of statements the outbox, folded in insertion order, is exactly the two tables |
| Tables.OutboxFiled | migration/postgres/000002_add_outbox_triggers.up.sql:17-38 | for any sequence of statements every event is filed under its row's session_id, is `created` iff the row was not there, and `deactivated` only with the row as it was |
| Tables.IndexesHold | migration/postgres/000001_create_registration_tables.up.sql:1-4 | for any sequence of statements there is at most one session per email and per username |
| Tables.Seed | migration/postgres/000002_add_outbox_triggers.up.sql:49-55 | seeding over existing rows, in any order, gives an outbox of `created` events, each filed under its session, that replays to them |
| Tables.MigrateAndRun | migration/postgres/000002_add_outbox_triggers.up.sql:17-55 | migration over existing rows followed by any statements keeps the outbox equal to the tables and every event filed under its session |
| Repository.Database.constructor | migration/postgres/000002_add_outbox_triggers.up.sql:49-55 | a migrated database holds the existing rows and its outbox replays to them |
| Repository.Database.Exec | migration/postgres/000002_add_outbox_triggers.up.sql:17-47 | one statement has its effect on the tables and appends its events; the outbox still replays to the tables and the indexes hold |
| Repository.AggregateRows | internal/infra/postgres/repository.go:64-78 | the loop with its early break is order-independent: failed iff a row failed, code_sent iff all completed (also for no rows), else in_progress |
| Repository.RowsAggregate | internal/infra/postgres/repository.go:60-78 | over any listing of a table, these verdicts are the aggregate of the table |
| Repository.SagaRepository.Write | internal/infra/postgres/repository.go:119-210 | a repository write runs its statement or, on an error, has no effect |
| Repository.SagaRepository.GetByID | internal/infra/postgres/repository.go:140-142 | the stored row, or an error |
| Repository.SagaRepository.GetByEmail | internal/infra/postgres/repository.go:143-145 | a session with the email if there is one, and not found only if there is none |
| Repository.SagaRepository.GetByUsername | internal/infra/postgres/repository.go:146-148 | a session with the username if there is one, and not found only if there is none |
| Repository.SagaRepository.ClaimCompleted | internal/infra/postgres/repository.go:153-171 | compare-and-set: claimed iff the status was `completed`, which then is `tokens_claimed`; otherwise nothing changes |
| Repository.SagaRepository.ListBySessionID | internal/infra/postgres/repository.go:193-203 | exactly the session's step rows |
| Repository.SagaRepository.ReconcileStatus | internal/infra/postgres/repository.go:44-86 | writes and returns the aggregate of the session's steps, or returns an error and changes nothing |
| Service.RefusedAfterChecks | internal/application/mapper.go:113-126 | a Start that passes the conflict checks is refused by the indexes iff a failed or completed session still holds its email or username, or its session id is in use |
| Service.RegistrationService.LookupStartConflict | internal/application/start.go:51-61 | a conflict says exactly which of email and username unfinished sessions hold, or else what the remote services report; no answer means all are free; errors exactly for failed calls |
| Service.RegistrationService.CreateStartSteps | internal/application/start.go:87-101 | inserts the pending steps in order up to the first call that fails or row that is there, and the tables are exactly those rows |
| Service.RegistrationService.Start | internal/application/service.go:84-133 | answer and tables for every pattern of call failures: conflicts and losers change nothing, an error after the first INSERT leaves the session and the steps inserted so far; without call failures the answer is determined; and it is a run of the Start process |
| Service.RegistrationService.CompensateRegistrationFailure | internal/application/service.go:350-439 | a failed read or status write returns an error and changes nothing; otherwise the session is `failed` and the log grows by exactly the write, both deactivations of the target user if there is one, and the attempt to publish registration.failed with its outcome |
| Service.RegistrationService.SyncSessionStatus | internal/application/service.go:271-284 | the aggregate written under a snapshot and compensation if it is `failed`; errors exactly for failed calls; and the log |
| Service.RegistrationService.SyncByPolling | internal/application/service.go:286-323 | the fallback loop reaches the same verdicts on failed and complete step lists and leaves an incomplete session untouched |
| Service.RegistrationService.PublishCodeSentIfReady | internal/application/service.go:256-269 | notifies iff there is a realtime publisher and the session is `code_sent` and was not notified before |
| Service.RegistrationService.HandleUserCreateResult | internal/application/service.go:136-169 | step write, then compensation or reconciliation and notice: rows, log and error result for every pattern of call failures; other sessions are untouched |
| Service.RegistrationService.HandleAuthCreatePendingResult | internal/application/service.go:172-209 | likewise, with the mail activation between |
| Service.RegistrationService.HandleMailSendResult | internal/application/service.go:213-254 | likewise, with the code-sent event between |
| Service.RegistrationService.VerifyEmail | internal/application/verify_email.go:15-71 | answer, rows and log for every stored row and every pattern of call failures: refusals change nothing, `in_progress` is reconciled first, and a launch needs `code_sent` and both INSERTs |
| Service.RegistrationService.CompleteEmailVerification | internal/application/verify_email.go:112-152 | rows and log by the first of its seven calls that fails, the failure path for the right step included; without one the completed event |
| Service.RegistrationService.FailEmailVerification | internal/application/verify_email.go:154-174 | the step and the session are failed unless those writes fail, both deactivations of the session's user are issued and registration.failed is published, whatever the others do |
| Service.RegistrationService.GetRegistrationStatus | internal/application/verify_email.go:75-110 | a failed read, a missing session or another client gets an error and changes nothing; the client gets the stored status; `completed` is answered with the claim written, or an error without it |
| Service.RegistrationService.DispatchStartCommands | internal/application/start_dispatch.go:20-50 | rows, log and sent commands by the first of its five calls that fails |
| Service.RegistrationService.FailStartStep | internal/application/start_dispatch.go:70-74 | the unpublished command's step and the session are failed, each unless its own write fails |
| Server.RunningService.constructor | internal/application/service.go:37-80 | a service over an empty database: every session is where the empty run leaves it |
| Server.RunningService.Start | internal/application/service.go:84-133 | after a Start, with the answer and tables of the service's Start, each session still is where a run of its machine leads, and an accepted one leaves its dispatch goroutine waiting |
| Server.RunningService.DispatchStartCommands | internal/application/start_dispatch.go:20-50 | the waiting dispatch, with its outcome, extends the session's run; the other runs stay |
| Server.RunningService.HandleUserCreateResult | internal/application/service.go:136-169 | a user result for a sent command, with its outcome, extends the session's run |
| Server.RunningService.HandleAuthCreatePendingResult | internal/application/service.go:172-209 | likewise for an auth result |
| Server.RunningService.HandleMailSendResult | internal/application/service.go:213-254 | likewise for a mail result |
| Server.RunningService.VerifyEmail | internal/application/verify_email.go:15-71 | likewise for a VerifyEmail with its answer and outcome, which leaves its completion waiting if it answers `verifying_email` |
| Server.RunningService.CompleteEmailVerification | internal/application/verify_email.go:112-152 | likewise for the waiting completion with its outcome |
| Server.RunningService.GetRegistrationStatus | internal/application/verify_email.go:75-110 | likewise with its answer and outcome; the session's answers of `completed` grow by one iff it answers `completed`, and never exceed one |
| Server.RunningService.EachSessionOnce | internal/application/verify_email.go:54-110 | after any calls for any sessions each session has launched, activated, published its completion, handed out tokens and notified `code_sent` at most once |
| World.SessionRun | internal/application/service.go:84-323 | in any run of all sessions together, each session's state is a state of its own machine |
| World.WorldRunsStatements | migration/postgres/000001_create_registration_tables.up.sql:1-4 | the tables of all sessions are the result of one sequence of SQL statements; its outbox replays to them and emails and usernames are unique |
| World.StepsHaveSessions | migration/postgres/000001_create_registration_tables.up.sql:4 | every step row belongs to an existing session although there is no foreign key |
| World.RacingStarts | internal/application/service.go:97-115 | however lookups and inserts interleave, at most one Start wins for a session id, an email or a username |
| World.StartedAfterLookups | internal/application/service.go:325-348 | a Start that got past its lookups made them when no unfinished registration held its email, or its username |
| World.LosersLeaveTables | internal/application/start.go:63-101 | a Start that has not won changes no row |
| World.EverySessionSafe | internal/application/verify_email.go:54-110 | with all sessions running together each one launches, activates and hands out tokens at most once |
| Messaging.ExactlyOnce | internal/fx/messaging.go:93-112 | for any interleaving of deliveries of an event: at most one handler in flight, and successes + failed releases + handlers in flight = 1 if the id is in the store, else 0 |
| Messaging.RetriesBounded | internal/presentation/event_broker/kafka/broker.go:106-166 | a message entering with attempt a is delivered at most max(1, M-a+1) times in boundedly many calls, ends at most once, and is dead-lettered only if refused as permanent or out of retries |
| Messaging.NeverStuck | internal/presentation/event_broker/kafka/broker.go:106-166 | until the consumer is drained or a worker stops, some worker can make a call |
| Messaging.DrainedConsumer | internal/presentation/event_broker/kafka/broker.go:106-166 | when it is drained, every message ended exactly once, and every event was handled successfully once, or is dead-lettered, or lost its release |
| Messaging.MalformedNeverHandled | internal/presentation/event_broker/kafka/broker.go:108-118 | in every run no worker claims, handles or releases a message whose envelope does not unwrap, and it is never reported as delivered |
| Messaging.MalformedIsDeadLettered | internal/presentation/event_broker/kafka/broker.go:108-158 | when drained, every such message was delivered as often as its retries allow and then dead-lettered |
| Messaging.LostIffReleaseFailed | internal/fx/messaging.go:105-108 | when drained, an event with no dead-lettered message was never handled successfully iff a release of its claim failed |
| Messaging.FailedReleaseLosesEvent | internal/fx/messaging.go:105-108 | a failed release makes the retry acknowledge an event that was never handled successfully |
| EventBroker.RetryAttempt | internal/presentation/event_broker/kafka/broker.go:195-204 | the first usable retry header decides, without one the attempt is 1 |
| EventBroker.KafkaConsumer.Wrap | internal/fx/messaging.go:93-112 | for every pattern of failures of the three calls: the result, whether the handler was called, and the claim that is left; an already claimed event is reported handled without a call, and a claim stays iff the handler succeeded or the release failed |
| EventBroker.KafkaConsumer.Process | internal/presentation/event_broker/kafka/broker.go:106-166 | the whole effect of one message for every pattern of failures: a malformed envelope is a failure that touches no claim and no handler, a well-formed one goes through the wrapper; then commit, retry, dead letter or stop; and it is one delivery of the machine |
| EventBroker.KafkaConsumer.Recover | internal/presentation/event_broker/kafka/broker.go:119-166 | a failed message is put back with its attempt raised and no commit if it may be retried, else dead-lettered and committed; a failed queue write stops the worker with nothing changed |
| EventBroker.KafkaConsumer.Drain | internal/presentation/event_broker/kafka/broker.go:100-170 | the worker loop terminates, and unless it stops every message ends up committed exactly once |
| PullConsumer.ValidatedPlans | internal/presentation/event_broker/nats/pull_consumer_validator.go:11-55 | Validate accepts exactly the sound configurations; then every plan is positive, the thresholds cut the backlogs into the tiers' intervals, and a larger backlog never gets a lower tier |
| PullConsumer.FirstErrorReported | internal/presentation/event_broker/nats/pull_consumer_validator.go:13-55 | Validate reports the first violated rule in the stated order |
| PullConsumer.FetchState.MaybeUpdateAdaptivePlan | internal/presentation/event_broker/nats/pull_consumer_runtime.go:184-216 | plan and tier are untouched unless a check is due and the backlog could be read, and then those of that backlog; the check time moves iff it was due; under a sound configuration batch and wait stay positive |
| PullConsumer.PlanFollowsBacklog | internal/presentation/event_broker/nats/pull_consumer_runtime.go:142-216 | in every run the next fetch uses the tier and plan of the last backlog that a due check read, or the base plan if there was none |
| PullConsumer.MessagesFlow | internal/presentation/event_broker/nats/pull_consumer_runtime.go:89-249 | in every run of a validated configuration: taken, queued and undispatched messages are in this order exactly the fetched ones, the queue keeps its bound, batch and wait stay positive, each taken message is with one worker or got exactly one call, an ack only after its handler succeeded, a nak only after it failed |
| PullConsumer.ClosedIsSettled | internal/presentation/event_broker/nats/pull_consumer_runtime.go:142-144 | the channel is closed only after fetcher and workers returned, and then every taken message had its one call: an ack if its handler succeeded, a nak if it failed |
| PullConsumer.NeverDeadlocked | internal/presentation/event_broker/nats/pull_consumer_runtime.go:239-249 | until it is closed some process of the runtime can take a step |

## Left out

- Crashes, lost goroutines and process restarts: every process runs on, or forever waits; a redelivery after a restart is a new delivery.
- Sessions that exist before the service of `Server.dfy` starts: it begins with an empty database, and results reach it only for commands whose publication was attempted. Its calls run one after the other; their interleavings are the state machine's.
- Several service processes: the set of notified sessions is one map, as in one process.
- Timestamps, the order of `occurred_at` in the outbox (the proofs use insertion order), aggregate versions and JSON payloads.
- Input normalisation and validation (trimming, address parsing, password length, empty session ids), generation of ids and password hashing, except that hashing may fail after the rows exist.
- Realtime publications that fail: the code logs and ignores the error; the model records the notification as sent.
- The realtime notices that accompany registration.failed and registration.completed: of the realtime notices only the code-sent one is modelled.
- The remote services: their calls succeed or fail by choice, and a failed call has no effect.
- Ambiguous outcomes of a statement whose connection breaks after it took effect.
- The advisory lock that ReconcileStatus takes before its row lock: it orders the same transactions as the row lock does.
- Reading the username in a Start whose email is already taken: the world's Start process stops at the first held name, the code reads both and then answers; the answer itself is in `Service.RegistrationService.LookupStartConflict`.
- An adapter without an event store (`internal/fx/messaging.go:95-97`), the recovery subscriber's raw payload, metrics, logging, tracing and wiring.
- The Kafka and NATS clients: a fetch delivers at most the batch asked for; topics keep what was written; partition order and offsets are not modelled.
- The worker pool's shutdown path in the Kafka broker, which closes the channel before its workers end; and that a worker that stops cancels the others: in the model they may go on, so it has more runs.
- Blocking sends and receives as methods: the pull consumer's fetch and worker loops are modelled as atomic steps of a state machine, and only `MaybeUpdateAdaptivePlan` as a method.
- RegistrationService.SyncByPolling: reads an unchanging step list, as when no other process writes between its attempts.
