# A verified model of the billing and resource-lease backbone

This project models, in Dafny, the protocols of the GPU rental platform that move money and scarce
resources over shared rows, and proves properties of every run of them: interleaved handlers and
workers, failed and lost replies, crashes and restarts.

How it is built. A protocol is a state machine: a `World`, a total function `Apply` that takes one
`Step` (one database transaction or guarded update, one network event, one resumption after an
`await`, a crash, or the passing of time; a step that is not possible changes nothing), `Exec` over
any list of steps, an invariant, one small lemma per step, and the main results over all lists. Code
that works in place (loops, tables, caches) is a class or method proved against those functions.
Time is an integer number of milliseconds that never decreases; money is whole cents; quotients are
exact, with explicit floor, ceiling and rounding.

| module | what it models |
|---|---|
| Metering, BillingStore | usage sessions, three racing closers, the meter outbox, the emitter and Stripe |
| SessionBills, MeterDelivery | what a session is billed in the end, and that every meter row is delivered or given up |
| EmitterRuns | the emitter's loop as a run of the metering protocol |
| PortLeases, Gateway | the durable port leases, the gateway's cache and port set, crash and boot reconciliation |
| LeaseFaults | lost replies, late exhaustion, and rows that are released but keep their ports |
| LaunchOperations, LaunchService | idempotent launch under one (user, key) |
| Teardown, CleanupWorker | the cleanup job of one workspace, its retries and its attempt budget |
| Provisioning, WarmPool | GPU claim, clone slot, clone and start, and their rollback |
| RunLifecycle, RunService | a run's stages, driven by agent, executor and cancel, and its two Stripe reporters |
| FleetDays, FleetAggregator | usage and revenue apportioned to days |
| LoginThrottle, LoginGuard | failure windows, locks and the sweep |
| ThrottleWorstCase | attacks that reach the throttle's bound |
| Ranking | plan scores, stable sort, ranks and fallbacks |
| Budget, BudgetMonitor | month-to-date spend, launch gate, monitor |
| TtlStore, Replay | the in-memory TTL store and the replay check built on it |
| Leadership, LeaderProcess | leader lock and fencing token |
| SpotPricing, ImageReference | spot price, image reference |
| Rounding, Wrappers | rounding functions, Option |

Results worth knowing before reading the proofs:

- A teardown is never stuck before its attempts are used up, and its job is DONE only when everything is torn
  down (`Teardown.EveryTeardownCanComplete`, `Teardown.DoneMeansTornDown`).
- A GPU that the cleanup has released can never be claimed again while its allocation row stays, since
  `gpuId` is unique over released rows too (packages/db/prisma/schema.prisma:671-684):
  `Provisioning.ReleasedGpuIsStranded`.
- The cleanup's GPU release does not look at `releasedAt` (`Teardown.GpuIsTakenIff`).  It is that unique
  column which keeps repeated attempts from freeing another workspace's GPU
  (`Teardown.CleanupTakesNobodysGpu`, `Teardown.WithoutUniqueRowRetryTakesGpu`).
- The port columns strand ports in the same way, so at most 20000 workspaces can ever be leased ports
  (`LeaseFaults.ReleasedPortsAreStranded`, `LeaseFaults.LeasedWorkspacesAreBounded`).
- A lease write that commits while its reply is lost frees ports that are leased; another workspace can
  then be given them too (`PortLeases.SafetyIff`, `LeaseFaults.LostReplyLeasesTwice`).  A restart does not
  help while one of the two is unfinished (`PortLeases.RestartRestoresSafetyIff`).
- Every meter row is SENT or FAILED in the end, if ticks go on and do not overlap: older rows that keep
  failing can pass it over, but no more often than there are of them (`MeterDelivery.EveryRowSettles`,
  `MeterDelivery.PassedOverAtMost`).
- SENT is not final when emitters overlap (`Metering.OverlapUndoesSent`), and is when they do not.
- A late exhaustion of the port picker leaks earlier picks, and nothing else does (`PortLeases.LeakIff`,
  `LeaseFaults.LateExhaustionIsReachable`).
- With atomic updates a run canceled by its user is never billed (`RunLifecycle.UserCancelIsNeverBilled`), although
  apps/api/src/lib/billing.ts:32 quotes a specification of one usage event per cancel; the model follows
  the code.
- As long as every update of a run reads, decides and writes in one go, two safety nets of the executor
  never fire (`RunLifecycle.DeadBranches`).  The updates are not guarded, and a stale one can bring the
  first to life (`RunLifecycle.UploadTimeoutLiveIff`), never the second; it can also change the bill of a
  finished run, for ever apart from what Stripe has (`RunLifecycle.StaleUpdateRebillsIff`,
  `RunLifecycle.RebilledDisagreesForEver`).
- Month-to-date spend can fall, since a close is stamped before it is committed and the running estimate
  goes on in between; a user refused at the gate can so be admitted again
  (`Budget.CommitLowersIff`, `Budget.SpendCanFall`, `Budget.StaysRefusedIff`).
- A worker that lost the leader lock can still begin a batch in two ways: by a verification that read
  before, and by a record write that arrives late (`Leadership.DisplacedCanBeginIff`).
- Waiting for leadership ends after 27 minutes (`Leadership.GivingUpTakesLong`); the
  comment at worker/src/index.ts:109 says about five.
- The budget monitor terminates users the launch gate still admits, exactly within half a per cent of
  the limit (`Budget.TerminatedButAdmittedIff`).
- The login lock ends with its window, not after its own length (`LoginThrottle.LockEndsWithWindow`).
  The most failures in fifteen minutes are ten in production and twenty-seven, not twenty, in development
  (`ThrottleWorstCase.RealWorstCases`), and attempts that overlap have no bound
  (`ThrottleWorstCase.OverlapHasNoBound`).
- A launch whose executor crashes leaves its key without an answer for ever
  (`LaunchOperations.StuckForEverIff`, `LaunchOperations.SticksIff`).

Assumptions. A `$transaction` or a single guarded `update` is one atomic step, also the count and insert
of the clone semaphore. A database write that reports failure committed nothing, except where a step
says otherwise (the writes of the cleanup job and of the launch, and the gateway's lease write, model
both). Stripe keeps the first event it takes under an identifier for ever and acknowledges only what it
holds. From the schema: one meter row per session, one RUNNING session per workspace (partial unique
index), unique (userId, operationKey), one allocation row per workspace and per GPU, one semaphore row
per workspace, one endpoint row per workspace, and each of its three port columns unique over all rows.

## Model

| member | source | states |
|---|---|---|
| Metering.TotalSeconds | apps/api/src/services/workspaceService.ts:611-612 | the elapsed milliseconds rounded up to whole seconds, 0 when the end is not after the start |
| Metering.BilledCents | apps/api/src/services/workspaceService.ts:613 | the one whole number of cents c with c-1 < seconds*price/3600 <= c |
| Metering.NextBackoff | worker/src/jobs/workspace-metering.ts:8-14 | after the n-th failure in a row 10 s, 30 s, 1, 2, 5 and from then on always 15 minutes |
| Metering.CloseTxKeeps | apps/api/src/services/workspaceService.ts:615-651 | the closing transaction, whoever runs it, keeps rows and bills matched, one RUNNING session per workspace, and everything already settled |
| Metering.OpenKeeps | apps/api/src/services/workspaceService.ts:464-520 | opening a session where none runs keeps the same facts |
| Metering.SentTxKeeps | worker/src/jobs/workspace-metering.ts:96-117 | the success transaction keeps rows and bills matched and settled facts as they are |
| Metering.FailedTxKeeps | worker/src/jobs/workspace-metering.ts:118-137 | the failure update does so too |
| Metering.StepKeeps | worker/src/jobs/workspace-metering.ts:73-164 | every transaction, network event, crash or tick keeps: ENDED iff metered, Stripe and the wire carry only billed seconds, SENT rows are at Stripe |
| Metering.ExecKeeps | worker/src/jobs/workspace-metering.ts:26-164 | so does every interleaving of closers, emitters, lost replies and crashes |
| Metering.ClosedExactlyOnce | apps/api/src/services/workspaceService.ts:604-651 | over all runs a session is ENDED iff it has its one meter row, with valueSeconds = totalSeconds = billedSeconds and billedCents the ceiling |
| Metering.OneRunningPerWorkspace | packages/db/prisma/migrations/20260313000000_enforce_one_running_session/migration.sql:14-16 | over all runs a workspace never has two RUNNING sessions |
| Metering.BillNeverChanges | worker/src/jobs/workspace-cleanup.ts:66-102 | after its close no continuation changes a session's end, seconds, cents or row value |
| Metering.UpsertUpdateIsDead | worker/src/jobs/warm-pool.ts:1065-1094 | in reachable states the upsert of a committing close never takes its update branch |
| Metering.EffectivelyOnce | worker/src/jobs/workspace-metering.ts:26-137 | over all runs Stripe holds nothing for a session or exactly its billedSeconds, and every SENT row is at Stripe |
| Metering.StripeTotalIsConserved | worker/src/jobs/workspace-metering.ts:73-137 | all bills = Stripe's total + the unreported bills; when all rows are SENT, Stripe equals the bills |
| Metering.SentIsKeptIff | worker/src/jobs/workspace-metering.ts:118-137 | a step takes a row out of SENT exactly when it is the failure mark of an emitter still holding that row |
| Metering.OverlapUndoesSent | worker/src/jobs/workspace-metering.ts:141-164 | a reachable state with two emitters in which a SENT row goes back to RETRY |
| Metering.AttemptBudget | worker/src/jobs/workspace-metering.ts:118-137 | without overlapping emitters at most maxAttempts attempts are made, and FAILED means all of them spent and not SENT |
| Metering.SentAbsorbs | worker/src/jobs/workspace-metering.ts:73-137 | without overlapping emitters SENT is final |
| SessionBills.OpensIff | apps/api/src/services/workspaceService.ts:464-520 | a session opens exactly when its id is new and its workspace has none RUNNING, and its row, with the current time as its start, is then the only change |
| SessionBills.OpenedIsBilled | apps/api/src/services/workspaceService.ts:502-510 | over all runs, a session opened at time t for a workspace at a price is as it was opened while it runs, and once ENDED has an end between t and now, that workspace, the time from t to its end rounded up to seconds, those seconds at that price rounded up to cents, and its meter row |
| SessionBills.RunningCanBeClosed | apps/api/src/services/workspaceService.ts:604-651 | after any run a RUNNING session can be closed now: read, stamp and commit end it with its whole bill and a row that is due at once, and touch nothing else |
| SessionBills.PickedIff | worker/src/jobs/workspace-metering.ts:152-159 | a row can be picked exactly when it is PENDING or RETRY and its time has come |
| SessionBills.WaitingCanBeDelivered | worker/src/jobs/workspace-metering.ts:73-117 | after any run a PENDING or RETRY row can still be delivered: Stripe then has exactly its session's billed seconds, the row is SENT, and no other row changes |
| BillingStore.PerformAllKeeps | apps/api/src/services/workspaceService.ts:604-651 | any schedule of whole transactions, on sessions old and new, keeps rows and bills matched and settled facts as they are |
| BillingStore.AttemptOutcome | worker/src/jobs/workspace-metering.ts:73-137 | one attempt leaves its row SENT, FAILED for good, or in RETRY until the table's wait for its count is over; it touches no other row, and gives Stripe the value at most once |
| BillingStore.BatchOutcome | worker/src/jobs/workspace-metering.ts:141-164 | the same for every row of a batch, independent of the others |
| BillingStore.Store.FindRunning | worker/src/jobs/workspace-cleanup.ts:53-59 | finds exactly the RUNNING rows of the workspace |
| BillingStore.Store.CloseTransaction | apps/api/src/services/workspaceService.ts:615-645 | refused iff the session is not RUNNING; otherwise it is ENDED with its end, seconds and cents, and its row is PENDING with those seconds, due at once |
| BillingStore.Store.CreateSession | apps/api/src/services/workspaceService.ts:464-520 | refused iff the id is taken or the workspace has a RUNNING session; otherwise the only change is the new row: RUNNING, of this workspace, start and price, without an end and with zero amounts |
| BillingStore.Store.MarkSent | worker/src/jobs/workspace-metering.ts:96-117 | row and session as the success transaction leaves them: SENT, one attempt more, no next attempt, Stripe's id on both |
| BillingStore.Store.MarkFailed | worker/src/jobs/workspace-metering.ts:118-137 | by the count that was read: FAILED and never due again when that was the last attempt, otherwise RETRY, due after the table's wait |
| BillingStore.Store.FinalizeUsageSessions | worker/src/jobs/workspace-cleanup.ts:53-103 | with any transactions of others between its own, on return every session found is ENDED, metered and well billed, and nothing settled has moved |
| BillingStore.Store.FindDue | worker/src/jobs/workspace-metering.ts:152-159 | picks at most 20 distinct rows, PENDING or RETRY with their time come, oldest first; a row with such a status and time is left out only by a full batch of rows at least as old |
| BillingStore.Store.ProcessMeterOutboxEvent | worker/src/jobs/workspace-metering.ts:73-137 | one attempt as specified |
| BillingStore.Store.ProcessWorkspaceMeterEvents | worker/src/jobs/workspace-metering.ts:141-164 | those rows are attempted once each: by its reply and count each is SENT, FAILED, or in RETRY with its next time, and Stripe has what it took |
| EmitterRuns.AttemptIsARun | worker/src/jobs/workspace-metering.ts:73-137 | each attempt of the loop, however it ends, is a run of the protocol, after which the emitter goes on with the next row |
| EmitterRuns.RejectedSuccessIsAFailure | worker/src/jobs/workspace-metering.ts:96-137 | an acknowledged row whose success transaction is rejected ends like one whose reply was lost |
| EmitterRuns.TickIsARun | worker/src/jobs/workspace-metering.ts:141-164 | after any run of the protocol a whole tick of the loop is again a run of it, so what holds over all runs holds over all ticks |
| MeterDelivery.RetryIsAttempted | worker/src/jobs/workspace-metering.ts:118-164 | an attempt that fails with attempts left puts its row in RETRY, due after the table's wait, and ticks after that time attempt it again, after at most one tick for each older row that waits |
| MeterDelivery.PassedOverAtMost | worker/src/jobs/workspace-metering.ts:141-164 | a due row is passed over by at most as many ticks as there are older rows waiting, however attempts end and whatever sessions open and close between the ticks |
| MeterDelivery.DueRowIsPicked | worker/src/jobs/workspace-metering.ts:141-164 | more precisely by as many ticks as the attempts left to older rows fill, twenty a tick |
| MeterDelivery.EveryRowSettles | worker/src/jobs/workspace-metering.ts:118-164 | with ticks a quarter of an hour apart, no row waits for ever: it is SENT or FAILED after twenty ticks for itself and twenty for each older row that waits |
| PortLeases.Candidate | apps/gateway/src/index.ts:292 | a drawn port lies in [20000, 40000) |
| PortLeases.CandidateReaches | apps/gateway/src/index.ts:292 | every port of the range can be drawn |
| PortLeases.UniquePort | apps/gateway/src/index.ts:289-300 | the pick is a free port of the range |
| PortLeases.ExhaustedIff | apps/gateway/src/index.ts:289-300 | the pick fails exactly when all thousand candidates are taken |
| PortLeases.PickThree | apps/gateway/src/index.ts:381-384 | three distinct free ports, which are then taken |
| PortLeases.StepKeeps | apps/gateway/src/index.ts:342-459 | every handler phase, refused, failed or committed write, out-of-band release, status change, crash and boot step keeps the lease invariant, except the loss of the reply to a committed write whose lease is live |
| PortLeases.ExecKeeps | apps/gateway/src/index.ts:199-459 | so does every run without such a loss |
| PortLeases.SafetyIff | apps/gateway/src/index.ts:388-414 | a step leaves a leased port outside allocatedPorts exactly when it loses the reply to a committed write whose lease is live |
| PortLeases.PortSafety | apps/gateway/src/index.ts:342-459 | at every moment of every such run live leases have three distinct ports in range, are pairwise disjoint, and while serving lie inside allocatedPorts |
| PortLeases.CachedReplyIsTheLease | apps/gateway/src/index.ts:345-379 | an allocate answered from the cache names the ports of the live lease, unless it was released elsewhere |
| PortLeases.StaleReplyIff | apps/gateway/src/index.ts:344-354 | a cached reply comes to name a lease that is not live exactly by a release that the cache does not follow yet, or by caching a lease that was released between its commit and its reply |
| PortLeases.LeakIff | apps/gateway/src/index.ts:381-384 | a port becomes taken without a holder exactly when a pick runs out after an earlier one succeeded |
| PortLeases.RestartRebuilds | apps/gateway/src/index.ts:199-241 | crash in any state and boot, whatever the table holds: the cache is exactly the live leases of unfinished workspaces, with the ports they had, the other leases are released, and no port is taken but theirs |
| PortLeases.RestartIsInvisible | apps/gateway/src/index.ts:199-241 | after a restart from any state a holder's allocate returns its old ports and its release takes exactly those out of the set; what stays taken are the other holders' ports exactly when none of them is shared with it or with a finished workspace |
| PortLeases.RestartRestoresSafetyIff | apps/gateway/src/index.ts:199-241 | a restart from any state brings the invariant back, and with it the safety of ports, exactly when every live lease of an unfinished workspace is in order and apart from all other live leases |
| PortLeases.AllocateEnds | apps/gateway/src/index.ts:342-433 | where an allocate that nothing comes between leaves the gateway, for every end of its write |
| LeaseFaults.LostReplyLeasesTwice | apps/gateway/src/index.ts:408-414 | a run in which, after one lost reply, two live leases share all three ports, and a restart leaves them so |
| LeaseFaults.RetryHealsLostReply | apps/gateway/src/index.ts:345-379 | a retried allocate right after the loss leaves the gateway as if the reply had arrived |
| LeaseFaults.LateExhaustionIsReachable | apps/gateway/src/index.ts:289-300 | a run in which a pick runs out after an earlier one succeeded, with one lease in the table |
| LeaseFaults.RefusedIff | packages/db/prisma/schema.prisma:686-699 | the table refuses picked ports exactly when a released row of another workspace has one of them in the same column |
| LeaseFaults.ReleasedPortsAreStranded | packages/db/prisma/schema.prisma:686-699 | in every run a released row keeps its ports from all other rows, column by column, until its workspace is leased again |
| LeaseFaults.LeasedWorkspacesAreBounded | packages/db/prisma/schema.prisma:686-699 | over all runs at most 20000 workspaces ever get a lease, however many are released |
| Gateway.Gateway.GetUniquePort | apps/gateway/src/index.ts:289-300 | the retry loop takes the first free candidate or fails after a thousand |
| Gateway.Gateway.PickPorts | apps/gateway/src/index.ts:381-384 | three picks in a row, keeping earlier picks when a later one fails |
| Gateway.Gateway.HandleAllocate | apps/gateway/src/index.ts:342-433 | the handler is the protocol's run for every end of its write; it replies from the cache, else from the live lease, which it caches, else with three different free ports of the range that no other row has in the same column, and these are then leased, cached and taken; without a reply nothing is cached |
| Gateway.Gateway.HandleRelease | apps/gateway/src/index.ts:435-459 | the handler is the protocol's run; the lease is released in the table, dropped from the cache, and its ports are free, or nothing changes if the write fails; it reports whether a live lease was released |
| Gateway.Gateway.ReconcileLeases | apps/gateway/src/index.ts:199-241 | over any table: the cache is exactly the live leases of unfinished workspaces, those of finished ones are released, and the gateway stands as after the protocol's restart; the lease invariant holds then exactly when every live lease of an unfinished workspace is in order and apart from all other live ones |
| Gateway.Gateway.LoadLeases | apps/gateway/src/index.ts:199-219 | loads exactly the live leases |
| Gateway.Gateway.DropStaleLeases | apps/gateway/src/index.ts:220-241 | releases and forgets exactly the given leases, and takes their ports out of the set, shared or not |
| LaunchOperations.StepKeeps | apps/api/src/services/workspaceService.ts:63-180 | every read, insert, poll, launch result, save, failure record and crash keeps: one execution per row, replies match it |
| LaunchOperations.ExecKeeps | apps/api/src/services/workspaceService.ts:63-180 | so does every interleaving of clients |
| LaunchOperations.LaunchedAtMostOnce | apps/api/src/services/workspaceService.ts:96-164 | for any clients and crashes the internal launch runs at most once per (user, key), and never again once the row exists |
| LaunchOperations.AnswersAgree | apps/api/src/services/workspaceService.ts:63-180 | all successful replies for a key name the one workspace made; none goes to another request hash, and key-reuse errors only to those |
| LaunchOperations.ReadAnswers | apps/api/src/services/workspaceService.ts:66-93 | the first read replays a recorded workspace to its hash, reports a failure, refuses another hash, and otherwise begins to poll |
| LaunchOperations.RereadAnswers | apps/api/src/services/workspaceService.ts:105-132 | after a lost insert the same, but a failure is left to the polls |
| LaunchOperations.PollAnswers | apps/api/src/services/workspaceService.ts:166-180 | a poll within five seconds replies exactly when the operation has its workspace or has FAILED, and with that; later it replies that the operation is in progress |
| LaunchOperations.InProgressIff | apps/api/src/services/workspaceService.ts:86-93 | a request is told that its operation is in progress exactly by a poll at least five seconds after it began to poll, and by no other step |
| LaunchOperations.InProgressTookPolling | apps/api/src/services/workspaceService.ts:86-93 | so every such reply of a run has a poll of that kind behind it |
| LaunchOperations.NewKeyLaunches | apps/api/src/services/workspaceService.ts:96-164 | after any run the request of a new key launches: it ends COMPLETED with the workspace and is told so, or, when the launch throws, FAILED with the error it is told |
| LaunchOperations.UnheardSaveIsReplayed | apps/api/src/services/workspaceService.ts:136-164 | when the save of the workspace is committed but reports an error, the request is told of the error, and a repeated request is given the workspace |
| LaunchOperations.KnownKeyIsRead | apps/api/src/services/workspaceService.ts:66-79 | a later request with the hash of a launched operation is given its workspace at its first read, and one with another hash is refused |
| LaunchOperations.FailedIsNeverReexecuted | apps/api/src/services/workspaceService.ts:73-94 | in every run an operation that FAILED without a workspace keeps its row for ever: never launched again, never answered with success |
| LaunchOperations.RecordedFailureIff | apps/api/src/services/workspaceService.ts:153-163 | recording a failure ends the operation FAILED; it is dead exactly if no workspace was saved, and otherwise later requests get that workspace |
| LaunchOperations.StuckForEverIff | apps/api/src/services/workspaceService.ts:66-93 | in every run: an operation gives polling requests no answer for ever exactly when it has no workspace, has not FAILED, and its executor is gone |
| LaunchOperations.SticksIff | apps/api/src/services/workspaceService.ts:96-164 | a step gets an operation stuck exactly when the executor of an unsettled one crashes or fails to record its failure, or when an insert that reports an error was committed |
| LaunchService.Service.WaitForOperationWorkspace | apps/api/src/services/workspaceService.ts:166-180 | the poll loop ends within 50 polls; it replies what the row says at return, and in progress exactly when five seconds are over |
| LaunchService.Service.Replay | apps/api/src/services/workspaceService.ts:66-93 | the reply is what the row says at return: reused key for another hash, the recorded workspace, the recorded failure, or in progress, and that only after five seconds of polling an operation that has neither |
| LaunchService.Service.Execute | apps/api/src/services/workspaceService.ts:136-164 | the winner of the insert launches once; the row has the workspace exactly if a save was committed, the reply exactly if it was heard of, and a failure is on record exactly if it was recorded |
| LaunchService.Service.Launch | apps/api/src/services/workspaceService.ts:63-164 | with others' writes at every await: launches at most once, never when a row was there; a workspace on record is always replayed to its hash; the reply is what the row says at return, in progress only after five seconds, or what its own execution led to, or its insert's error |
| Teardown.Delay | worker/src/jobs/workspace-cleanup.ts:11-19 | the wait after the n-th failure is the table's, give or take a tenth |
| Teardown.EffectAdvances | worker/src/jobs/workspace-cleanup.ts:160-305 | no write or call of an attempt undoes an effect or touches another workspace's sessions |
| Teardown.NextIsOk | worker/src/jobs/workspace-cleanup.ts:160-276 | at each place of an attempt the effects before it hold |
| Teardown.ExecKeeps | worker/src/jobs/workspace-cleanup.ts:141-305 | so for every interleaving of overlapping attempts, failures before or after the effect, crashes, other closers and other workspaces' claims |
| Teardown.RunTearsDown | worker/src/jobs/workspace-cleanup.ts:141-276 | an undisturbed attempt, from wherever it stands and whatever ran before, ends with sessions ENDED and metered, lease released, VM gone, GPU FREE, allocation released, TERMINATED, job DONE |
| Teardown.DoneMeansTornDown | worker/src/jobs/workspace-cleanup.ts:160-276 | over all runs, with attempts that crash, fail, overlap or start late, a job is DONE only when its workspace is gone or everything is torn down |
| Teardown.ResumedEqualsUninterrupted | worker/src/jobs/workspace-cleanup.ts:141-305 | after any crashes, failures, overlaps, re-enqueues, other closes and claims a resumed attempt leaves the same final state as one uninterrupted attempt |
| Teardown.PickedIff | worker/src/jobs/workspace-cleanup.ts:376-387 | a tick lists the job exactly when it is neither DONE nor FAILED and its time has come |
| Teardown.EveryTeardownCanComplete | worker/src/jobs/workspace-cleanup.ts:373-392 | after any run a job that is neither DONE nor FAILED has a later tick that lists it, and whose attempt, left undisturbed, tears everything down and leaves what the first attempt would have left undisturbed |
| Teardown.EnqueuedIsPicked | worker/src/jobs/workspace-cleanup.ts:330-370 | a re-enqueued job, whatever became of it, is due at once |
| Teardown.AbsentWorkspace | worker/src/jobs/workspace-cleanup.ts:167-173 | a job without its workspace is DONE at once and touches nothing else |
| Teardown.AttemptsAreBounded | worker/src/jobs/workspace-cleanup.ts:277-305 | at most maxAttempts attempts, plus one per crash, re-enqueue, overlapping or stale start and lost error record; used up means DONE or FAILED, FAILED means used up |
| Teardown.ExtraIff | worker/src/jobs/workspace-cleanup.ts:141-150 | what these extra attempts are counted for: exactly a crash of a running attempt, a re-enqueue, an overlapping or stale start, and a lost error record |
| Teardown.GpuIsTakenIff | worker/src/jobs/workspace-cleanup.ts:207-232 | the rest of an attempt frees an allocated GPU exactly when it has not passed its own release yet, released before or not |
| Teardown.OwnGpuIsNeverClaimed | worker/src/jobs/warm-pool.ts:280-310 | no other workspace's claim of this workspace's GPU can commit, before its release or after |
| Teardown.CleanupTakesNobodysGpu | worker/src/jobs/workspace-cleanup.ts:207-232 | over all runs no write of any attempt changes a GPU that another workspace owns |
| Teardown.WithoutUniqueRowRetryTakesGpu | packages/db/prisma/schema.prisma:671-684 | were allocation rows not unique by GPU, a retry after a crash would free a GPU that another workspace has claimed |
| CleanupWorker.Worker.Await | worker/src/jobs/workspace-cleanup.ts:160-276 | one awaited write or call, which may report failure although it took effect |
| CleanupWorker.Worker.Stage | worker/src/jobs/workspace-cleanup.ts:160-305 | a stage leads to the next place, or its failure is recorded on the job and ends the attempt |
| CleanupWorker.Worker.CloseSessions | worker/src/jobs/workspace-cleanup.ts:53-103 | the loop over open sessions leads on with all of them closed, or ends in a recorded failure |
| CleanupWorker.Worker.ProcessCleanupJob | worker/src/jobs/workspace-cleanup.ts:141-305 | the attempt is the protocol's run; a normal return means torn down and DONE; a failure is recorded as FAILED exactly when the attempts are used up, and otherwise as RETRY, due after the table's wait for the count, give or take a tenth |
| Provisioning.EffectKeepsTables | worker/src/jobs/warm-pool.ts:280-433 | every write keeps rows unique, owners matched with their rows, slots owned and within the cap, and touches only its workspace and GPU |
| Provisioning.ExecKeeps | worker/src/jobs/warm-pool.ts:205-672 | so does every interleaving of warm and user attempts, failures, crashes, sweeps and teardowns |
| Provisioning.ClaimsAreExclusive | worker/src/jobs/warm-pool.ts:97-112 | over all runs concurrent claims hold different GPUs and workspaces, an owner owns one GPU, and unreleased slots per node never exceed the cap |
| Provisioning.ClaimEndsAllOrNothing | worker/src/jobs/warm-pool.ts:312-433 | under any interleaving a claim ends either with the workspace WAITING_FOR_AGENT, owning that one GPU and no slot, or with no GPU, no row and no slot |
| Provisioning.UnclaimedChangesNothing | worker/src/jobs/warm-pool.ts:280-310 | an attempt without a claim changes no GPU, row or slot except by claiming, which succeeds exactly when the GPU is FREE and neither GPU nor workspace has a row |
| Provisioning.HolderLosesVmIff | worker/src/jobs/warm-pool.ts:529-572 | a user workspace whose GPU an attempt holds loses its VM mark exactly when another attempt at it gives up |
| Provisioning.LoserClearsVm | worker/src/jobs/warm-pool.ts:529-560 | two ticks that list the same workspace and GPU: the second clears the mark of what the first has won |
| Provisioning.ReleasedGpuIsStranded | packages/db/prisma/schema.prisma:671-684 | a GPU whose released row remains is FREE for ever and every claim of it is rejected |
| Provisioning.TearDownStrands | worker/src/jobs/workspace-cleanup.ts:229-232 | a teardown leaves exactly such a row |
| Provisioning.RunEnds | worker/src/jobs/warm-pool.ts:280-433 | an attempt alone, with any of its calls failing, the claim and the slot transaction included, ends in the state its claim, slot and calls determine |
| Provisioning.RunIsAllOrNothing | worker/src/jobs/warm-pool.ts:529-672 | alone, it launches exactly when the GPU is FREE without any row of it or of the workspace, a slot is free and no call fails, and then only its GPU, row and status change; otherwise GPUs, rows and unreleased slots are as before, and the workspace is given up (a warm one gone, a user one without its VM) if GPU or slot was not to be had, FAILED if a later call failed, untouched if the claim was thrown |
| Provisioning.WarmAttemptEnds | worker/src/jobs/warm-pool.ts:259-433 | an attempt alone at a new warm workspace leaves it waiting for its agent, FAILED, gone, or CREATING after a thrown claim, by exactly those conditions, and no other workspace changed |
| Provisioning.ColdAttemptEnds | worker/src/jobs/warm-pool.ts:436-672 | one at a user workspace leaves it waiting, FAILED, without its VM to be picked up again, or as it was after a thrown claim |
| Provisioning.NoCapacityFails | worker/src/jobs/warm-pool.ts:470-505 | without a GPU or template to offer the tick fails a user workspace, and changes nothing else |
| Provisioning.SweepReleasesIff | worker/src/jobs/warm-pool.ts:130-139 | the sweep releases exactly the slots held for more than fifteen minutes |
| Provisioning.AcquireKeepsCap | worker/src/jobs/warm-pool.ts:97-112 | granting a slot below the cap keeps every node within it |
| WarmPool.Pool.ClaimGpu | worker/src/jobs/warm-pool.ts:280-310 | claims exactly when it works and the GPU is FREE and no row names it or the workspace; then the GPU is the workspace's, with its row; a rejected or failing one leaves nothing |
| WarmPool.Pool.AcquireCloneSemaphore | worker/src/jobs/warm-pool.ts:97-112 | grants exactly when the transaction works, the node has fewer unreleased slots than the cap and the workspace never had one; keeps every node within the cap |
| WarmPool.Pool.ReleaseCloneSemaphore | worker/src/jobs/warm-pool.ts:117-122 | the workspace has no unreleased slot afterwards |
| WarmPool.Pool.CloneAndStart | worker/src/jobs/warm-pool.ts:322-396 | returns normally exactly when all calls work, with the slot released and the workspace waiting |
| WarmPool.Pool.Provision | worker/src/jobs/warm-pool.ts:529-672 | the attempt is the protocol's run and is all-or-nothing in that sense |
| RunLifecycle.ChangesRaiseTheStage | apps/api/src/routes/v1/runs.ts:464-478 | any change of status by agent, executor or cancel raises the stage, and a finished run keeps status, times and bill |
| RunLifecycle.AtMostFiveChanges | apps/api/src/routes/v1/runs.ts:464-508 | with atomic updates, over all runs of the system, a run changes status at most five times |
| RunLifecycle.UndisturbedCompletes | worker/src/jobs/run-executor.ts:63-555 | a run that nothing disturbs is COMPLETED in five changes of status, with both ends at the time of its finalizing, and billed its time since the start rounded up |
| RunLifecycle.TerminalAbsorbs | worker/src/jobs/run-executor.ts:62-594 | with atomic updates, over all runs, a finished run keeps status, times and billedSeconds |
| RunLifecycle.BillIsDuration | apps/api/src/routes/v1/runs.ts:485-504 | with atomic updates billedSeconds is the ceiling of start to end for a run that started and was not canceled by its user, else 0; before the end it is 0 |
| RunLifecycle.StripeHoldsTheBill | apps/api/src/lib/billing.ts:10-52 | both reporters together, with lost replies and crashes, leave Stripe with nothing or exactly the final billedSeconds, for ever, while updates are atomic; reported means it is there |
| RunLifecycle.BillCanBeReported | worker/src/jobs/run-executor.ts:600-638 | after any run a bill that is not reported yet can be: Stripe then holds exactly it, and the run is marked |
| RunLifecycle.UserCancelIsNeverBilled | apps/api/src/routes/v1/runs.ts:175-185 | with atomic updates a run canceled through the route never reaches Stripe |
| RunLifecycle.DeadBranches | worker/src/jobs/run-executor.ts:473-518 | with atomic read-check-write updates the upload time-out and the clean-up of timed-out runs never find anything to do |
| RunLifecycle.UploadTimeoutLiveIff | worker/src/jobs/run-executor.ts:473-480 | a stale update makes the upload time-out live exactly when it is an agent's report of uploading, decided on a running run and written after its end |
| RunLifecycle.SweepIsDeadForAllWrites | worker/src/jobs/run-executor.ts:491-518 | the clean-up of timed-out runs stays dead under any number of stale updates |
| RunLifecycle.StaleWriteRevivesIff | worker/src/jobs/run-executor.ts:62-340 | an unguarded update decided on an older read revives a finished run exactly when it leads to a stage that is not an end |
| RunLifecycle.CancelDuringInitialize | worker/src/jobs/run-executor.ts:300-322 | a cancel during the agent call is undone by the executor's update |
| RunLifecycle.StaleUpdateRebillsIff | worker/src/jobs/run-executor.ts:373-594 | for every finished row, read and action: the late update changes the bill exactly when it writes one and a whole second of the run passes between the end and the update |
| RunLifecycle.LateWriteRebillsIff | worker/src/jobs/run-executor.ts:373-594 | the same for reads and rows of all runs |
| RunLifecycle.RebilledDisagreesForEver | apps/api/src/lib/billing.ts:10-52 | if Stripe had the bill before such an update, row and event disagree in every continuation |
| RunService.Service.IngestStatus | apps/api/src/routes/v1/runs.ts:464-504 | accepts exactly the reports its stage allows, by name; a start begins the billing, an end sets both ends and bills a started run its whole time rounded up, any other report changes the status alone, and each raises the stage |
| RunService.Service.CancelRun | apps/api/src/routes/v1/runs.ts:175-185 | accepted exactly for unfinished runs, setting status and infra end only |
| RunService.Service.ProcessQueuedRun | worker/src/jobs/run-executor.ts:62-169 | only a queued run is touched: it goes on with a workspace or is over unbilled; the stage is raised, a finished run keeps its outcome, bill and reported flag |
| RunService.Service.ProcessProvisioningRun | worker/src/jobs/run-executor.ts:176-230 | only a run waiting for its own workspace changes, and always does: it goes on to INITIALIZING or is over unbilled |
| RunService.Service.InitializeRun | worker/src/jobs/run-executor.ts:236-337 | only an initializing run with a workspace changes, and always does: accepted, it is RUNNING and its billing starts now; if the agent's call or the setup fails it is over unbilled, with an end of its infrastructure only in the first case |
| RunService.Service.CheckRunTimeout | worker/src/jobs/run-executor.ts:373-405 | times out exactly a running run whose hours are over; it is then TIMED_OUT, ended now, and billed the time since its start rounded up, which is at least its hours |
| RunService.Service.FailRun | worker/src/jobs/run-executor.ts:571-594 | only a running run is touched: FAILED, ended now, and billed the one number of seconds within a second of its running time |
| RunService.Service.FinalizeRun | worker/src/jobs/run-executor.ts:528-555 | only an uploading run is touched: COMPLETED, its ends kept or set to now, its bill kept or the time from start to end rounded up |
| RunService.Service.ReportBilling | worker/src/jobs/run-executor.ts:600-638 | repeated reports give Stripe the seconds once; a lost reply only leaves the flag |
| FleetDays.DaysConserveUsage | worker/src/jobs/fleet-daily-agg.ts:17-21 | over days covering a closed session the seconds add up to its floored duration, or one less: exactly when it crosses midnight and its ragged ends make a second |
| FleetDays.DaysNearBill | worker/src/jobs/fleet-daily-agg.ts:17-29 | hence between totalSeconds - 2 and totalSeconds |
| FleetDays.RevenueIsProportional | worker/src/jobs/fleet-daily-agg.ts:94-97 | the days' revenue is the bill's share of the days' seconds |
| FleetDays.ShareWithoutTotal | worker/src/jobs/fleet-daily-agg.ts:94-97 | a session without a total has its whole bill on each of its days |
| FleetDays.DaysConserveRevenue | worker/src/jobs/fleet-daily-agg.ts:84-98 | the days' revenue never exceeds the bill and falls short by at most 2/totalSeconds of it |
| FleetDays.DaysAndSessionsAgree | worker/src/jobs/fleet-daily-agg.ts:84-98 | summing daily rows equals summing sessions |
| FleetDays.DailyRowsConserveUsage | worker/src/jobs/fleet-daily-agg.ts:36-98 | over covering days a GPU type's used seconds are its billed seconds less at most two per session |
| FleetDays.DailyRowsConserveRevenue | worker/src/jobs/fleet-daily-agg.ts:84-98 | over covering days a GPU type's revenue never exceeds its bills and loses at most two seconds' worth of each |
| FleetDays.RowCountsSessionsAndCustomers | worker/src/jobs/fleet-daily-agg.ts:84-92 | a row counts the sessions of its type with seconds on the day, and its customers are exactly their users |
| FleetAggregator.RowOf | worker/src/jobs/fleet-daily-agg.ts:116-152 | the row of a GPU count and a day's usage: hours, utilization as a percentage of all hours up to 100, revenue, sessions and customers |
| FleetAggregator.QueryMissesNothing | worker/src/jobs/fleet-daily-agg.ts:51-56 | a session the query leaves out has no seconds on the day |
| FleetAggregator.RowSays | worker/src/jobs/fleet-daily-agg.ts:40-152 | a written row counts the GPUs of its type, the sessions of its type with seconds on the day, and their users, and has the used seconds in hours and as a percentage of all hours |
| FleetAggregator.HasRowIff | worker/src/jobs/fleet-daily-agg.ts:100-153 | a day gets a row for exactly the GPU types in the fleet or with seconds on the day |
| FleetAggregator.HoursAddUp | worker/src/jobs/fleet-daily-agg.ts:23-29 | the hours and the revenue of filled days add up to those of their sessions, if rows that are not rewritten carry none |
| FleetAggregator.Table.Aggregate | worker/src/jobs/fleet-daily-agg.ts:73-98 | the accumulating loop yields, per GPU type, count, customers, seconds and revenue of the day |
| FleetAggregator.Table.CountInventory | worker/src/jobs/fleet-daily-agg.ts:40-49 | the counting loop yields the number of GPUs per type |
| FleetAggregator.Table.ComputeForDate | worker/src/jobs/fleet-daily-agg.ts:36-153 | writes exactly the rows of the day, each counting its GPUs, sessions and users, and no other day's |
| FleetAggregator.Table.Backfill | worker/src/jobs/fleet-daily-agg.ts:23-29 | over any table, fills every day of the window and no other; hours and revenue then account for the billed seconds and the bills of the sessions closed within it, short of them by at most two seconds' worth of each, unless a row that is not rewritten carries either |
| LoginThrottle.CheckedAt | apps/api/src/routes/auth.ts:66-84 | a lock check leaves every entry as it was or restarts it, and finds those it passes unlocked |
| LoginThrottle.RecordedAt | apps/api/src/routes/auth.ts:86-95 | a recorded failure counts once for each of its keys and no other |
| LoginThrottle.FailuresAreBounded | apps/api/src/routes/auth.ts:29-95 | in any run without success for a key, any interval of a window's length has at most 2*MAX recorded failures, and one more for each lock that fits into it |
| LoginThrottle.ProductionBound | apps/api/src/routes/auth.ts:29-31 | ten in fifteen minutes with production's constants |
| LoginThrottle.DevelopmentBound | apps/api/src/routes/auth.ts:29-31 | twenty-seven in fifteen minutes with development's |
| ThrottleWorstCase.BoundIsReached | apps/api/src/routes/auth.ts:56-95 | the bound is exact: with locks by address, or with at least two failures and a lock over a millisecond and below the window, some run reaches it |
| ThrottleWorstCase.TwiceIsEnoughIff | apps/api/src/routes/auth.ts:29-95 | with locks by address, or with at least two failures and a lock over a millisecond: twice the maximum bounds every run exactly when the lock lasts as long as the window |
| ThrottleWorstCase.RealWorstCases | apps/api/src/routes/auth.ts:29-31 | runs with ten failures in fifteen minutes in production and with twenty-seven in development |
| ThrottleWorstCase.OverlapHasNoBound | apps/api/src/routes/auth.ts:173-193 | attempts that overlap between check and record get through in any number |
| LoginThrottle.LockEndsWithWindow | apps/api/src/routes/auth.ts:66-72 | an entry locks exactly while its window and its lock both last; a full window whose lock outlasts it, to its end and no longer |
| LoginThrottle.SweepIsInvisible | apps/api/src/routes/auth.ts:43-52 | any run answers every attempt as the same run without sweeps |
| LoginThrottle.AnswersGoOn | apps/api/src/routes/auth.ts:173-215 | a run answers each attempt, and no sweep, by the table its past has left |
| LoginThrottle.SuccessForgets | apps/api/src/routes/auth.ts:97-101 | after a success its keys start anew and all other keys are as before |
| LoginGuard.AttemptIsAnswered | apps/api/src/routes/auth.ts:173-193 | an attempt is throttled exactly if its e-mail, that with its address or, in production, its address is locked within its window, until a time such a lock ends; otherwise its password decides |
| LoginGuard.AttemptLeaves | apps/api/src/routes/auth.ts:76-101 | a rejection counts one more failure for each of these keys, locking at the maximum; a success drops them; a throttled attempt only reads them; all other entries stay |
| LoginGuard.Guard.GetLoginThrottleState | apps/api/src/routes/auth.ts:66-74 | finds or restarts the entry |
| LoginGuard.Guard.GetActiveThrottleLock | apps/api/src/routes/auth.ts:76-84 | reports the first lock among the keys |
| LoginGuard.Guard.RecordLoginFailure | apps/api/src/routes/auth.ts:86-95 | counts and locks key by key |
| LoginGuard.Guard.ClearLoginFailures | apps/api/src/routes/auth.ts:97-101 | forgets exactly the given keys |
| LoginGuard.Guard.CleanUp | apps/api/src/routes/auth.ts:43-52 | keeps exactly the entries whose window or lock is not over, unchanged, and drops nothing an access would find |
| LoginGuard.Guard.Login | apps/api/src/routes/auth.ts:173-215 | one attempt: throttled, rejected and recorded, or welcomed and cleared, exactly as these two say |
| Ranking.DominanceLowersScore | apps/api/src/routes/recommend.ts:612-668 | a plan no worse on risk, cost, time, cluster, intent and warm supply scores no higher, after normalizing, clamping and rounding |
| Ranking.ScoreInRange | apps/api/src/routes/recommend.ts:650 | scores lie between 0 and 10 |
| Ranking.MarginLowersRisk | apps/api/src/routes/recommend.ts:460-465 | more memory to spare is never a higher risk |
| Ranking.RiskOfMargin | apps/api/src/routes/recommend.ts:460-465 | the risk a plan counts with, by the memory it has to spare |
| Ranking.ObjectiveLeads | apps/api/src/routes/recommend.ts:600-610 | the criterion an objective is named after outweighs the other three together: better by d on it, and worse by at most d on each of them, a plan scores no higher |
| Ranking.TradeOffs | apps/api/src/routes/recommend.ts:612-650 | the exact rates at which each objective trades risk, cost, time, cluster size, intent and warm supply |
| Ranking.WorstScoresTen | apps/api/src/routes/recommend.ts:644-650 | the score is a weighted mean: worst on everything is exactly 10 |
| Ranking.SortedIsStableSort | apps/api/src/routes/recommend.ts:1002 | the sort puts each plan once, by score, equal scores in original order |
| Ranking.PoolIff | apps/api/src/routes/recommend.ts:1004-1013 | the answer is made of exactly the plans whose risk may be shown, or of all if there are none |
| Ranking.RankedIff | apps/api/src/routes/recommend.ts:1014-1059 | of these, in a request for distributed training, those that suit the intent are ranked and the others are fallbacks |
| Ranking.FiltersKeepTheBetter | apps/api/src/routes/recommend.ts:1004-1013 | if a plan is ranked, so is every plan that is no worse |
| Ranking.RankingRespectsDominance | apps/api/src/routes/recommend.ts:951-1059 | and it ranks before, except at equal scores in original order |
| Ranking.RanksAndFallbacksPartitionThePool | apps/api/src/routes/recommend.ts:1004-1059 | ranks are 1 to n, and ranked plans and fallbacks together are the pool, each plan once |
| Ranking.EligibleIff | apps/api/src/routes/recommend.ts:873-890 | a plan is kept exactly if it fits, has no more GPUs than the limit and at its lower cost stays within the budget, where a limit of 0 is none |
| Ranking.CollectPlans | apps/api/src/routes/recommend.ts:873-932 | the loops keep exactly the plans that fit and respect the limits, in order |
| Budget.EstimateNearBill | apps/api/src/services/workspaceService.ts:52-57 | the running estimate is at most the bill of the same instant, which exceeds it by at most ceil(price/3600) |
| Budget.MtdNearBill | worker/src/jobs/budget-monitor.ts:100-108 | over a month: spend <= bill if all closed now <= spend + one such room per running session |
| Budget.SureSpendNeverFalls | apps/api/src/services/workspaceService.ts:611-651 | the spend that no pending close can take away never falls, however sessions open, are stamped, and close |
| Budget.CommitLowersIff | worker/src/jobs/workspace-cleanup.ts:62-102 | a committing close lowers the spend exactly when the running estimate has outgrown the bill of its earlier stamp |
| Budget.SpendFallsAtMost | apps/api/src/services/workspaceService.ts:611-651 | over any run the spend falls by at most what the time since the stamps in flight costs, and not at all with none in flight |
| Budget.SpendCanFall | apps/api/src/services/workspaceService.ts:611-651 | a run in which a close takes the spend from ten cents to one |
| Budget.SpendStaysIff | apps/api/src/services/workspaceService.ts:43-60 | the spend stays at a level in every continuation exactly when the sure spend is there |
| Budget.StaysRefusedIff | apps/api/src/services/workspaceService.ts:197-202 | a refused user stays refused whatever happens exactly when the sure spend has reached the limit |
| Budget.RefusedStaysRefused | worker/src/jobs/budget-monitor.ts:100-117 | and the monitor then sees at least 100 per cent throughout |
| Budget.PctReachesIff | worker/src/jobs/budget-monitor.ts:110 | the rounded percentage reaches p exactly when 200*spend >= (2p-1)*limit |
| Budget.VerdictIs | worker/src/jobs/budget-monitor.ts:110-176 | in spend and limit: terminate from 99.5 per cent of an enforced limit on, otherwise warn from 89.5 per cent on, unless an alert went out in the four hours before |
| Budget.TerminatedButAdmittedIff | worker/src/jobs/budget-monitor.ts:110-117 | the monitor terminates a user the gate admits exactly within half a per cent below the limit |
| Budget.WarningsAreSpaced | worker/src/jobs/budget-monitor.ts:113-176 | over any run of checks warnings are at least four hours apart |
| Budget.WarningsGoOn | worker/src/jobs/budget-monitor.ts:110-176 | a run of checks warns exactly at those that find 89.5 per cent of the limit spent, terminate nothing, and have no alert in the four hours before |
| BudgetMonitor.MtdSpendCents | apps/api/src/services/workspaceService.ts:50-59 | the loop computes the month's spend |
| BudgetMonitor.MayLaunch | apps/api/src/services/workspaceService.ts:197-202 | refuses exactly when a limit is set, positive and enforced and the month's spend has reached it; the refusal holds for the rest of the month exactly when the spend that pending closes cannot take away has reached it |
| BudgetMonitor.Account.TerminateAll | worker/src/jobs/budget-monitor.ts:118-152 | every active workspace becomes TERMINATING with a cleanup job, and no other |
| BudgetMonitor.Account.CheckBudget | worker/src/jobs/budget-monitor.ts:72-240 | from 99.5 per cent of an enforced limit on every active workspace is terminated and the alert written; otherwise from 89.5 per cent on a warning, unless within four hours of the last alert; otherwise nothing changes |
| TtlStore.TtlMs | apps/api/src/lib/ephemeralStore.ts:43 | whole seconds rounded up, at least one |
| TtlStore.ValueAfter | apps/api/src/lib/ephemeralStore.ts:42-100 | a write means its value for its key until its time to live is over, a conditional one only without a live value, and nothing else changes any answer |
| TtlStore.ReadsAgree | apps/api/src/lib/ephemeralStore.ts:67-73 | whatever was collected, a read answers by the history of writes |
| TtlStore.StepAgrees | apps/api/src/lib/ephemeralStore.ts:36-100 | every operation and every collection keeps that agreement |
| TtlStore.CollectingIsInvisible | apps/api/src/lib/ephemeralStore.ts:36-40 | for every history and schedule the map answers as the time-indexed map of its writes alone |
| TtlStore.Store.SetWithTtl | apps/api/src/lib/ephemeralStore.ts:42-55 | stores value and expiry, and records the write |
| TtlStore.Store.Lookup | apps/api/src/lib/ephemeralStore.ts:57-74 | answers by the history |
| TtlStore.Store.SetIfAbsentWithTtl | apps/api/src/lib/ephemeralStore.ts:84-100 | true exactly when the history has no live value, and then stores value and expiry |
| TtlStore.Store.CollectExpired | apps/api/src/lib/ephemeralStore.ts:36-40 | keeps exactly live entries, and the agreement |
| Replay.AcceptedAtMostOnce | apps/api/src/routes/internal/agent.ts:94-117 | in any history a callback stamped strictly before its first acceptance is never accepted again |
| Replay.AcceptedAgainIff | apps/api/src/routes/internal/agent.ts:26-29 | a repeat is accepted exactly when the nonce has expired and the stamp is still in time |
| Replay.RepeatableIff | apps/api/src/routes/internal/agent.ts:105-114 | so a callback can be repeated successfully exactly when it is not stamped before its acceptance |
| Replay.CheckReplayProtection | apps/api/src/routes/internal/agent.ts:94-117 | the check against the store accepts exactly a nonce without a live entry with a stamp within a minute of now, both present, and in development requests without a nonce; a timely nonce is stored for a minute and nothing else is written |
| Leadership.OnlyTheAuthorPasses | worker/src/index.ts:172-194 | in every reachable state only the author of the latest leader record can pass verification, hence at most one worker |
| Leadership.CanBeginIff | worker/src/index.ts:116-194 | a worker can begin a batch without a new grant exactly when it can pass a check, has a passing one under way, or has a record write under way |
| Leadership.DisplacedCanBeginIff | worker/src/index.ts:116-194 | for a displaced worker of any run: exactly when it has a passing check or a record write under way |
| Leadership.DisplacedBeginsNothing | worker/src/index.ts:233-238 | a worker that cannot pass a check and has neither a passing check nor a record write under way begins no batch in any continuation until it is granted the lock again |
| Leadership.ReadUnderWayStillBegins | worker/src/index.ts:172-194 | the first gap: a verification that read before the record changed hands still begins its batch |
| Leadership.WriteUnderWayStillBegins | worker/src/index.ts:116-167 | the second gap: a record write that arrives late takes the record back from the worker that acquired meanwhile |
| Leadership.TakeoverIsPossible | worker/src/index.ts:116-194 | after any run, when the worker with the lock crashes or loses it, a new worker can acquire it, take over the record and begin a batch under its own token |
| Leadership.GivingUpTakesLong | worker/src/index.ts:109-165 | a worker that never gets the lock gives up after between 27 and 27.1 minutes |
| LeaderProcess.Process.AcquireLeaderLock | worker/src/index.ts:116-167 | a grant makes it leader with a fresh token, kept even if the record write throws, which counts as one retry; a refusal or error counts, and the sixtieth exits |
| LeaderProcess.Process.VerifyLeaderLock | worker/src/index.ts:172-194 | passes exactly when the record has its token, otherwise gives leadership up; when the query throws it begins nothing and keeps leadership |
| SpotPricing.ShortageIsOneLine | worker/src/jobs/spot-pricing.ts:38-45 | both scarcity tiers are the line max(1, 1.5 - ratio) |
| SpotPricing.MultiplierRange | worker/src/jobs/spot-pricing.ts:33-59 | the multiplier stays in [0.85, 1.5], and at or above target at most 1 |
| SpotPricing.NoJumpBelowTarget | worker/src/jobs/spot-pricing.ts:38-45 | below target the multiplier changes by at most the change of ratio, so it has no jump at 0.25 or 0.5 |
| SpotPricing.JumpAtTargetIff | worker/src/jobs/spot-pricing.ts:47-57 | at target it drops exactly for a pool never rented from or idle for 18 hours |
| SpotPricing.QuoteIsFactor | worker/src/jobs/spot-pricing.ts:33-59 | the multiplier is 1.5 less the available share, at least 1, below target; above it 0.9 for a pool never rented from, and otherwise 1 less a twentieth per six idle hours after twelve, three at most |
| SpotPricing.PriceIsNearMultiple | worker/src/jobs/spot-pricing.ts:61-67 | the price is base times multiplier to half a cent wherever that is between 40 cents and the ceiling, and otherwise that bound |
| SpotPricing.ChangesIff | worker/src/jobs/spot-pricing.ts:89-107 | the log has exactly the changes of price, from what a pool had to what it has |
| SpotPricing.MoreSupplyNeverRaisesThePrice | worker/src/jobs/spot-pricing.ts:33-65 | more available workspaces never raise the price, which stays between floor and ceiling |
| SpotPricing.LongerIdleNeverRaisesThePrice | worker/src/jobs/spot-pricing.ts:47-65 | nor does a longer idle time |
| SpotPricing.Market.Reprice | worker/src/jobs/spot-pricing.ts:33-65 | the tier-by-tier assignment computes that price |
| SpotPricing.Market.UpdateSpotPrices | worker/src/jobs/spot-pricing.ts:18-107 | reprices every pool so; an SKU takes its last pool's price, and exactly the changes are logged |
| ImageReference.JoinUndoesSplitIff | apps/api/src/services/workspaceService.ts:215-228 | joining the stored parts gives back the reference exactly when it has a tag that is not empty |
| ImageReference.SplitUndoesJoin | worker/src/jobs/warm-pool.ts:772 | split after join after split is the normalized pair, for every non-empty reference, registry ports included |

## Left out

- Metering.EffectivelyOnce: Stripe forgets identifiers after its own retention window; the model has it remember them for ever.
- Metering.AttemptBudget: covers runs in which emitter calls do not overlap; with overlaps two emitters may each spend an attempt on one read.
- Metering: the row columns for error texts, and the switch that disables metering without a Stripe key; an emitter of the protocol may pick any due rows, while the query of BillingStore picks the oldest.
- MeterDelivery.EveryRowSettles: for ticks that do not overlap; a row's age is a given function of the row, and rows added between ticks are younger than those there.
- PortLeases.PortSafety: holds for runs that lose no reply of a committed lease write while the lease is live, which PortLeases.SafetyIff shows to be exactly what a step must not do; and at most one request per workspace is in flight, as two overlapping ones are not safe in the code.
- PortLeases: VM addresses in the cache, exposed extra ports, request signatures, and the API's own upsert of the endpoint row (apps/api/src/services/workspaceService.ts:360-376); deletion of workspaces, which the source does only to ones that never had a lease; the boot's release of one stale lease and its removal from the cache are one step, as no request is served then.
- LaunchOperations: what happens inside `launchWorkspaceInternal` beyond returning a workspace or throwing; deletion of a workspace, which clears the operation's reference.
- Teardown: new sessions opened by a launch that is still in flight while the job runs, workspace attempt counters, incidents, and the stale-workspace sweep beyond its re-enqueue.
- Provisioning: the VM itself (its deletion after a failure is best effort), templates, VLAN, volumes and buckets, VM numbers, GPU states other than FREE and ALLOCATED, GPU rows changed by operators or by the incident detector, and cleanup of a workspace while an attempt works on it.
- Provisioning.ClaimEndsAllOrNothing: a database error inside the rollback itself counts as a crash, and a claim or slot transaction that reports failure has committed nothing.
- RunLifecycle.TerminalAbsorbs: for updates that read, decide and write in one go; what unguarded later writes do is stated by RunLifecycle.StaleWriteRevivesIff, RunLifecycle.UploadTimeoutLiveIff and RunLifecycle.StaleUpdateRebillsIff.
- RunLifecycle.BillIsDuration: one clock reading per update; the source reads the clock once for the end and again for the duration.
- RunLifecycle: the workspace a run holds and its release, logs, artifacts, and when exactly heartbeat loss or an upload's end is noticed (the model lets them be noticed at any time).
- FleetDays, FleetAggregator: signup and approval counts; a day's rows are computed from one snapshot of sessions and one clock reading.
- LoginThrottle.FailuresAreBounded: an attempt is one step; the source awaits between its lock check and its record, and what overlapping attempts then can do is stated by ThrottleWorstCase.OverlapHasNoBound.
- LoginThrottle: the rate limit of the web server in front of the route.
- Ranking: how plans are estimated (memory, tokens per second, cost and time ranges), labels and reason texts.
- Budget: organization budgets sum other rows by the same loop; gate and monitor read rows and clock at one instant; webhooks and e-mails; sessions that started in an earlier month do not count, as in the source.
- TtlStore: the Redis branch, which is Redis's own, and its fail-open answers.
- Replay: signatures; one clock reading per call, where the source reads the clock again inside the store.
- Leadership: the heartbeat column of the leader record, and which jobs a batch holds.
- SpotPricing: the display multiplier rounded to two digits and the log's texts.
- Floating-point rounding everywhere: all arithmetic is exact.
- HTTP, authentication and signatures, Prisma, Proxmox, MinIO, e-mail and webhooks, the reverse proxy, the agents and the command line: input and output, or library calls.
- Burst orchestration, volumes, event retention, dashboards and export scripts: they would add queries and easy members only.
