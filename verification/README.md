# Proofs about the engineering loop and the daemon

This project models the parts of Agentra where several workers, goroutines or
restarts meet, and proves what they keep. Everything is checked by
`dafny verify dfyconfig.toml` (Dafny 4.11); nothing here is run.

**The engineering loop.** A loop takes an issue through plan, develop, review and
(fix, review)\*. It moves only when the terminal event of a work item is projected.
`LoopTypes` and `LoopPolicy` give the loop row, its work items, the decisions and
the statements they stand for, `LoopTables` what each of them does, case by case;
`LoopInvariant` is what every operation keeps, and exactly which operator writes keep
it. `LoopServer` is the whole server as a step system: HTTP operations, projections,
the environment that ends or loses items, crashes, and the startup sequence drain,
restore, serve, with `restoreOne` cut at each of its queries and statements.
`LoopTheorems` and `LoopLiveWork` state what holds over runs with guarded operator
writes, `LoopAnyRun` and `LoopStartup` what holds over all; `LoopRequests` follows operators' requests,
`LoopRace` and `LoopStaleWrites` show what racing ones break. `LoopCluster` cuts
`ProcessNext` at each statement, for any number of workers with row locks, late
claims and rollbacks, and says exactly which runs `LoopServer` can follow;
`LoopClusterFlight` does the same for single flight, and `LoopLateClaims` has the run
in which it ends. `LoopStores`, `LoopCoordinators` and `LifecycleProjectors` are the
Go objects as classes, with a failure of any statement, proved against the same
decision functions. `LoopReplay` and `LoopRecovery` treat
replayed events and startup recovery of one loop.

**Result extraction.** `JsonText` is the concrete syntax of RFC 8259, sections 2 to
7, with a printer, and `JsonReader` a reader that undoes it; `JsonScanner` is the
scanner of `parseTaskResult` and the proof that it cuts out exactly what was printed.

**Live output.** `TaskMessages` splits text at UTF-8 boundaries (RFC 3629, section
4; `Utf8` has the encoding of section 3); `TaskOutput` is the reader and the flusher
that share a batch and two pending buffers under a lock, and a counter that is not
under it.

**Daemon and hub.** `PollLoop` (the semaphore-bounded poll loop), `RuntimeIndex`
(watched workspaces and their runtimes), `RealtimeHub` (rooms, broadcasts, delayed
removal of slow clients) and `EventRouting` (who is offered which event).

**Two small algorithms.** `LogTail` (ring buffer) and `OtpCode` (rejection
sampling). `Base` and `ModArith` are shared vocabulary.

## What a reader should know first

* *Operator requests.* Pause, resume and cancel read the row without a lock and
  write the whole row back, possibly much later. `FlightWriteIff`, `BudgetWriteIff`
  and `SoundWriteIff` say, for every write, whether it keeps single flight's
  invariant, the budget of work, and the whole loop invariant; `LiveWriteIff` and
  `IdleWriteIff` spell the last one out. A run in mode `FlightSafe`, `Budgeted` or
  `Guarded` is one whose writes pass that guard when they are made; `Racy` has no
  guard. Single flight, live work and that recovery leaves exactly one live item are
  proved for `FlightSafe` runs, the work bound for `Budgeted` ones, the exact accounts
  and the order of work for `Guarded` ones; that recovery reaches every loop, the
  iteration bound and that done is earned for all. Conversely,
  every write that fails the first guard extends to a run with two live items if the
  stage it names has an agent (`StaleStageBreaksSingleFlight`), and every write that
  fails the second extends to a run with more than 2·max+3 items if every stage has
  one (`OverBudgetBreaksWorkBound`). `RacingPauseBreaksSingleFlight` and
  `RacingPauseBreaksWorkBound` are such runs from a fresh database.
* *Late claims.* The claim query locks an outbox row that the previous worker only
  locked, so a snapshot older than that worker's commit lets the event be claimed
  again. The second commit changes nothing exactly if the guard of `apply` stops the
  event when the loop row is locked (`StaleCommitIff`, `SecondCommitIff`), and the
  sequential server can follow a run exactly if it always does (`RefinesIff`). Single
  flight survives more: it fails exactly when a late claim opens work beside live
  work (`SingleFlightIff`), as in `LateClaimRun`, a run with sound operator writes
  only. Recovery (`RecoveryInCluster`), `ClusterKeepsAccounts` and
  `DoneIsEarnedInCluster` hold in every run.
* *Swallowed events.* An event projected while the loop is paused is receipted and
  does nothing else, so pausing, completing and resuming leaves a running loop with
  no live work until the next start. `LiveWorkIff` says from a run's history exactly
  when a loop has live work, and `ResumeGuardIff` what a resume would have to check.
* *Startup loads at most 1000 loops.* `RecoveryReachesEveryLoop` is about the loops
  the query returned; `EveryActiveLoopIsLoadedIff` says exactly when those are all.
* *Receipts are needed.* Applying an event twice in a row changes nothing; applied
  again later it changes the loop exactly if the loop is back at its stage
  (`ReplayIsNoopIff`, `DelayedReplayTakesEffect`).
* *Code and comments.* The comment at server/internal/loop/store.go:26-28 says a nil
  field is left unchanged; the statement writes NULL or 0 (only `started_at` is
  kept). The comment at store.go:110-112 speaks of the develop stage; the pull
  request is written when a review is approved. The comment at
  server/internal/loop/lifecycle_projector.go:73-75 says concurrent workers cannot
  create a duplicate stage work item; see late claims above. The code is followed.

## Model

| member | source | states |
|---|---|---|
| LoopTheorems.SingleFlightAlways | server/internal/loop/lifecycle_projector.go:131-135 | in every state reached with operator writes that name no other stage than a live item's, a loop has at most one live item; it is the newest and of the row's stage, so the type-only guard cannot pick an older one |
| LoopAnyRun.WorkIsBounded | server/internal/loop/coordinator.go:171-192 | start and projections create at most 2·max+3 items over any run whose operator writes stay within the budget; with sound writes the unspent rest is exact while a stage is set, and the iteration counts the fix items |
| LoopTheorems.WorkFollowsPlan | server/internal/loop/coordinator.go:171-192 | apart from re-created items, the work of a loop is plan, develop, review, (fix, review)\* in every run with sound operator writes |
| LoopTheorems.ProjectionSpendsOne | server/internal/loop/coordinator.go:171-192 | each projection that creates an item lowers the remaining-work measure by one and keeps it at or above zero, in any loop whose iteration is within bounds |
| LoopTheorems.OverrideIsLocal | server/internal/loop/loop.go:111-119 | overriding the agent of one stage changes what projecting an event does only if the event opens that stage |
| LoopTheorems.ProjectionOutcomes | server/internal/loop/lifecycle_projector.go:131-175 | when an event of the current stage ends the loop done, failed (and with which reason, stage kept or cleared) or running with one more item, each way round |
| LoopTheorems.ProjectableIff | server/internal/loop/lifecycle_projector.go:113-152 | in a sound loop, exactly which events can be projected; all others fail and change nothing. What makes an agent unavailable for now is a failed query for a well-formed id |
| LoopTheorems.SwallowedEventLeavesNoWork | server/internal/loop/lifecycle_projector.go:131-135 | an event of a loop that does not run changes no row; resuming afterwards gives a running loop without live work |
| LoopAnyRun.DoneIsEarned | server/internal/loop/coordinator.go:176-185 | every transition into done, in any run, projects a completed review whose verdict is an approval, and the recorded PR is that result's: its URL and branch, or none where they are empty, and its number, 0 if it has none, modulo 2^32 |
| LoopAnyRun.DoneByProjection | server/internal/loop/lifecycle_projector.go:154-163 | the same for one event of any loop, receipted before or not, column by column |
| LoopAnyRun.RecordedPrIsEarned | server/internal/loop/store.go:113-124 | in every reachable state a recorded PR, or status done, goes back to an approving review on record |
| LoopTheorems.RecoveryReachesEveryLoop | server/internal/loop/coordinator.go:225-239 | in every run, whatever operators write: after the restore loop every loaded loop that runs has live work of its stage and its loaded row, unless its restore reported an error before an item was there or it lost its item afterwards |
| LoopTheorems.RecoveryIsComplete | server/internal/loop/coordinator.go:225-239 | and exactly one live item if operator writes name no other stage than a live item's |
| LoopStartup.StartupRecovers | server/internal/loop/coordinator.go:225-326 | told by the steps: when the server begins to serve, a loop that was loaded and still runs has the row it had when it was loaded and live work of its stage, unless since the load its restore failed before an item was there, its agent query failed, or it lost an item after restoreOne had passed it |
| LoopStartup.RestoredIff | server/internal/loop/coordinator.go:225-239 | which loops count as restored, by what was loaded and the steps taken since |
| LoopStartup.ExcusedIff | server/internal/loop/coordinator.go:225-239 | in every run startup works on the rows as loaded, and the loops not accounted for are exactly those one of these steps gave up on |
| LoopTheorems.EveryActiveLoopIsLoadedIff | server/pkg/db/queries/loops.sql:55-61 | startup loads all running and paused loops if and only if there are at most 1000 |
| LoopTheorems.OldestAreLoaded | server/pkg/db/queries/loops.sql:55-61 | and always the oldest, in the order they were created, 1000 if any is left out |
| LoopTheorems.RestoreGoesOn | server/internal/loop/coordinator.go:243-326 | whatever a restore has found so far, exactly one of its statements is next and each may fail; the server begins to serve after the last loop and not before |
| LoopTheorems.StartupEnds | server/internal/loop/coordinator.go:225-239 | from the load on, startup takes at most four restore steps for each loop, whatever the environment does and whichever restores fail |
| LoopTheorems.PendingIsUntouched | server/internal/loop/store.go:52-71 | in every run a loop that has not been started has no work, no PR and no failure; no write takes a loop back to pending |
| LoopTheorems.RestoreTouchesOnlyItsLoop | server/internal/loop/coordinator.go:243-326 | each step of a restore leaves all other loops alone, and touches its own only to fail it or to give it its one item |
| LoopAnyRun.IterationBoundedEvenIfRacy | server/internal/handler/loop.go:295-314 | 0 ≤ iteration ≤ max in every reachable state even if operator reads and writes race with everything |
| LoopAnyRun.EffectKeeps | server/internal/loop/lifecycle_projector.go:112-176 | any event, projected at any time and any number of times, keeps the iteration bound, the recorded approval and the budget |
| LoopAnyRun.RunKeepsAny | server/internal/handler/loop.go:295-314 | so does every step of every run, the budget if operator writes do |
| LoopAnyRun.ClusterKeepsAccounts | server/internal/loop/lifecycle_projector.go:73-110 | the iteration bound, the recorded approval and the work bound hold with any number of workers, and with late claims that take effect a second time |
| LoopRequests.WritesWhatItRead | server/internal/handler/loop.go:295-314 | an operator's write, however late, puts back the stage and iteration its own read found, with its target status, and touches no other loop |
| LoopRequests.PendingRequestIff | server/internal/handler/loop.go:295-314 | in every run a request is pending exactly from its read to its write or a crash |
| LoopRequests.OperationsIff | server/cmd/server/loop_coordinator.go:22-31 | exactly when a loop can be created and started, an event projected, an operator's request served |
| LoopRequests.PhasesLeaveLoops | server/cmd/server/loop_coordinator.go:22-31 | crashes and the stages of startup change no loop; requests die with the server |
| LoopAnyRun.DoneIsEarnedInCluster | server/internal/loop/lifecycle_projector.go:73-110 | in every such run a loop turns done only by the commit of an approved review, and its PR comes from that result |
| LoopStaleWrites.StaleStageBreaksSingleFlight | server/internal/handler/loop.go:295-314 | from any state of any run, a write that names another stage than the live item's, if that stage has an agent, extends to a run with two live items |
| LoopStaleWrites.OverBudgetBreaksWorkBound | server/internal/handler/loop.go:295-314 | from any state of any run, a write over the budget extends to a run in which start and projections create more than 2·max+3 items, if every stage has an agent and no event of the stage is of an unknown version |
| LoopStaleWrites.StaleIterationBreaksWorkBound | server/internal/handler/loop.go:295-314 | in particular one that takes the iteration of a busy, sound loop back |
| LoopStaleWrites.RacingPauseBreaksWorkBound | server/internal/handler/loop.go:295-314 | a run of that kind from a fresh database |
| LoopStaleWrites.RestartArms | server/internal/loop/coordinator.go:263-322 | a restart re-arms a running loop that has no live item of its stage, whatever else it has in flight |
| LoopLiveWork.LiveWorkIff | server/internal/loop/lifecycle_projector.go:131-135 | in every run whose writes respect single flight, a loop that ever had an item has its live item exactly if, since its newest one was created, none was lost and no event was projected that the guard stopped or that ended the loop |
| LoopLiveWork.LiveWorkInClusterIff | server/internal/loop/lifecycle_projector.go:73-110 | the same with any number of workers, until a late claim opens work beside live work; other late commits let go of nothing |
| LoopLiveWork.ProjectionOnWork | server/internal/loop/lifecycle_projector.go:112-176 | a projection uses up the one live item and creates the next exactly if the guard lets the event pass and the loop runs on |
| LoopRace.RacingPauseBreaksSingleFlight | server/internal/handler/loop.go:295-314 | a concrete run in which a pause races with a projection and startup ends with two live items |
| LoopInvariant.AtMostOneLive | server/internal/loop/lifecycle_projector.go:131-135 | the loop invariant bounds live items by one and ties the live one to the current stage |
| LoopInvariant.StartKeeps | server/internal/loop/coordinator.go:99-157 | starting a pending loop gives exactly one plan item, a running row at plan, and a sound loop |
| LoopInvariant.ProjectKeeps | server/internal/loop/lifecycle_projector.go:112-176 | projecting any event of any item keeps the loop invariant |
| LoopInvariant.EffectShape | server/internal/loop/lifecycle_projector.go:112-176 | what an event does to any loop, case by case: nothing but the receipt, the next item, an ordinary failure, a failure for the agent, or completion with the PR of its result |
| LoopInvariant.AdvanceShape | server/internal/loop/coordinator.go:411-433 | an advancing projection moves the row to the new stage, adds one item of it, receipts the event and changes nothing else |
| LoopInvariant.AdvanceKeeps | server/internal/loop/coordinator.go:171-192 | advancing keeps single flight, the accounts and the plan |
| LoopInvariant.ApprovalKeeps | server/internal/loop/coordinator.go:339-350 | completing a loop keeps the invariant and earns its PR |
| LoopInvariant.FailingKeeps | server/internal/loop/coordinator.go:351-361 | failing a loop keeps the invariant; stage and iteration are cleared together |
| LoopInvariant.BadConfigKeeps | server/internal/loop/coordinator.go:435-450 | failing for bad configuration keeps stage, iteration and items, and the invariant |
| LoopInvariant.OperatorKeeps | server/internal/handler/loop.go:310-314 | pause, resume or cancel, from any status, is sound when stage and iteration are current |
| LoopInvariant.FlightWriteIff | server/internal/handler/loop.go:310-314 | an operator's write, whatever it read, keeps single flight's invariant exactly if it names no other stage than a live item's |
| LoopInvariant.BudgetWriteIff | server/internal/handler/loop.go:310-314 | it keeps the work within the budget exactly if it names no stage, or one from which, at the iteration it names, the loop ends within it |
| LoopInvariant.SoundIsInBudget | server/internal/loop/coordinator.go:171-192 | a sound loop is within the budget, and a write of its current stage stays there exactly if it takes no round back |
| LoopInvariant.SoundWriteIff | server/internal/handler/loop.go:310-314 | it keeps the whole loop invariant exactly if it names the newest item's stage and the number of fix rounds and there is no PR yet, or names no stage and nothing is live |
| LoopInvariant.LiveWriteIff | server/internal/handler/loop.go:310-314 | with live work: exactly if stage and iteration are current |
| LoopInvariant.IdleWriteIff | server/internal/handler/loop.go:310-314 | without: exactly if they are current, or both cleared, or bring back the newest item's of a row without a stage |
| LoopInvariant.ProjectFlight | server/internal/loop/lifecycle_projector.go:112-176 | projecting any event keeps single flight's invariant on its own |
| LoopInvariant.EndKeeps | server/internal/loop/coordinator.go:216-220 | an item may end with an event or be lost at any time without breaking the invariant |
| LoopInvariant.RestoreRowWriteIsIdentity | server/internal/loop/coordinator.go:314-316 | the row write that follows a re-arm changes nothing |
| LoopPolicy.ResolvedIff | server/internal/loop/coordinator.go:375-409 | work can be enqueued exactly if the stage's own agent, or else the loop's, is there, in the same workspace, not archived and on a runtime; it cannot for now exactly if the query for a well-formed id failed; the configuration is at fault in all other cases |
| LoopTables.RefusedIff | server/internal/loop/lifecycle_projector.go:112-152 | exactly which events cannot be projected, on version, run, stage, configured id and agent query |
| LoopTables.ProjectionTable | server/internal/loop/lifecycle_projector.go:112-176 | what each event leaves in any loop, column by column and item by item; an agent that is not there fails the loop, stage and iteration kept |
| LoopTables.DecisionTable | server/internal/loop/coordinator.go:162-195 | what is decided for any row and result |
| LoopTables.IdleIsLeftAlone | server/internal/loop/coordinator.go:162-166 | a decision about a loop that is paused or has ended writes nothing, whatever the event |
| LoopTables.StartTable | server/internal/loop/coordinator.go:99-157 | a loop starts exactly if it is pending and its planning agent is there, in its workspace, not archived and on a runtime; the new row and its one item |
| LoopTables.RestoreTable | server/internal/loop/coordinator.go:243-326 | what restoring any loop does: nothing, fail it for its configuration or its age, re-arm it, or an error |
| LoopTables.OperatorTable | server/internal/handler/loop.go:310-314 | an operator write replaces status, stage and iteration and clears failure and end |
| LoopReplay.ImmediateReplayIsNoop | server/internal/loop/lifecycle_projector.go:131-135 | an event applied twice in a row equals once, for every loop, verdict and lookup |
| LoopReplay.DecisionLeavesStage | server/internal/loop/coordinator.go:162-195 | no decision leaves the loop running at the stage it decided on |
| LoopReplay.ReplayIsNoopIff | server/internal/loop/lifecycle_projector.go:131-135 | applied at any time, an event leaves the loop unchanged exactly if the guard stops it |
| LoopReplay.DelayedReplayTakesEffect | server/internal/loop/lifecycle_projector.go:131-135 | a rejection replayed after the fix passes the guard and opens another round |
| LoopRecovery.ChecksSeeEveryLiveItem | server/internal/loop/coordinator.go:263-285 | the two checks by task type see a live item if and only if the loop has one |
| LoopRecovery.ResumeGuardIff | server/internal/handler/loop.go:270-274 | a loop resumed from whatever status runs with live work exactly if restoreOne's two checks, made before, see some |
| LoopRecovery.RestoreLeavesLiveLoops | server/internal/loop/coordinator.go:244-285 | loops that do not run or have live work are left alone |
| LoopRecovery.RestoreRearms | server/internal/loop/coordinator.go:243-326 | after an error-free restore a running loop has exactly one live item and an unchanged row |
| LoopRecovery.RestoreOutcomes | server/internal/loop/coordinator.go:253-321 | when a restore fails a loop for its configuration, for its age, or re-arms it, or reports an error, each way round and by the columns of the row |
| LoopRecovery.SecondRestoreIsNoop | server/internal/loop/coordinator.go:243-326 | a second restore of any loop, with any lookup and clock, changes nothing |
| LoopRecovery.RestoreSurvivesCrashAfterInsert | server/internal/loop/coordinator.go:411-433 | in any loop whose row shows no failure while it runs, as all do, a crash between item and row write leaves what the full restore would have, and the next restore changes nothing |
| LoopServer.ActiveLoopsExact | server/pkg/db/queries/loops.sql:55-61 | the active loops are exactly the running and paused ones, each once |
| LoopServer.StepIsSteady | server/cmd/server/loop_coordinator.go:22-31 | every step in every phase, with any operator write, keeps ids and order exact, running rows clean and what startup has learned |
| LoopServer.RunIsSteady | server/cmd/server/loop_coordinator.go:22-31 | so that holds in every state of every run |
| LoopServer.StepKeepsInv | server/cmd/server/loop_coordinator.go:22-31 | every step in every phase keeps the server invariant of the mode |
| LoopServer.RunKeepsInv | server/cmd/server/loop_coordinator.go:22-31 | the invariant holds in every state of every run with guarded writes, at either strength |
| LoopServer.EnvironmentKeepsBoot | server/internal/loop/coordinator.go:263-285 | items that end or are lost between two restore queries do not invalidate what the queries established |
| LoopServer.DecideRestoreKeeps | server/internal/loop/coordinator.go:287-322 | the insert half of a re-arm, or a failure, keeps the invariant |
| LoopServer.WriteRestoredRowKeeps | server/internal/loop/coordinator.go:423-431 | the row half of a re-arm changes no loop |
| LoopCluster.CommitIsProjection | server/internal/loop/lifecycle_projector.go:93-109 | the commit of an event without a receipt publishes exactly its atomic projection |
| LoopCluster.StaleCommitIff | server/pkg/db/queries/lifecycle_outbox.sql:57-75 | the commit of an event receipted after the claim's snapshot changes nothing exactly if the guard stopped it when the row was locked |
| LoopCluster.VisibleWithReceiptOnly | server/internal/loop/lifecycle_projector.go:73-110 | before the commit nothing changes for anyone; the commit shows the loop's change and the receipt together, or, for a late claim, a change exactly if the guard let it pass |
| LoopCluster.StepRefines | server/internal/loop/lifecycle_projector.go:76-110 | each step of any worker, except the commit of a late claim past the guard, is no step or one step of the sequential server |
| LoopCluster.StaleCommitIsNoStep | server/pkg/db/queries/lifecycle_outbox.sql:57-75 | such a commit is neither: it differs from the state before and from the outcome of every step the server could take |
| LoopCluster.RefinesIff | server/internal/loop/lifecycle_projector.go:73-110 | the sequential server can follow a run of any workers, rollbacks and crashes step by step exactly if no late commit in it is past the guard |
| LoopCluster.NoStaleEffectSuffices | server/internal/loop/lifecycle_projector.go:131-135 | none is if no late claim passes the guard when its worker locks the row |
| LoopCluster.ClusterRefinesServer | server/internal/loop/lifecycle_projector.go:73-110 | such a run maps to one run of the sequential server with atomic projections; the other late commits stutter |
| LoopCluster.ReceiptStaysForever | server/internal/loop/lifecycle_projector.go:103-105 | a receipt, once committed, is never undone, late claims or not |
| LoopCluster.SecondCommitIff | server/internal/loop/lifecycle_projector.go:73-75 | in any run, a second commit of an event takes effect exactly if its loop was running and back at the event's stage when the row was locked |
| LoopCluster.WorkerMayGoOn | server/internal/loop/lifecycle_projector.go:76-110 | in every state the invariant allows, exactly when a worker gets the event, the row, and can commit; it may be rolled back at any point |
| LoopCluster.ServerMayGoOn | server/internal/loop/lifecycle_projector.go:76-110 | the rest of the server waits only for a row that a worker holds, and with loading the loops until no worker is left |
| LoopCluster.TransactionsEnd | server/internal/loop/lifecycle_projector.go:84-109 | a rollback leaves nothing, a commit changes one loop only, a crash ends all transactions and changes no loop |
| LoopCluster.NoEventTakesEffectTwice | server/internal/loop/lifecycle_projector.go:73-75 | of all commits of one event in a run the sequential server can follow only the first changes anything |
| LoopClusterFlight.SingleFlightIff | server/internal/loop/lifecycle_projector.go:73-75 | with any workers, rollbacks, crashes and late claims and flight-safe operator writes, single flight holds throughout a run exactly if no late claim in it opens work beside live work |
| LoopClusterFlight.FlightUntilSecondItem | server/internal/loop/lifecycle_projector.go:131-135 | up to the first such commit every state has the sequential server's invariant |
| LoopClusterFlight.SingleFlightInCluster | server/internal/loop/lifecycle_projector.go:73-75 | until then each loop has at most one live item, the newest |
| LoopClusterFlight.GuardedClaimsKeepFlight | server/internal/loop/lifecycle_projector.go:131-135 | there is no such commit in a run the sequential server can follow |
| LoopClusterFlight.RecoveryInCluster | server/cmd/server/loop_coordinator.go:22-31 | recovery reaches every loaded loop in every run of the cluster, whatever operators write and however late a claim |
| LoopClusterFlight.RecoveryIsCompleteInCluster | server/cmd/server/loop_coordinator.go:22-31 | and gives it exactly one live item in those with flight-safe writes, until a late claim opens work beside live work |
| LoopLateClaims.LateClaimBreaksSingleFlight | server/internal/loop/lifecycle_projector.go:131-135 | wherever a late claim passes the guard of a loop with live work, the worker can commit, and the loop then has a second live item exactly if the event's decision opens new work |
| LoopLateClaims.LateClaimRun | server/pkg/db/queries/lifecycle_outbox.sql:57-75 | such a run from a fresh database with sound operator writes |
| LoopLateClaims.ServerRunInCluster | server/internal/loop/lifecycle_projector.go:76-110 | conversely the cluster can do whatever the sequential server does, at any strength of the operators' guard, each projection statement by statement |
| LoopStores.LoopStore.UpdateStatus | server/internal/loop/store.go:90-108 | replaces every state-machine column of one row, a nil stage by NULL and a nil iteration by 0, keeps only started_at once set, touches no other loop |
| LoopStores.LoopStore.SetPR | server/internal/loop/store.go:113-124 | sets the three PR columns: the URL and the branch as given, or NULL if empty; a number, the given one if it fits 32 bits and always congruent to it |
| Base.ToInt32Truncates | server/internal/loop/store.go:116 | truncation to 32 bits keeps the value modulo 2^32, and the value itself if it fits |
| LoopStores.LoopStore.LoadActive | server/internal/loop/store.go:169-183 | returns the first 1000 active loops in creation order with their rows |
| LoopCoordinators.Coordinator.StartLoop | server/internal/loop/coordinator.go:99-157 | succeeds exactly if no statement fails, the loop is pending and its planning agent usable, with the atomic effect; any failure leaves the store as it was |
| LoopCoordinators.Coordinator.CreateTaskForStageWithAgent | server/internal/loop/coordinator.go:411-433 | the two statements and the state each database failure leaves behind |
| LoopCoordinators.Coordinator.FailInvalidConfiguration | server/internal/loop/coordinator.go:435-450 | the row write that keeps stage and iteration, or a failure that changes nothing |
| LoopCoordinators.Coordinator.ApplyDecision | server/internal/loop/coordinator.go:329-365 | performs exactly the writes of the decision, or fails, and exactly when (`DecisionFaults`) |
| LoopCoordinators.DecisionFaults | server/internal/loop/coordinator.go:329-365 | a decision fails exactly if a row, a PR or an item it stands for cannot be written, or a well-formed agent id could not be looked up |
| LoopCoordinators.CreatedInOrder | server/internal/loop/coordinator.go:411-433 | the row is written only after the item, and the item stays if the row write fails |
| LoopCoordinators.MisconfiguredKeepsPlace | server/internal/loop/coordinator.go:435-450 | failing for bad configuration keeps stage and iteration |
| LoopCoordinators.Coordinator.RestoreOne | server/internal/loop/coordinator.go:243-326 | has the effect of the restore specification when any of its statements fails, and reports an error exactly then |
| LoopCoordinators.RestoreFaults | server/internal/loop/coordinator.go:243-326 | for every loop and every failing statement: what the restore leaves and whether it reports an error |
| LoopCoordinators.Coordinator.RestoreOnStartup | server/internal/loop/coordinator.go:225-239 | restores exactly the loaded loops once each, none if the load fails; a failing loop stops no other |
| LoopCoordinators.Coordinator.TransitionLoopStatus | server/internal/handler/loop.go:284-321 | writes the target status with the stage and iteration it read, exactly if both statements succeed and the loop is of the caller's workspace |
| LifecycleProjectors.LifecycleProjector.ClaimEvent | server/pkg/db/queries/lifecycle_outbox.sql:57-75 | returns the oldest unreceipted event that is due, or none if there is none |
| LifecycleProjectors.LifecycleProjector.Apply | server/internal/loop/lifecycle_projector.go:112-176 | fails exactly if the row cannot be read, the event stands for no writes, or one of them fails; otherwise performs exactly those |
| LifecycleProjectors.LifecycleProjector.ProcessNext | server/internal/loop/lifecycle_projector.go:76-110 | which event is claimed, exactly when it fails and when the event is set aside; success is one atomic projection of the oldest due event, any failure leaves the store as it was |
| LifecycleProjectors.LifecycleProjector.Drain | server/internal/loop/lifecycle_projector.go:60-71 | terminates, projects pairwise different events one after the other, each the oldest due one, and stops only when none is due or the next attempt must fail |
| LifecycleProjectors.ProjectionReceipts | server/internal/loop/lifecycle_projector.go:103-105 | a projection removes exactly its event from the unreceipted ones |
| LifecycleProjectors.ChainKeeps | server/internal/loop/lifecycle_projector.go:60-71 | a drain keeps every loop sound |
| LifecycleProjectors.RunLoopCoordinator | server/cmd/server/loop_coordinator.go:22-31 | drains, until nothing is unreceipted or an attempt must fail, then restores: from any sound store, every loaded loop that runs has exactly one live item and its drained row, unless its restore reported an error before it was given one; a failed load changes nothing |
| JsonScanner.SpanCloses | server/internal/loop/coordinator_helpers.go:80-110 | the scanner stops exactly at the end of every balanced span, whatever follows |
| JsonScanner.ClosesAtSpan | server/internal/loop/coordinator_helpers.go:80-110 | wherever the scanner stops, it has passed over a balanced span |
| JsonScanner.CutIsUnique | server/internal/loop/coordinator_helpers.go:72-113 | there is one balanced span from the first brace, so the cut is the shortest |
| JsonScanner.FindObject | server/internal/loop/coordinator_helpers.go:75-113 | cuts out the balanced span at the first brace, or reports that there is none |
| JsonScanner.TransparentJson | server/internal/loop/coordinator_helpers.go:84-110 | the scanner passes over every printed JSON value unchanged, at any depth |
| JsonScanner.ObjectIsSpan | server/internal/loop/coordinator_helpers.go:72-74 | every printed JSON object is a balanced span |
| JsonScanner.ExtractionUndoesPrinting | server/internal/loop/coordinator_helpers.go:72-113 | for every JSON object, prefix without a brace and suffix, exactly the printed object is cut out |
| JsonReader.PrintedIsRead | server/internal/loop/coordinator_helpers.go:68-71 | the printer is undone by a reader of JSON texts: whatever follows, it takes exactly the printed value off the front |
| JsonReader.PrintingIsUnique | server/internal/loop/coordinator_helpers.go:68-71 | no two JSON texts are printed alike |
| JsonReader.ExtractedIsRead | server/internal/loop/coordinator_helpers.go:72-117 | what is cut out of the text around a printed object reads back as that object |
| JsonScanner.ParseTaskResult | server/internal/loop/coordinator_helpers.go:64-118 | empty input gives none; the whole text is decoded if it can be, else the cut |
| TaskMessages.CutKeepsValidity | server/internal/daemon/task_messages.go:21-23 | valid UTF-8 cut at a rune start gives two valid parts |
| TaskMessages.RuneStartNearby | server/internal/daemon/task_messages.go:21-23 | a rune start is at most three bytes before any position |
| TaskMessages.ChunksJoin | server/internal/daemon/task_messages.go:18-33 | for any text and limit the chunks join to the text and are non-empty and within the limit |
| TaskMessages.ChunksAreGreedy | server/internal/daemon/task_messages.go:18-33 | for any text and limit the chunks are the one split in which every chunk but the last is cut as late as a rune starts, or at the limit if none does |
| Utf8.ValidIff | server/internal/daemon/task_messages.go:13 | the texts taken for valid are exactly the encodings of sequences of Unicode scalar values |
| Utf8.EncodingIsUnique | server/internal/daemon/task_messages.go:13 | each of one sequence only |
| TaskMessages.FirstChunkIsSound | server/internal/daemon/task_messages.go:20-28 | each cut of valid text loses at most three bytes of the limit and leaves both sides valid |
| TaskMessages.ChunksAreSound | server/internal/daemon/task_messages.go:10-34 | for valid text and a limit of at least 4, all chunks are valid and all but the last within three bytes of the limit |
| TaskMessages.SplitTaskMessageContent | server/internal/daemon/task_messages.go:12-34 | the nested loops terminate and compute those chunks |
| TaskOutput.StepKeepsInv | server/internal/daemon/daemon.go:992-1128 | every chunk append, critical section and lock-free numbering by reader and flusher keeps the numbering, the order per kind, the bounds and the contents |
| TaskOutput.ContentInNumberOrder | server/internal/daemon/daemon.go:1000-1009 | reading contents by number equals reading them in the order appended |
| TaskOutput.CountNumbered | server/internal/daemon/daemon.go:1002 | distinct numbers that fill 1..n are exactly n messages |
| TaskOutput.OutputIsConserved | server/internal/daemon/daemon.go:992-1128 | in every interleaving, tool numbers taken inside a flush included, after the final flush: numbers 1..n each once in one batch and growing within a kind, nothing pending, one tool message for every tool step, in order and as it is to be reported, and per kind, read by number, exactly what the reader's steps brought if that was valid, in contents of 1 to 65536 valid bytes |
| TaskOutput.ReceivedIsIncoming | server/internal/daemon/daemon.go:1105-1123 | in every state what has been received of a kind is what the steps so far brought, in order |
| TaskOutput.ToolsAreReported | server/internal/daemon/daemon.go:1067-1104 | every use and result the reader takes becomes one message: kind, tool and input or output as it came, the output cut to 8192 bytes |
| TaskOutput.LockExcludes | server/internal/daemon/daemon.go:1011-1028 | while one side holds the lock the other only takes numbers |
| TaskOutput.WhoMayGoOn | server/internal/daemon/daemon.go:992-1128 | in every reachable state exactly which steps reader and flusher can take; a section under way has always one next step |
| TaskOutput.ToolNumberInsideFlush | server/internal/daemon/daemon.go:1075-1083 | a flush may hand off the numbers 1 and 3 while 2 waits for the next batch |
| TaskOutput.AfterKeepsInv | server/internal/daemon/daemon.go:992-1128 | what the methods below do, told as steps, keeps the invariant |
| TaskOutput.ResultAsReported | server/internal/daemon/daemon.go:1084-1104 | in every run, a result that names no tool is reported under the latest use with its call id, with the first 8192 bytes of its output |
| TaskOutput.ReportTaskMessages | server/internal/daemon/client.go:116-127 | posts a batch in order in requests of 100 messages, the last one shorter, up to the first post that fails, and fails exactly then |
| TaskOutput.MessagePump.AppendContentLocked | server/internal/daemon/daemon.go:1000-1009 | appends the chunks in order under growing numbers, between any two of which the reader may take one, as steps of the system |
| TaskOutput.MessagePump.FlushOnce | server/internal/daemon/daemon.go:1011-1034 | hands over the batch, then all thinking, then all text, whatever numbers are taken meanwhile, as steps of the system |
| TaskOutput.MessagePump.OnToolUse | server/internal/daemon/daemon.go:1067-1083 | takes the next number and remembers the tool of the call id |
| TaskOutput.MessagePump.OnToolResult | server/internal/daemon/daemon.go:1084-1104 | takes the next number, cuts the output, resolves the tool |
| TaskOutput.MessagePump.AppendHeld | server/internal/daemon/daemon.go:1076-1083 | appends the numbered message, possibly after a flush came between |
| TaskOutput.MessagePump.OnText | server/internal/daemon/daemon.go:1111-1117 | adds to the pending text only, as the step of which `ReceivedIsIncoming` and `OutputIsConserved` say what comes of it |
| TaskOutput.MessagePump.OnThinking | server/internal/daemon/daemon.go:1105-1110 | adds to the pending thinking only |
| TaskOutput.MessagePump.OnError | server/internal/daemon/daemon.go:1118-1123 | appends error chunks at once, under the reader's own lock |
| RealtimeHub.StepKeepsInv | server/internal/realtime/hub.go:97-258 | every hub step, with removals run at any later time, keeps the room discipline |
| RealtimeHub.CloseDiscipline | server/internal/realtime/hub.go:97-202 | in every run: clients only in their workspace's room, no empty room, open channels in rooms, no channel closed twice, none left open outside |
| RealtimeHub.BroadcastsHitOpenChannels | server/internal/realtime/hub.go:133-182 | both broadcasts send to open channels only |
| RealtimeHub.CollectedChannelMayClose | server/internal/realtime/hub.go:229-238 | a client collected by SendToUser may be closed before the send |
| RealtimeHub.UnlockedSendIff | server/internal/realtime/hub.go:231-238 | an unlocked send, SendToUser's or the reply to a ping, hits an open channel exactly if the client is still in its room |
| RealtimeHub.NewClientIsReached | server/internal/realtime/hub.go:315-317 | a client is reached by its workspace, its user and global sends as soon as it is registered |
| RealtimeHub.SubscribedIff | server/internal/realtime/hub.go:57-69 | in every run a client is subscribed to a workspace exactly if it joined it, by registering for it or subscribing, and has not unsubscribed since |
| RealtimeHub.WorkspaceBroadcastReaches | server/internal/realtime/hub.go:168-182 | so a workspace broadcast goes to exactly the workspace's own open clients that have not unsubscribed since they last joined |
| RealtimeHub.ClientsCanAct | server/internal/realtime/hub.go:352-367 | in every reachable state a client that registered can subscribe, unsubscribe and leave, and a scheduled removal can run |
| RealtimeHub.ClosesIff | server/internal/realtime/hub.go:114-131 | a channel is closed by its client's leaving or by a removal that lists it, and by nothing else |
| RealtimeHub.WaitsIff | server/internal/realtime/hub.go:185-201 | a removal waits exactly from the send that found clients slow until it runs |
| RealtimeHub.FoundAtHome | server/internal/realtime/hub.go:168-182 | only open clients that a send went to are noted as slow, each with its own workspace |
| RealtimeHub.SlowIsDropped | server/internal/realtime/hub.go:185-201 | a client noted as slow is out of every room, its channel closed, once that removal has run |
| RealtimeHub.RemovalIsExact | server/internal/realtime/hub.go:185-201 | a removal takes exactly the listed clients out of the listed rooms and closes those it took |
| RealtimeHub.Hub.RegisterClient | server/internal/realtime/hub.go:100-112 | puts the client in its workspace's room |
| RealtimeHub.Hub.UnregisterClient | server/internal/realtime/hub.go:114-131 | takes the client out and closes its channel at most once |
| RealtimeHub.Hub.DropSlow | server/internal/realtime/hub.go:186-200 | runs a delayed removal |
| RealtimeHub.Hub.BroadcastToWorkspace | server/internal/realtime/hub.go:168-182 | offers once to exactly the subscribed clients of the workspace, and schedules the removal of exactly those of them that were full |
| RealtimeHub.Hub.SendToUser | server/internal/realtime/hub.go:207-238 | offers once to exactly the user's clients outside the excluded room, and schedules the removal of the full ones |
| RealtimeHub.Hub.Broadcast | server/internal/realtime/hub.go:133-146 | offers once to every client, and schedules the removal of the full ones |
| EventRouting.Publish | server/cmd/server/listeners.go:18-124 | both listeners together offer an event to nobody twice, whatever happens to the hub in between; each offers it to exactly its targets at its time, and leaves the hub but for the removals it scheduled |
| EventRouting.NoEventOfferedTwice | server/cmd/server/listeners.go:70-72 | after any hub steps between the listeners, no connection is a target of both |
| EventRouting.ClientsStay | server/internal/realtime/hub.go:307-314 | no sequence of hub steps changes a client's user or workspace |
| EventRouting.MemberAddedReaches | server/cmd/server/listeners.go:73-119 | member:added reaches exactly the invited user's connections elsewhere, as of the first listener, and the workspace's subscribers, as of the second, whatever happens in between |
| EventRouting.MemberAddedAnywhere | server/cmd/server/listeners.go:73-119 | a member:added that names no workspace reaches exactly the invited user's open connections |
| EventRouting.PersonalReachesRecipient | server/cmd/server/listeners.go:40-68 | inbox events reach exactly the recipient's open connections, and nobody if they name none |
| EventRouting.OrdinaryReachesWorkspace | server/cmd/server/listeners.go:98-123 | other events, and member:added without a member, reach exactly the workspace's subscribers; without one, daemon events everyone and the rest nobody |
| PollLoop.StepKeepsInv | server/internal/daemon/daemon.go:678-759 | every step of the poll loop and of finishing handlers keeps the slot ledger |
| PollLoop.SlotsAreConserved | server/internal/daemon/daemon.go:678-759 | slots in use are the running handlers plus a claim under way, never over the limit; each slot taken is held by one of them or was given back exactly once |
| PollLoop.SlotsAreTasks | server/internal/daemon/daemon.go:709-741 | told by the steps: slots in use are the tasks claimed and not finished yet, and the claim under way |
| PollLoop.RotationIsSound | server/internal/daemon/daemon.go:721 | a pass asks no runtime twice, and all of them if it goes all the way |
| PollLoop.PassStartsAtOffset | server/internal/daemon/daemon.go:721-737 | in every run a pass asks the runtimes from the offset on; the next starts just behind the runtime that got a task, or one place further on if none did |
| PollLoop.PassEndsIff | server/internal/daemon/daemon.go:710-743 | a pass ends exactly when a runtime has a task, no slot is free, or all have been asked; a failed or empty claim goes on to the next runtime |
| PollLoop.LoopGoesOn | server/internal/daemon/daemon.go:684-759 | the loop has always a next move, and only one but for the outcome of a claim |
| PollLoop.Poller.Pass | server/internal/daemon/daemon.go:708-757 | the loop of one pass: whom it asks, in what order, when it stops, the next offset, and the handler it starts |
| RuntimeIndex.AddOnStale | server/internal/daemon/daemon.go:406-411 | watching one more workspace leaves exactly those stale runtimes in the index that it does not name |
| RuntimeIndex.DropOnStale | server/internal/daemon/daemon.go:427-438 | dropping one leaves the stale runtimes as they are |
| RuntimeIndex.AddToIndexValues | server/internal/daemon/daemon.go:406-411 | an index entry is the very runtime the answer names last under its id, or what it was if the answer does not name it |
| RuntimeIndex.LoadedValues | server/internal/daemon/daemon.go:180-185 | after the initial load each entry is the runtime as the last successful answer that names it has it |
| RuntimeIndex.AddKeeps | server/internal/daemon/daemon.go:406-411 | watching one more workspace keeps index and watched runtimes in agreement |
| RuntimeIndex.DropKeeps | server/internal/daemon/daemon.go:427-438 | so does dropping one |
| RuntimeIndex.AddedTwiceAgreesIff | server/internal/daemon/daemon.go:180-185 | registering a workspace twice keeps agreement exactly if the second response repeats every id of the first |
| RuntimeIndex.LoadAgreesIff | server/internal/daemon/daemon.go:158-202 | after the initial load, whatever the config repeats, index and watched runtimes agree exactly if each workspace's last answer has all ids of its earlier ones |
| RuntimeIndex.UniqueLoadAgrees | server/internal/daemon/daemon.go:158-202 | which holds if the config names each workspace once |
| RuntimeIndex.Daemon.LoadWatchedWorkspaces | server/internal/daemon/daemon.go:158-202 | registers every configured workspace in turn, repeated ones too; fails exactly if none succeeds; each indexed runtime is as the last answer naming it has it |
| RuntimeIndex.Daemon.ReloadWorkspaces | server/internal/daemon/daemon.go:372-440 | watches exactly the configured workspaces already watched or now registered, in agreement with the index if it was, and otherwise with exactly the stale runtimes left that no new registration names; entries of newly registered runtimes are as answered, all others unchanged |
| RuntimeIndex.WatchConfig | server/internal/daemon/daemon.go:372-440 | after the initial load and any reloads with any failures, index and watched runtimes agree exactly if each runtime the load left stale was registered again for a workspace not watched at the time; without a failure in the last reload the watched set is the config; every entry is the runtime as the last registration that named it returned it |
| LogTail.SlotKept | server/cmd/agentra/daemon_logs.go:93 | no line among the next lines−1 overwrites a slot |
| LogTail.PrintedLine | server/cmd/agentra/daemon_logs.go:100-107 | the i-th slot printed holds the i-th line of the tail |
| LogTail.WriteLastLogLines | server/cmd/agentra/daemon_logs.go:87-112 | prints exactly the last min(count, lines) lines in order; a read error prints nothing, a write error stops at it |
| OtpCode.BucketSize | server/internal/otpcode/otpcode.go:8-11 | for any modulus and limit, how many draws reduce to each residue |
| OtpCode.UniformIffMultiple | server/internal/otpcode/otpcode.go:5-11 | reducing is unbiased exactly if the modulus divides the limit |
| OtpCode.WindowIsLargest | server/internal/otpcode/otpcode.go:21-24 | the accepted window is unbiased and no larger one within 32 bits is |
| OtpCode.SixDigits | server/internal/otpcode/otpcode.go:38 | printing gives six digits exactly below a million, and reads back as the number |
| OtpCode.EveryCodeIsPrinted | server/internal/otpcode/otpcode.go:38 | every six-digit string is printed for its own value |
| OtpCode.BytesRoundTrip | server/internal/otpcode/otpcode.go:36 | four bytes and their big-endian number determine each other |
| OtpCode.CodesAreUnbiased | server/internal/otpcode/otpcode.go:24-39 | each of the million codes is the answer to exactly 4294 of the accepted 4-byte draws, and no other string is an answer |
| OtpCode.Generate | server/internal/otpcode/otpcode.go:29-51 | answers with the first accepted of ten draws, fails on the first failed read, else uses the fallback; always six digits |

## Left out

- LoopTheorems.SingleFlightAlways: for runs whose operator writes pass the guard of `FlightWriteIff`; without it single flight fails, see `StaleStageBreaksSingleFlight`. The results for mode `Guarded` are in the same way conditional on `SoundWriteIff`.
- LoopAnyRun.WorkIsBounded: for runs whose operator writes pass the guard of `BudgetWriteIff`; without it the bound fails, see `OverBudgetBreaksWorkBound`.
- LoopStaleWrites.OverBudgetBreaksWorkBound: if some stage has no well-formed agent id the loop may fail before it overspends, and no claim is made; nor if the stage named has an unprojected event of an unknown version, which blocks its restore.
- LoopStaleWrites.StaleStageBreaksSingleFlight: if the stage named has no well-formed agent id, the restart fails the loop instead of giving it a second item, and no claim is made.
- LoopTheorems.RecoveryReachesEveryLoop: not about loops beyond the query's LIMIT of 1000.
- LoopTheorems.RecoveryIsComplete: for runs whose operator writes pass the guard of `FlightWriteIff`; without it a recovered loop may have a second live item, see `RacingPauseBreaksSingleFlight`.
- LoopCluster.ClusterRefinesServer: for runs in which no late commit is past the guard; otherwise it fails, see `RefinesIff`. A claim chooses its event when it takes its snapshot and is not modelled as skipping from one locked row to the next.
- LifecycleProjectors.LifecycleProjector.ProcessNext: run without interruption, so its claim is never late; `LoopCluster` has the interleavings.
- JsonScanner.ParseTaskResult: field decoding (`json.Unmarshal`) is a parameter, and a result partly filled by the failed first decoding is not carried into the second.
- TaskMessages.SplitTaskMessageContent: starts after `strings.ToValidUTF8`, whose contract here is that it yields valid text and leaves valid text alone.
- TaskOutput.OutputIsConserved: says nothing about the order in which concurrent posts reach the server, nor about posts that fail; tool outputs are cut at 8192 bytes, which may split a rune; the counter does not wrap at 32 bits.
- RealtimeHub.BroadcastsHitOpenChannels: not claimed for the two sends made without the lock, see `UnlockedSendIff`. Whether a channel is full is a parameter.
- PollLoop.SlotsAreConserved: no claim of fairness; the runtime list comes from a Go map in any order and the offset also moves when all slots are taken.
- RuntimeIndex.WatchConfig: runtime ids of different workspaces differ, as the server hands them out. Concurrent readers of the maps are not modelled.
- OtpCode.Generate: quality of the random source and the inside of `rand.Int` (a number below a million, or an error).
- Retry times, attempt counts and dead-lettering of failed projections, except that an event can be set aside; a dead-lettered event still counts as pending in the restore check, as in the code.
- Several server processes and rolling deploys: one server starts, drains, restores and serves; its projector may have any number of workers.
- Deleting loops, issues or agents, and rows with unknown stages or task types, which database constraints exclude.
- Classifying error messages: a failed run carries an arbitrary reason. Timeouts are a flag given to the restore.
- The prompt builder, which refuses a review at iteration 0: so no claim that a loop reaches done; agents may do anything.
- Following a growing log file, repository caches, heartbeats, session checkpoints and usage reports.
- HTTP, SQL, authentication, the command line and the web client: these are input and output.
