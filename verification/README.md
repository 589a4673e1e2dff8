# Models of the hard parts of the learning platform's backend

The project states and proves, in Dafny, what five components of the backend promise. Each component
that changes state is a class whose methods change it step by step; beside it stand pure functions
that say what one transaction or one computation means, and lemmas about every sequence of them.
External calls (git, docker, restic, PostgreSQL, the gateway, the clock) are nondeterministic: they
may succeed, fail without effect, or fail after taking effect. What must hold in any case is stated
of all of these outcomes; what must come about when nothing goes wrong is stated under `calm`, a
field of the three classes that, while it is set, makes every foreign action succeed, every write
land and every commit be reported.

- **Update agent** (`UpdateProtocol`, `UpdateAgent`). The write-ahead journalled update and the
  reconciliation at start-up. `Agent.trace` records the world after every write, so a crash is a cut
  of the trace; `Live` runs any mix of checks, updates, restarts and crashes. Crash transparency of
  a merged update is false as the code stands: if a restart finds the checkout dirty or off its
  branch after the final status was saved but before the journal was removed, the previous version
  is lost (`ParkingLosesThePreviousVersion`). `CrashTransparency` states exactly when it holds, and
  `UpdateThroughCrash` states it of the agent, over the worlds it recorded. Every change of the
  status file is part of the protocol: a success is only ever reported of the commit that is checked
  out (`RunsAreHonest`).
- **AI runs** (`AiRuns`, `AiRunsTheory`, `AiRunLaws`, `AiStore`, `AiRunner`, `AiStream`,
  `AiDelivery`, `AiPricing`, `AiContext`). Admission, leasing, streaming and settlement as atomic
  transactions over runs, events, ledger and answers; the runner's buffer with arbitrary
  interference; the subscriber's polling windows and reconnects, joined with the runner so that what
  is delivered is the stored answer; the 64-bit cost arithmetic; context selection and the
  reservation made from it. `AiRunLaws` says what each transaction means in sums over plain rows,
  exact conditions and leases.
- **Backup runs** (`BackupModel`, `BackupRuns`, `BackupLaws`, `BackupStore`, `BackupState`,
  `BackupWorkflow`). The lease-fenced store over whole histories, what its transactions mean for a
  lease holder, and the commands that keep a local state file beside the durable row. A process may
  die inside any call of a command; commits may be lost or go unreported. Times carry nanoseconds in
  memory and microseconds in the database, which is why the evidence used for artifact rows is
  always the one read back from the row. From any state that interrupted commands can leave, the
  backup script's commands end the run well once nothing more goes wrong (`CarryOn`). That a
  succeeded run has the artifacts of its remote copy is false of the commands alone: `finish` trusts
  the file, and a `sync` cut between saving its outcome and adding the rows suffices
  (`FinishAfterCutSync`). `Finish` adds and removes no artifact, so a finished run has its remote
  artifacts exactly when it had them before.
- **Retention** (`Retention`, `RetentionPlan`, `RetentionDeletes`). The map-and-loop selector
  against a declarative policy, the cross-check of database rows, the delete plan, batched deletion,
  and a whole run from points and rows to what is left in the repository.
- **Two language kernels** (`Audit`, `Sse`, with `Sorting`). The audit rule table compiled to a
  parameterised CASE expression; the server-sent event reader of sections 9.2.5 and 9.2.6 of the
  WHATWG HTML Living Standard, following the code where it differs (a pending event is dispatched at
  the end of input, a lone CR ends no line).

`Common` holds the option type. `dafny verify dfyconfig.toml` checks everything.

## Model

| member | source | states |
|---|---|---|
| `UpdateProtocol.RunsAreSafe` | cmd/update-agent/agent.go:192-245 | in every world of every run, images and HEAD agree when no journal is on disk; they disagree only under a valid journal naming both commits and all four images; a journal on disk always blocks a second operation |
| `UpdateProtocol.HeadsOnlyAdvance` | cmd/update-agent/agent.go:645-652 | over any run HEAD only moves to strict descendants that are trusted and on the branch; each single move has no migration or control-plane diff |
| `UpdateProtocol.HeadNeverReturns` | cmd/update-agent/agent.go:645-652 | a commit HEAD has left is never checked out again |
| `UpdateProtocol.RunsAreHonest` | cmd/update-agent/agent.go:653-681 | no world of any run reports success of a commit that is not checked out |
| `UpdateProtocol.StepKeepsSafe` | cmd/update-agent/agent.go:588-681 | every permitted disk write keeps the safety invariant |
| `UpdateAgent.InspectOffersExactlyApproved` | cmd/update-agent/agent.go:363-453 | an update is offered if and only if the release is a trusted strict descendant on the fetched tip without migration or control-plane change, on a clean checkout of the branch; a release that is checked out or behind is current, everything else blocked; the status names what was inspected |
| `UpdateAgent.CrashTransparency` | cmd/update-agent/agent.go:221-244 | after any interrupted restarts, one finished reconciliation reports what an uninterrupted update reports if and only if no restart parked the update after its final status was saved |
| `UpdateAgent.ParkingLosesThePreviousVersion` | cmd/update-agent/agent.go:200-203 | the concrete failing sequence: saved, then parked by a dirty checkout, then finished reports the new version as the previous one |
| `UpdateAgent.ForgottenStays` | cmd/update-agent/agent.go:221-244 | once the old version is gone from the status file no later restart restores it |
| `UpdateAgent.FinishIsFinished` | cmd/update-agent/agent.go:653-681 | the status an uninterrupted update writes is the finished one |
| `UpdateAgent.StatusesShow` | cmd/update-agent/agent.go:204-220 | what each change of status shows: a failure, a block and a restart keep the release and the commit; a roll-back is failed, on the old commit, with the release on offer |
| `UpdateAgent.Agent.Transition` | cmd/update-agent/agent.go:265-290 | memory follows the status file unless the save reports an error, which may still have landed |
| `UpdateAgent.Agent.SaveOperation` | cmd/update-agent/agent.go:724-738 | a failed journal save may have landed; the pending flag is set whenever the journal is on disk, and also when it cannot be read back |
| `UpdateAgent.Agent.RemoveOperation` | cmd/update-agent/agent.go:740-748 | the pending flag is cleared only when the removal succeeds, and only where images and HEAD agree |
| `UpdateAgent.Agent.FailBeforeSwitch` | cmd/update-agent/agent.go:750-754 | HEAD stays, every intermediate world refuses a second operation and shows the old or the failed status; undisturbed, the journal is gone |
| `UpdateAgent.Agent.RecoverOldRuntime` | cmd/update-agent/agent.go:756-776 | HEAD stays and the journal is retained when asked, in every intermediate world; undisturbed, the old images run and the status is failed, or blocked under the journal |
| `UpdateAgent.Agent.MergeIn` | cmd/update-agent/agent.go:632-652 | from healthy new containers, every world with a moved HEAD can be resumed to the finished update: the status is this update's, and a journal beside it is this operation's |
| `UpdateAgent.Agent.Conclude` | cmd/update-agent/agent.go:653-681 | after the merge nothing is undone and the final status is on disk when the journal is gone |
| `UpdateAgent.Agent.SwitchOver` | cmd/update-agent/agent.go:588-608 | the journal is durable before the switch is announced |
| `UpdateAgent.Agent.SwitchContainers` | cmd/update-agent/agent.go:623-631 | a failed switch or save goes back to the old images under the journal |
| `UpdateAgent.Agent.RunUpdate` | cmd/update-agent/agent.go:501-682 | whatever fails, the run stays safe, HEAD is unchanged or the approved candidate, and every world with a moved HEAD can be resumed to this update's end; undisturbed, an offered release ends with HEAD, images and the finished status, a current one with success, any other with failure |
| `UpdateAgent.Agent.Reserve` | cmd/update-agent/agent.go:473-495 | refuses, without any write, while an operation is pending or under way or a dirty checkout is not accepted; undisturbed, it succeeds otherwise |
| `UpdateAgent.Agent.Check` | cmd/update-agent/agent.go:292-312 | a check changes nothing but the status, shows the old, checking, failed or inspected status in every world, and writes nothing while another operation is under way; undisturbed, it publishes the inspected status with the previous version kept |
| `UpdateAgent.Agent.Apply` | cmd/update-agent/agent.go:463-471 | an update leaves HEAD or moves it to an approved commit, and writes nothing while another operation is under way or the checkout is known dirty; undisturbed, an offered release is reported as finished |
| `UpdateAgent.Agent.Start` | cmd/update-agent/agent.go:94-138 | a successful start on a clean checkout leaves no journal, agreeing images and HEAD, and the status of a rolled-back update (failed, old commit, release on offer) or of a finished one, by HEAD; a dirty checkout is blocked with everything kept; each world of a start after the merge is one restart step with at most one status write, each world of a roll-back shows the old or the rolled-back status |
| `UpdateAgent.Agent.Reconcile` | cmd/update-agent/agent.go:192-245 | rolls back or forward by HEAD and never moves HEAD; a success on a clean checkout ends without a journal, with agreeing images and HEAD and the rolled-back or finished status; undisturbed, it succeeds |
| `UpdateAgent.Agent.Live` | cmd/update-agent/agent.go:463-682 | any life of the agent with crashes anywhere keeps every world safe and HEAD strictly increasing |
| `UpdateAgent.Agent.ResumeAfterCrash` | cmd/update-agent/agent.go:192-245 | once the journal is gone the status is the finished one if and only if no recorded world since then was blocked with the new version already written; restarts on a clean checkout never record one |
| `UpdateAgent.Agent.UpdateThroughCrash` | cmd/update-agent/agent.go:501-682 | an update from its reservation on, a crash anywhere, any crashed restarts. Once HEAD has moved and the journal is gone, the reported commits and versions are those of an uninterrupted update if and only if no recorded world since the start was blocked with the new version already written, hence whenever every restart finds a clean checkout. Undisturbed, an offered update moves HEAD, and one undisturbed restart removes the journal |
| `UpdateAgent.MidwayStep` | cmd/update-agent/agent.go:192-245 | one restart, whatever it meets, keeps the status on the way to the finished one unless it blocks late |
| `UpdateAgent.MidwayEnd` | cmd/update-agent/agent.go:221-244 | one finished reconciliation later, a late block alone decides whether the previous version is reported |
| `UpdateAgent.Agent.Settle` | cmd/update-agent/agent.go:206-244 | switches to the images of the commit HEAD is on, writes the final status once, then removes the journal: after a roll-back failed, on the old commit, with the release on offer; after the merge the finished status; no intermediate world shows anything else |
| `AiRunsTheory.AllRunsKeepInv` | internal/aiqa/postgres_runner.go:388-505 | every sequence of transactions from empty tables keeps log, ledger, limits and single active run |
| `AiRunsTheory.QuotaIsConserved` | internal/aiqa/postgres_runner.go:587-604 | the ledger sum of a student and period is the sum over runs of the full reservation while active, of the tokens used, at most the reservation, once succeeded, nothing once failed or cancelled; it never exceeds the resolved limits |
| `AiRunsTheory.OnlyAdmissionRaises` | internal/aiqa/postgres_runtime.go:73-101 | no transaction but an admission raises what a student has used |
| `AiRunsTheory.DoKeepsLimits` | internal/aiqa/postgres_runtime.go:437-479 | with fixed limits no transaction takes any period past its limit |
| `AiRunsTheory.SettleAllUsed` | internal/aiqa/postgres_runner.go:587-604 | the rows written when a run ends change the ledger sum by charge minus reservation in its own day and month only |
| `AiRunsTheory.DoKeepsLog` | internal/aiqa/postgres_runner.go:388-435 | every transaction keeps the log numbered without gaps with its only closing event last |
| `AiRunsTheory.LogsAreOrdered` | internal/aiqa/postgres_runner.go:388-505 | after any history a run's log is exactly 1..last_sequence and its only terminal event is the last one and matches the status |
| `AiRunsTheory.HistoryEvolves` | internal/aiqa/postgres_runner.go:462-464 | terminal runs absorb, logs only grow, a run with a recorded cancel request never becomes succeeded |
| `AiRunsTheory.ClaimedAtMostOnce` | internal/aiqa/postgres_runner.go:60-90 | no run is claimed twice in any history |
| `AiRunsTheory.DoKeepsOneActive` | internal/aiqa/postgres_runtime.go:733-737 | at most one run of a student is queued or streaming |
| `AiRunsTheory.InsertedEvents` | internal/aiqa/postgres_runner.go:399-427 | a batch is accepted only as the direct continuation of the log and adds exactly its events |
| `AiRunLaws.LedgerBalances` | internal/aiqa/postgres_runner.go:587-604 | after any transactions the plain sums of a student's ledger rows are what the runs owe, in requests and tokens, and pass no limit |
| `AiRunLaws.ChargeMeans` | internal/aiqa/postgres_runner.go:466-474 | a succeeded run is charged input plus output, at most its reservation |
| `AiRunLaws.CompletionCharges` | internal/aiqa/postgres_runner.go:437-505 | completion stores answer and usage and replaces the reservation by the charge in the run's day and month only |
| `AiRunLaws.CompletionCondition` | internal/aiqa/postgres_runner.go:437-465 | exactly when a run can be completed |
| `AiRunLaws.BodyMeans` | internal/aiqa/service.go:284-284 | a body is valid when something is left after trimming, and not too much |
| `AiRunLaws.AdmissionCondition` | internal/aiqa/postgres_runtime.go:22-117 | exactly when a run is admitted: a free key, no other run under way, and the sums of day and month with the reservation within the student's or the global limits |
| `AiRunLaws.AdmissionReserves` | internal/aiqa/postgres_runtime.go:22-117 | an admitted run waits with its whole reservation, counted once for its day and once for its month |
| `AiRunLaws.LimitsMean` | internal/aiqa/postgres_runtime.go:437-479 | a student's own limit counts before the global one, and all four must be positive |
| `AiRunLaws.EndsMean` | internal/aiqa/postgres_runner.go:507-564 | who can fail, expire or rotate out which run, and the status, event and code it ends with; a run whose lease has not passed never expires |
| `AiRunLaws.StudentEndsMean` | internal/aiqa/postgres_runtime.go:293-361 | a student ends its own unfinished runs only; cancelling a streaming one leaves a request |
| `AiRunLaws.EndReleases` | internal/aiqa/postgres_runner.go:587-604 | ending a run without success gives back its whole reservation in its day and month only |
| `AiRunLaws.LeasesLast` | internal/aiqa/postgres_runner.go:368-386 | after a claim or a heartbeat nobody can expire the run before the time given, and anybody can after it |
| `AiRunLaws.LastEventTells` | internal/aiqa/postgres_runner.go:388-505 | after any history the last event of a finished run says how it ended |
| `AiRunLaws.AppendMeans` | internal/aiqa/postgres_runner.go:388-435 | an accepted batch is numbered right after the log, of deltas and usage within the size limit, and changes nothing else |
| `AiRunLaws.AppendAccepts` | internal/aiqa/postgres_runner.go:388-435 | every such batch under the lease is accepted |
| `AiStore.Store.ReserveQuota` | internal/aiqa/postgres_runtime.go:437-479 | the row loop allows a reservation exactly when day and month usage plus it stay within the resolved limits |
| `AiStore.Store.AdmitRun` | internal/aiqa/postgres_runtime.go:22-117 | admission is the admission transaction; every refusal leaves the tables unchanged |
| `AiStore.Store.InsertReserveRows` | internal/aiqa/postgres_runtime.go:565-577 | one reserve row for the day and one for the month |
| `AiStore.Store.SettleQuota` | internal/aiqa/postgres_runner.go:587-604 | the loop over both periods writes charge and release once each |
| `AiStore.Store.LeaseNext` | internal/aiqa/postgres_runner.go:30-100 | a success is the claim of a queued run with the current key; otherwise nothing changed and nothing is queued, or one run with a rotated key was failed |
| `AiStore.Store.Heartbeat` | internal/aiqa/postgres_runner.go:368-386 | lease loss and cancel requests are reported exactly when they hold |
| `AiStore.Store.AppendEvents` | internal/aiqa/postgres_runner.go:388-435 | events are stored exactly when the lease is held and the batch continues the log; lease loss, cancellation and a bad batch are told apart |
| `AiStore.Store.Complete` | internal/aiqa/postgres_runner.go:437-505 | done exactly when the lease is held without a cancel request and body and usage are valid; it stores answer and usage, and in the student's day and month the tokens used, at most those reserved, replace the reservation |
| `AiStore.Store.FailRun` | internal/aiqa/postgres_runner.go:507-564 | done exactly when the lease is held and the failure is well formed |
| `AiStore.Store.EndRun` | internal/aiqa/postgres_runtime.go:293-361 | a streaming run is only marked for cancellation, a queued one is closed and released, a run ended otherwise conflicts, another student's is not found |
| `AiStore.Store.ReconcileExpired` | internal/aiqa/postgres_runner.go:632-690 | a run is closed exactly when it streams and its lease has passed |
| `AiRunner.Execution.OnGatewayEvent` | internal/aiqa/runner.go:228-269 | logged text plus buffer stays equal to the answer, numbered right after the log; a delta adds its text, a usage event is remembered |
| `AiRunner.Execution.Flush` | internal/aiqa/runner.go:359-376 | a successful flush empties the buffer into the log; an uncertain one is remembered as an error; undisturbed, it succeeds under the lease and reports a cancel request |
| `AiRunner.Execution.Interfere` | internal/aiqa/runner.go:183-338 | transactions of everyone else, other owners' attempts on the same run included, between any two steps keep the invariant |
| `AiRunner.Execution.Finish` | internal/aiqa/runner.go:274-338 | success means the logged text is the one stored answer, with the last usage reported or the estimate and the answer's length; undisturbed, a clean stream completes, a broken one fails with its category, a remembered cancel request ends cancelled and a remembered store error failed |
| `AiRunner.Execution.Execute` | internal/aiqa/runner.go:183-338 | for any interleaving with callbacks, ticks, heartbeats and transactions of others, also around completion, and wherever the stream breaks off, a completed run's stored answer is exactly the concatenation of its delta events and of the gateway's deltas; undisturbed, every such run is completed with it and with the usage last reported |
| `AiRunner.AppendedText` | internal/aiqa/runner.go:359-376 | a stored batch extends the logged text by the batch's deltas |
| `AiStream.WindowIsLog` | internal/aiqa/http_sse.go:281-311 | over a gapless log the window is its next events, in order, as many as limit and end allow |
| `AiStream.ServePoll` | internal/aiqa/http_sse.go:137-165 | one poll sends the next at most 128 events and never passes the state it read |
| `AiStream.Stream` | internal/aiqa/http_sse.go:132-187 | what is sent is the log from the start on; every poll either catches up with what any earlier poll saw or brings a full window; the stream ends by itself exactly when a poll saw a terminal run and everything was sent |
| `AiStream.Follow` | internal/aiqa/http_sse.go:132-187 | a client reconnecting any number of times receives every event after its start exactly once and in order; no reconnect is refused; each connection is cut after its frames or brings the client to what its polls saw or a full window per poll, and ends the stream once everything of a finished run was sent |
| `AiStream.OneMorePoll` | internal/aiqa/http_sse.go:137-165 | a poll catches up or advances by a full window, relative to every earlier poll |
| `AiDelivery.HistoriesAreSessions` | internal/aiqa/http_sse.go:262-311 | reads of any transaction history at ever later moments satisfy what the subscriber proof assumes of its polls |
| `AiDelivery.Deliver` | internal/aiqa/http_sse.go:132-187 | a subscriber is brought on by every connection; once it has the whole log of a succeeded run, as it has when its stream ends, the deltas delivered over all connections concatenate to the one stored answer |
| `AiDelivery.DeliverHistory` | internal/aiqa/http_sse.go:132-187 | the same for polls at any ever later moments of the transaction history that led to the tables |
| `AiPricing.TokenCost` | internal/aiqa/runner.go:393-415 | the cost is min(MaxInt64, ceil(tokens*price/1000000)) for all int64 inputs, with no intermediate overflow |
| `AiPricing.RunCost` | internal/aiqa/runner.go:317-324 | the total is the saturating sum of input and output cost |
| `AiPricing.CostMeans` | internal/aiqa/runner.go:393-415 | the exact cost is the least whole number that pays for the tokens at the price |
| `AiPricing.CostSplits` | internal/aiqa/runner.go:393-415 | whole millions plus the two cross terms is the exact rounded-up cost |
| `AiPricing.AddCapped` | internal/aiqa/runner.go:404-414 | the running sum saturates exactly when the true sum exceeds MaxInt64 |
| `AiPricing.EstimateInput` | internal/aiqa/runner.go:340-357 | prompt, turns and images are summed exactly or capped |
| `AiContext.CollectPairs` | internal/aiqa/service.go:255-262 | the skipping loop collects exactly the answered questions, in order |
| `AiContext.AnsweredMeans` | internal/aiqa/service.go:255-262 | the pairs are the messages at exactly the positions of a student's message with the assistant's next after it, in order |
| `AiContext.TurnsMean` | internal/aiqa/service.go:273-278 | a pair becomes two turns, the question before its answer |
| `AiContext.SelectContext` | internal/aiqa/service.go:250-278 | refused exactly when the mandatory part does not fit, else the turns of the longest suffix of pairs that fits, in original order |
| `AiContext.SuffixIsLongest` | internal/aiqa/service.go:263-272 | the reference selection is a suffix of the pairs that fits, and every longer suffix does not |
| `AiContext.LongestIsSuffix` | internal/aiqa/service.go:263-272 | the suffix the backward loop stops at is the reference selection |
| `AiContext.EstimateReservation` | internal/aiqa/quota.go:66-74 | the byte sum of everything sent plus images plus output allowance |
| `AiContext.Reserve` | internal/aiqa/service.go:119-129 | the reservation is exactly mandatory plus selected bytes and never exceeds the context window |
| `BackupRuns.AllHistoriesKeepInv` | internal/backup/postgres_store.go:58-125 | after any calls at most one run is unfinished, requests are unique, owner and lease exist together and only on unfinished runs |
| `BackupRuns.StaleGenerationsNeverSucceed` | internal/backup/postgres_store.go:304-320 | once a run's generation exceeds g, no later Renew, Transition or AddArtifact carrying g succeeds or changes anything |
| `BackupRuns.ClaimsStrictlyIncrease` | internal/backup/postgres_store.go:198-220 | a later successful claim of a run has a strictly higher generation, and each generation belongs to its claimer |
| `BackupRuns.OneOwnerPerGeneration` | internal/backup/postgres_store.go:198-220 | two moments of one generation show the same owner |
| `BackupRuns.OnlyTheHolderSucceeds` | internal/backup/postgres_store.go:386-394 | a write succeeds only for the owner of the current generation with an unexpired lease; a refused one changes nothing |
| `BackupRuns.AnUnexpiredLeaseExcludesOthers` | internal/backup/postgres_store.go:203-209 | while a lease lasts no call of anyone else, a claim included, changes the run or its artifacts |
| `BackupRuns.StatesFormAPath` | internal/backup/model.go:73-84 | the states a run shows in any stretch of any history, without repetitions, form a path in nextStates from its first to its last |
| `BackupRuns.FinishedIsFinal` | internal/backup/model.go:73-84 | a finished run's row never changes again |
| `BackupRuns.ArtifactsAreImmutable` | internal/backup/postgres_store.go:578-616 | an artifact row is never rewritten or removed |
| `BackupRuns.CreateIsIdempotent` | internal/backup/postgres_store.go:71-79 | a repeated request never makes a second run, at any later moment |
| `BackupRuns.HistoryEvolves` | internal/backup/postgres_store.go:198-220 | generations never fall and within one the owner is kept or cleared |
| `BackupLaws.TableMeans` | internal/backup/model.go:73-84 | the fourteen moves a run can make, and its three ends |
| `BackupLaws.ClaimCondition` | internal/backup/postgres_store.go:198-220 | exactly when a claim succeeds, and what it changes |
| `BackupLaws.ClaimLasts` | internal/backup/postgres_store.go:198-220 | until a claimed lease ends its owner can renew under the claimed generation and no other claim succeeds; once it has ended the owner cannot renew and any proper claim succeeds |
| `BackupLaws.RenewalLasts` | internal/backup/postgres_store.go:304-320 | the same of a renewal, which changes nothing but the lease |
| `BackupLaws.RenewalCondition` | internal/backup/postgres_store.go:273-331 | exactly when a renewal succeeds |
| `BackupLaws.TransitionCondition` | internal/backup/postgres_store.go:333-395 | exactly when a transition succeeds |
| `BackupLaws.TransitionLeaves` | internal/backup/postgres_store.go:395-440 | a transition leaves the new state, its error and evidence; the last one frees the run |
| `BackupLaws.ArtifactMeans` | internal/backup/postgres_store.go:540-621 | exactly when an artifact is accepted, and the row it leaves |
| `BackupLaws.RequestMeans` | internal/backup/postgres_store.go:58-125 | exactly when a request makes a new run, and how that run starts |
| `BackupStore.Store.Create` | internal/backup/postgres_store.go:58-125 | returns the inserted run or the earlier one of the same request; refuses while any run is unfinished |
| `BackupStore.Store.PickClaimable` | internal/backup/postgres_store.go:176-184 | picks the first unfinished run by owned, age and id, and none exactly when there is none |
| `BackupStore.Store.ClaimNext` | internal/backup/postgres_store.go:127-133 | claims the unfinished run, if there is one, as a named claim does |
| `BackupStore.Store.ClaimById` | internal/backup/postgres_store.go:147-271 | the claim transaction; a commit of unknown fate is settled by reading back: success is reported only if exactly the intended claim landed, and is reported if it landed and its lease still lasts |
| `BackupStore.Store.Renew` | internal/backup/postgres_store.go:273-331 | only the unexpired holder of the generation renews; a lost or unreported commit is an error |
| `BackupStore.Store.Transition` | internal/backup/postgres_store.go:333-524 | success is reported only if exactly the intended transition landed, and, of an unreported one, whenever the row can be read while the lease lasts |
| `BackupStore.Store.AddArtifact` | internal/backup/postgres_store.go:540-621 | inserts once, accepts an equal repetition, refuses a different one |
| `BackupState.ResumeNeverRejects` | cmd/backup/main.go:871-973 | for every row and file that fit the invariant, the checks of resume pass; the repaired file fits, matches the row and keeps what was measured, when, and how the copy went |
| `BackupState.GoodEvidence` | cmd/backup/main.go:1006-1048 | complete evidence columns are read back as evidence without remote part |
| `BackupWorkflow.Workflow.Save` | cmd/backup/main.go:1185-1226 | a save may land and still fail; what may be on disk afterwards keeps the invariant |
| `BackupWorkflow.Workflow.Move` | cmd/backup/main.go:983-1004 | reported transitions are the durable ones, an unreported one leaves the file one transition behind; undisturbed, the holder's transition succeeds |
| `BackupWorkflow.Workflow.Reacquire` | cmd/backup/main.go:891-922 | renews, claims anew, or cleans up after a finished run; of the row only the lease changes |
| `BackupWorkflow.Workflow.Resume` | cmd/backup/main.go:871-973 | never rejects a run; on success file and row match, of the row only the lease changed and the file keeps what only it knows; undisturbed, it succeeds, or reports how the run ended |
| `BackupWorkflow.Workflow.Prepare` | cmd/backup/main.go:304-356 | success leaves row and file draining and leased; undisturbed, it succeeds on a new run and on a draining one |
| `BackupWorkflow.Workflow.Snapshot` | cmd/backup/main.go:358-440 | success leaves row and file encrypting, and the row names the snapshot, what it holds and that it is kept for seven days; undisturbed, a usable snapshot suffices |
| `BackupWorkflow.Workflow.AddArtifacts` | cmd/backup/main.go:687-740 | every call it makes is recorded and none is refused; on success three calls were made and the repository has its three rows |
| `BackupWorkflow.RetryNeverConflicts` | internal/backup/postgres_store.go:578-616 | an insert of a command is never refused as different, whether or not an earlier try stored the row, and adds at most the one expected row |
| `BackupWorkflow.Workflow.Verify` | cmd/backup/main.go:442-504 | success leaves the run verifying with the three local rows, stamped with the first verification's time; none of its recorded inserts is refused, however often it is retried; undisturbed, a readable snapshot suffices |
| `BackupWorkflow.Workflow.StampLocal` | cmd/backup/main.go:483-488 | the first verification time is on file before any row, with all the values the rows take from the file |
| `BackupWorkflow.Workflow.Sync` | cmd/backup/main.go:506-585 | the file says what became of the copy: its name, first time and expiry thirty days later, and then the three remote rows are there; or that the remote was unavailable. None of its recorded inserts is refused, however often it is retried |
| `BackupWorkflow.Workflow.Copy` | cmd/backup/main.go:531-585 | remote snapshot, time and expiry are on file before any remote row |
| `BackupWorkflow.Workflow.SaveCopy` | cmd/backup/main.go:552-574 | the copy's name, first time and expiry are on file before any of its rows |
| `BackupWorkflow.Workflow.Finish` | cmd/backup/main.go:752-796 | the run ends succeeded exactly when nothing was to be copied or the copy succeeded, degraded with the stored category otherwise; the row keeps its evidence and names the remote copy; no artifact changes, the three local ones are there; undisturbed, it succeeds once the copy's outcome is known |
| `BackupWorkflow.Workflow.Fail` | cmd/backup/main.go:798-859 | the run ends failed with the category given, or degraded exactly when a run under copy lacks its remote; a finished run stays as it is; undisturbed, it succeeds |
| `BackupWorkflow.Workflow.FinishAfterCutSync` | cmd/backup/main.go:570-585 | the concrete failing sequence: a sync that dies after saving its outcome, then finish, ends succeeded with a named remote copy and no remote artifact |
| `BackupWorkflow.Workflow.CarryOn` | scripts/phase5-backup.sh:2928-3024 | from any state interrupted commands can leave, the script's commands, undisturbed, end the run succeeded with the three rows of each repository, or degraded when the copy fails |
| `BackupWorkflow.Workflow.Session` | cmd/backup/main.go:304-859 | any commands, each dying anywhere: the file is never ahead of the row and at most one transition behind, none of the recorded inserts is refused by the store, no row changes |
| `BackupWorkflow.DumpBytesRecomputed` | cmd/backup/main.go:473-482 | logical minus referenced bytes is the dump size measured when the snapshot was taken |
| `BackupWorkflow.ExactlyThreeRows` | cmd/backup/main.go:709-738 | the rows of a repository are exactly the three kinds, with the digests and sizes of the snapshot's content, the recorded verification time and the expiry |
| `BackupWorkflow.SaveKeepsSound` | cmd/backup/main.go:483-488 | a new file that keeps the recorded verification times keeps every row's expected value |
| `BackupWorkflow.MoveKeepsSound` | cmd/backup/main.go:983-1004 | a forward transition from the state on file keeps the invariant |
| `BackupWorkflow.RowKeepsSound` | cmd/backup/main.go:709-738 | adding a row with its expected value keeps the invariant |
| `BackupWorkflow.EntryIsExpected` | cmd/backup/main.go:705-738 | what a command writes is, to the microsecond, what the row must hold |
| `BackupWorkflow.RemoteStampsFit` | cmd/backup/main.go:552-574 | a retried sync settles on the same remote time, expiry and snapshot |
| `Retention.SelectCandidates` | internal/backup/postgres_store.go:1181-1277 | fails exactly on a point without artifact; otherwise returns, as a multiset, exactly the artifacts of the runs the policy does not keep |
| `Retention.SelectionIsStable` | internal/backup/postgres_store.go:1181-1277 | the policy keeps every survivor of its own selection |
| `Retention.SelectAgain` | internal/backup/postgres_store.go:1181-1277 | the selector run on the survivors of a selection returns nothing |
| `Retention.KeptSurvives` | internal/backup/postgres_store.go:1209-1266 | a kept run stays kept when any others are removed |
| `Retention.KeptMeans` | internal/backup/postgres_store.go:1213-1266 | what is kept in each repository: the latest point, the latest of each of the first so many days (and months, remotely), and what a protected release needs |
| `Retention.CalendarKeepsAtMost` | internal/backup/postgres_store.go:1230-1257 | a calendar rule keeps one point a period and no more points than its limit |
| `Retention.GroupsOfSurvivors` | internal/backup/postgres_store.go:1189-1204 | grouping the surviving points restricts the groups |
| `Retention.KeepByCalendar` | internal/backup/postgres_store.go:1230-1241 | the seen-set loop keeps exactly the newest of a period with fewer than N distinct periods among newer runs |
| `Retention.KeepRepository` | internal/backup/postgres_store.go:1213-1266 | one repository's pass keeps exactly what the policy says |
| `Retention.SortNewestFirst` | internal/backup/postgres_store.go:1214-1219 | the runs, newest first, ties by identifier |
| `RetentionPlan.BuildState` | cmd/backup-retention/main.go:369-478 | succeeds exactly on well-formed rows and backed candidates; names current, last good, committed and candidate snapshots |
| `RetentionPlan.RowMeans` | cmd/backup-retention/main.go:383-395 | which rows are well formed: identifiers, kinds, and the states a finished or the current run may show in each repository |
| `RetentionPlan.EachKindOnce` | cmd/backup-retention/main.go:412-434 | in well-formed rows a run has each of its three artifacts exactly once, all of one snapshot |
| `RetentionPlan.RefusedRowsClash` | cmd/backup-retention/main.go:383-428 | the tables refuse a row exactly when it is malformed or clashes with an earlier row |
| `RetentionPlan.FoldMeans` | cmd/backup-retention/main.go:383-428 | the row loop finishes exactly on pairwise compatible rows |
| `RetentionPlan.FirstOtherInOrder` | cmd/backup-retention/main.go:442-456 | the first other run in the order is the run of the first other row |
| `RetentionDeletes.Normalize` | internal/backup/retention_executor.go:133-148 | succeeds exactly on valid identifiers; sorted, without repetition, same elements |
| `RetentionDeletes.BuildInventory` | internal/backup/retention_executor.go:189-200 | succeeds exactly on valid, dated, distinct snapshots |
| `RetentionDeletes.PlanDeletes` | internal/backup/retention_executor.go:150-239 | which states it refuses and otherwise exactly which snapshots it deletes |
| `RetentionDeletes.Repo.ForgetAll` | internal/backup/retention_executor.go:278-315 | every identifier once, in sorted batches of at most 128; it succeeds exactly when the identifiers are valid and every command given succeeded, no command follows a failed one, and no other snapshot is touched |
| `RetentionDeletes.KeptRunsAreNoCandidates` | cmd/backup-retention/main.go:395-399 | a candidate snapshot belongs to a run the policy drops, because runs never share a snapshot |
| `RetentionDeletes.Run` | cmd/backup-retention/main.go:166-230 | goes ahead exactly on well-formed rows with backed candidates, a sound inventory and every survivor present, and completes exactly when every command succeeded; complete, refused or half-way, only dropped runs' snapshots and old batch-tagged orphans are removed; current, last good and every run not dropped survive; on completion nothing dropped and no orphan older than a day is left |
| `RetentionDeletes.PlannableMeans` | internal/backup/retention_executor.go:150-239 | for a state built from good rows, planning succeeds exactly when the inventory is sound and everything that must survive is listed |
| `RetentionDeletes.BackedAlike` | cmd/backup-retention/main.go:457-468 | the candidates pass the cross-check exactly when every point the policy drops has its row |
| `RetentionDeletes.DroppedRunIsCandidate` | cmd/backup-retention/main.go:457-476 | the snapshot of every run the policy drops is a candidate |
| `Audit.Compiler.Compile` | internal/audit/postgres_store.go:373-422 | for every rule table and event, first-match evaluation of the CASE equals the classifier, NULL for not classified |
| `Audit.Compiler.Bind` | internal/audit/postgres_store.go:394-399 | a placeholder denotes the argument bound for it, and no earlier one changes |
| `Audit.Compiler.CompileKeyed` | internal/audit/postgres_store.go:400-414 | the metadata clauses mean the classifier on keyed actions |
| `Audit.Compiler.CompileStatic` | internal/audit/postgres_store.go:415-420 | the grouped clauses complete it on all actions |
| `Audit.EvalExtended` | internal/audit/postgres_store.go:373-422 | binding more arguments and clauses changes no earlier clause |
| `Audit.StoredRowsKeepTheirOutcome` | internal/audit/postgres_store.go:201-211 | the expression over stored metadata gives the stored outcome exactly when the rule does not read back a different "outcome" |
| `Audit.StaticRuleMeans` | internal/audit/postgres_store.go:340-347 | a static rule gives its outcome whatever the metadata; an unknown action has none |
| `Audit.KeyedRuleMeans` | internal/audit/postgres_store.go:348-354 | a keyed rule gives what it lists for the key's value, and nothing without the key or for another value |
| `Sorting.SortedIsUnique` | internal/audit/postgres_store.go:383-389 | sorting makes the result independent of map order |
| `Sorting.LessMeans` | internal/audit/postgres_store.go:383-389 | the order is decided at the first differing byte, and a proper prefix comes first |
| `Sse.ReadSse` | internal/aiqa/stream_reader.go:18-79 | the loop hands over exactly the events of the recursive reading, in order, and fails exactly where it fails |
| `Sse.RoundTrip` | internal/aiqa/stream_reader.go:18-79 | reading printed frames gives their events back, with LF or CR LF, with or without the space or the colon, and also for an event cut by the end of the input anywhere after its last text; comments and unknown fields change nothing |
| `Sse.LargeEventFails` | internal/aiqa/stream_reader.go:58-69 | the line that takes an event over the limit ends the reading; the events before it are handed over |
| `Sse.LongLineFails` | internal/aiqa/stream_reader.go:28-31 | so does a line longer than the limit |
| `Sse.DataRoundTrip` | internal/aiqa/stream_reader.go:38-42 | a text sent as one data field per line arrives as that text |
| `Sse.ServerStreamRoundTrip` | internal/aiqa/http_sse.go:157-174 | the server's frames with ids and heartbeats read back as its messages in order |

## Left out

- PostgreSQL locking and isolation: every transaction is one atomic step; the unique index on a student's active run is assumed.
- Power loss: a crash ends a process; what a write put on disk stays there.
- Update agent: phases, progress numbers, messages, timestamps and the validation of persisted files; HEAD is moved only by the agent; a successful switch or fast-forward does what it says, ancestry is a partial order.
- UpdateAgent.Agent.Start: an unreadable journal, which makes the process refuse to start, is not modelled.
- AiContext.SelectContext: sums are unbounded integers; image quotas are limited to ten million by db/migrations/00015_ai_configuration.sql, so 64-bit wrap-around needs text lengths no process can hold.
- AiContext.EstimateReservation: the same holds.
- SucceedRun of the runtime store, a second terminal path that writes no completed event, is not modelled.
- AI runs: preparation of gateway requests after the claim, thread and message bookkeeping, attachment loading, first-byte and cost columns of the run.
- Sse.ReadSse: errors of the callback or the reader and cancellation of the context, which end the loop early, are not modelled.
- Event stream: session re-checks, write deadlines and the one-connection-per-session rule; a stream whose reads or writes fail is one that is cut.
- AiRunner.Execution.Finish: the category of a gateway failure is an input; how it is derived from the error is not modelled.
- Texts: a character counts as one byte and as one rune; invalid UTF-8 is not modelled.
- Backup executor: pg_dump, age and restic are foreign; a snapshot read back is assumed to hold what was measured when it was taken, and a successful sync to return a well-formed snapshot identifier.
- Backup commands: two commands on one state directory at the same time; file permissions and JSON encoding of the state file; restore commands.
- BackupStore.Store.Create: the audit row of a manual request and the checks of requester, request id and address, which are one boolean input.
- Retention.SelectCandidates: the final sort of the candidates, and the SQL query that produces the points.
- RetentionDeletes.Run: the inventory is taken to be what the repository holds when the deletion starts.
- HTTP handlers, configuration, authentication, sessions, release manifests, host sampling and the front end: request parsing and validation of single values, with no state that outlives a call.
