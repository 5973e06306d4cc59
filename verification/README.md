# A verified model of smart-route's control plane

smart-route hands queued jobs to workers that live in disposable sandboxes. Its core is a
lease-based protocol over a SQLite store: clients submit and cancel jobs, workers claim, renew
and complete them, a reaper expires leases, a timeout controller ends overdue jobs, and a
recovery controller moves a session to a new worker when its old one dies. Many of the
statements are unguarded updates, so the safety of each transaction rests on what all the
others keep. This project states that protocol in Dafny and proves what it keeps, over every
run from the empty store.

## How it is organised

- `Domain`, `Tables`: states with their transition tables, and one map per table.
- `Transactions`, `Recovery`: what each committed transaction does to the tables, as a function.
- `Store`, `Controller`: the same transactions as the code has them, methods that update the
  tables statement by statement, in loops where the code loops. Every method is proved to have
  exactly the effect of its function in `Transactions` or `Recovery`; `Promises` says what the
  short ones mean to their callers.
- `Service`: the control plane as one object. It serves any request, and its history is a run, so
  that every theorem about runs holds of the object.
- `Invariants`: the invariant. `Settlement`, `DependencyGraph`, `Endings`, `SessionSteps`,
  `JobSteps`, `Recovery`, `Safety`: every transaction keeps it.
- `Protocol`: runs. A label is one committed transaction by a client, a worker or a controller;
  a run starts from the empty store and applies any enabled label at each step.
- `Progress`, `Steps`, `Fences`, `Epochs`, `Leasing`, `SessionTurns`: what one step may change.
- `Outcomes`, `Eligibility`: what a transaction decides, said without the functions of
  `Transactions`: the state of an attempt, its job, its dependents and its worker after every way
  in which an attempt can end, and which job a claim takes.
- `JobRuns`, `OutcomeRuns`, `SubmissionRuns`, `RecordRuns`, `SlotRuns`, `BlameRuns`, `SessionRuns`,
  `RecoveryRuns`, `ReplacementRuns`, `Acknowledgers`, `RebuildRuns`, `DependencyRuns`, `Fairness`,
  `JobMachine`: the theorems about whole runs.
- `Witness`, `LateRebuild`, `SquattedKey`, `TwoReplacements`, `StaleAcknowledgement`: runs from the
  empty store that show where a plausible claim fails. They take only steps that the code takes:
  their sandboxes come from the recovery controller, and others only delete them.
- `Scheduler`, `EventSink`, `Checkpoints`, `Autoscaler`, `Backoff`, `Ids`, `Propagation`: the
  algorithms, each with its own specification.

## Modelling decisions

- One committed transaction is one step, and properties are stated at commit granularity. Inside
  one TimeoutJobs transaction a dependent may fail with its dependency before it is itself timed
  out; only the net effect counts.
- Cancellation and the end of a session do not return the worker's slot; it comes back when the
  worker reports the attempt (`SlotRuns`). Completion, expiry and timeout return it at once.
- Some steps fold several commits of the code into one: CreateJob; the heartbeat's
  read-modify-write; registration (the worker's row, then the sandbox's); SetWorkerHealth (the
  status, then the recovery or the end of the session); and the recovery controller's "a worker
  matches, then enqueue, validate, acknowledge and complete" and "claim, then end, fail or reserve
  the sandbox". That the controller stops after the claim is an outcome of its own. A claim reads
  the worker's row inside its transaction.
- Registration adds a worker with a fresh id. A worker request that fails authentication does
  nothing. Session tokens and their expiry are left out, so the model allows more requests.
- Completions have the two forms that the handlers send: success, and failure with no job state.
- Job ids are either minted for a client or `(session, epoch, step)`; attempt ids are
  `(job, number)`; keys of the form `rebuild:session:epoch:step` are kept apart from all others, and
  clients may send either kind. `Ids` proves that the textual identifiers and keys of the code
  determine these parts (keys for sessions without a colon in their names, and the service mints no
  other), and that the code's prefix test selects exactly one epoch.
- The rows of `job_events` and `job_results` are kept with their job. A log is in sequence order,
  so sequence numbers are positions.
- Sandboxes may be changed by anyone at any time (`ChangeSandboxes`), which covers providers, the
  reconciler and the autoscaler. Clocks are parameters of the labels and need not advance.
- Time is an integer number of nanoseconds, scores are reals, and the jitter hash is a value in
  0..250. `Backoff` is in 64-bit arithmetic with explicit wrap-around.
- The result of an `ORDER BY` query is a parameter that lists exactly the rows of the query.
- The recovery controller may meet a replacement or give one up whenever its guards allow it,
  whatever its backoff clock says, so the model allows more runs than the code.

## What turned out false

- "Each rebuild step is leased only to a worker reserved at the step's own epoch" is false. The
  worker is always reserved at the session's current epoch, and that is the step's epoch if and
  only if the session has not moved on; steps of an earlier epoch stay queued and are leased once
  the session is active again. `LateRebuild.LateRebuildLease` gives a run from the empty store
  that does this; `RebuildRuns.RebuildLeases` states the exact condition.
- "Activation means that every job rebuild-s-e-i has succeeded" holds if and only if the plan's
  step keys are distinct and no client's job holds one of them. A step whose key repeats an earlier
  one gets no job of its own (`LateRebuild.StepWithoutJob`). A client may submit a job under the key
  of a step; the controller then takes the step for created, and may activate the session without
  any rebuild work (`SquattedKey.NoWorkDone`). `RebuildRuns.RebuildSafety` proves both directions,
  and step by step that the work was done if and only if no client's job held the key.
- "The retry delay lies in [d, d + d/4]" fails when the doubling meets 2^62 below the maximum, which
  the loop's guard lets through, and when adding the jitter exceeds 63 bits; then the delay is not
  positive. `Backoff.DelaySound` proves that it fails exactly then, for every base, maximum,
  attempt and hash. The provider's backoff has a corresponding condition
  (`Autoscaler.BackoffInRange`).
- `docs/session-recovery.md` promises at most one replacement per epoch. The controller may turn to
  the provider several times at one epoch (under one deterministic sandbox id):
  `TwoReplacements.TwiceInOneEpoch` is such a run. `ReplacementRuns.AnotherReplacement` and
  `OnePerEpoch` say exactly when. The bound that holds is on all replacements of a session together
  (`RecoveryRuns.BoundedRecovery`).
- `docs/session-recovery.md` also promises that a replacement stays inactive until its worker
  acknowledges. A recovery that is given up keeps its acknowledgement, and the next replacement at
  the same epoch is activated on the strength of it: `StaleAcknowledgement.ActivatedUnasked` is such
  a run. `Acknowledgers.OwnAcknowledgement` says exactly when the worker that acknowledged can
  still be the one that is activated.

## Model

| member | source | states |
|---|---|---|
| `Safety.Reachable` | internal/store/sqlite/sqlite.go:117-991 | the invariant (numbered attempts, leases in step with active attempts and leased jobs, ordered dependencies, owned jobs, reservations, capacity, rebuild plans) holds in every state of every run |
| `JobRuns.LeaseExclusion` | internal/store/sqlite/sqlite.go:539-913 | in every reachable state a job is leased iff it has exactly one active attempt; its lease rows are exactly its active attempts, held by the attempt's own worker |
| `JobRuns.OneCompleter` | internal/store/sqlite/sqlite.go:709-799 | two completions that would both succeed in one state are of the same attempt by the same worker |
| `JobRuns.ConcurrencyCap` | internal/httpapi/worker.go:281-312 | whatever heartbeats report, free slots stay in 0..max and a worker's active attempts never exceed its maximum |
| `JobRuns.TerminalFreeze` | internal/store/sqlite/sqlite.go:709-991 | from the commit that makes it terminal, a job's row, result, log and attempts never change in any continuation, and it holds no lease |
| `JobRuns.OneSuccess` | internal/store/sqlite/sqlite.go:709-799 | the succeeded attempts of a job are exactly its last one if the job succeeded, and none otherwise |
| `JobRuns.AttemptsNumbered` | internal/store/sqlite/sqlite.go:644-658 | attempts are numbered exactly 1..k, k is at most max(1, MaxAttempts), and only attempt k may be active |
| `JobRuns.FuelBurns` | internal/store/sqlite/sqlite.go:733-738 | the measure on remaining attempts and state falls at every change of a job's state and nowhere else |
| `JobRuns.FinitelyManyChanges` | internal/store/sqlite/sqlite.go:878-888 | over any run, from any point on, a job changes state at most 2*max(1, MaxAttempts)+1 times |
| `JobRuns.RunMoves` | internal/domain/state.go:5-35 | every step of every run moves jobs along CanTransition (two edges through running), attempts by at most one edge of CanAttemptTransition, and adds attempts only to queued jobs, with a lease |
| `Steps.StepMoves` | internal/store/sqlite/sqlite.go:539-991 | the refinement for one step, from any state that satisfies the invariant |
| `JobMachine.StoreAddsAsDomain` | internal/domain/state.go:51-75 | in every run, an attempt that a step adds, with its lease, is one that AddAttempt accepts on the job before, whose attempts are well numbered |
| `JobMachine.DomainJob.AddAttempt` | internal/domain/state.go:51-75 | succeeds iff the job is not terminal, no attempt is active, the number is next, and the lease names the attempt; keeps numbering and the last-only activity |
| `JobMachine.DomainJob.TransitionAttempt` | internal/domain/state.go:77-101 | changes exactly the first attempt with the id, iff there is one and the table has the edge |
| `JobMachine.DomainJob.AppendEvent` | internal/domain/state.go:104-117 | accepts exactly the next sequence number of this job's events, so the log stays 1, 2, ... |
| `OutcomeRuns.CompletionOutcome` | internal/store/sqlite/sqlite.go:709-799 | in every run, a completion counts iff an authenticated worker sends it for its own active attempt before the lease runs out; then the attempt ends, the slot is returned, and the job succeeds, fails, or is queued again iff the failure is retryable, fewer attempts were made than allowed and the deadline is ahead; other jobs change only as waiting dependents |
| `OutcomeRuns.PermanentFailure` | internal/store/sqlite/sqlite.go:733-738 | in every reachable state, an attempt that failed with a failure that is not retryable is the last one of its job, and the job has failed |
| `OutcomeRuns.FailedExactly` | internal/store/sqlite/sqlite.go:733-738 | in every reachable state, a job has failed iff its last attempt failed for good, failed or expired with the attempts used up, failed past the deadline, or expired before it with the elapsed time used up |
| `OutcomeRuns.ExpiryOutcome` | internal/store/sqlite/sqlite.go:836-913 | in every run, a sweep expires exactly the lapsed leases, or those of the dead worker; their jobs time out iff the deadline has passed, fail iff it has not and attempts or elapsed time are used up, and otherwise are queued with a retry time in [at + d, at + d + d/4] (exactly where the 64-bit arithmetic allows it); each worker gets back as many slots as it had attempts among them, up to its maximum |
| `OutcomeRuns.TimeoutOutcome` | internal/store/sqlite/sqlite.go:935-991 | in every run, TimeoutJobs times out exactly the unfinished jobs past their deadline, cancels their active attempts and returns the slots of those, and touches other jobs only as waiting dependents |
| `OutcomeRuns.CancelOutcome` | internal/store/sqlite/sqlite.go:258-303 | in every run, a cancellation ends exactly the job it names and its active attempt, as canceled and not retryable, and returns no slot |
| `OutcomeRuns.SessionEndOutcome` | internal/store/sqlite/sessions.go:228-298 | in every run, a step on sessions and workers changes exactly the unfinished jobs and active attempts of the sessions that it ends: lost with a lost session, canceled with a closed one, never retryable; free slots stay |
| `OutcomeRuns.StepFated` | internal/store/sqlite/sqlite.go:709-913 | whatever the step, only a completion or an expiry ends an attempt otherwise than by withdrawing it, and only they fail a job |
| `SessionRuns.SessionEndsExactly` | internal/store/sqlite/sessions.go:394-539 | in every run, a step ends a session iff it closes it, declares the worker of a session without recovery dead, or claims a recovery whose budget is used up; meeting a replacement ends it only as lost, while it recovers |
| `SubmissionRuns.SubmissionOutcome` | internal/store/sqlite/sqlite.go:117-172 | in every run, a submission adds its job iff key and id are free, the dependencies are different jobs of its session of which none has ended without success, and the session is open; every column of the row is the request's, and the job is queued iff all dependencies have succeeded |
| `SubmissionRuns.AnsweredExactly` | internal/store/sqlite/sqlite.go:117-172 | a submission is answered without an error iff it is admissible or its key names a job; it is not found only for want of a dependency or a session, or where its id is taken |
| `SubmissionRuns.DeadlineHolds` | internal/store/sqlite/sqlite.go:167-172 | over every run, a submitted job is over from any TimeoutJobs at or past the deadline of the request on |
| `SubmissionRuns.LimitHolds` | internal/store/sqlite/sqlite.go:117-172 | over every run, a submitted job never has more than max(1, MaxAttempts of the request) attempts |
| `SubmissionRuns.BackoffHolds` | internal/store/sqlite/sqlite.go:878-888 | over every run, a job whose lease expired gets its next attempt no earlier than the delay of the request's backoff after the expiry |
| `SubmissionRuns.RetryTime` | internal/store/sqlite/sqlite.go:878-888 | over every run, while a job waits for the attempt after an expiry, its row holds a retry time within the delay of the request's backoff and maximum |
| `SubmissionRuns.KeyHolds` | internal/store/sqlite/sqlite.go:117-146 | over every run, no later submission under the key of an added job changes anything |
| `RecordRuns.ResultProvenance` | internal/store/sqlite/sqlite.go:801-824 | in every reachable state, a job's result is attempt, status and data of the last request that the worker of an active attempt of the job sent, and none if there was no such request |
| `RecordRuns.EndIsOnRecord` | internal/store/sqlite/sqlite.go:709-991 | in every reachable state, the log of an ended job ends with the event that names its state |
| `SlotRuns.HeartbeatOutcome` | internal/httpapi/worker.go:266-318 | in every run, a heartbeat counts iff the reported slots are in range and each reported attempt is the worker's own and active, or of a job that was canceled, timed out or lost; then the free slots are the reported ones and one for each attempt that is over, up to the maximum |
| `SlotRuns.SlotsStay` | internal/store/sqlite/sqlite.go:258-303 | in every run, only claims, completions, heartbeats and the sweeps over leases and deadlines change free slots |
| `SlotRuns.LeaseWindow` | internal/store/sqlite/sqlite.go:644-670 | in every run, a claimed attempt can be completed by its worker exactly until now + duration |
| `BlameRuns.FailsWithDependency` | internal/store/sqlite/sessions.go:354-383 | in every reachable state, a job that failed with a dependency has one that ended without success, and a job with such a dependency has itself ended without success |
| `Eligibility.AttemptsAreEligible` | internal/store/sqlite/sqlite.go:554-643 | in every run, whenever an attempt is created, its job was queued, before its deadline and past its retry time, its worker was healthy and had room, and both the worker's and the sandbox's capabilities satisfied the constraints of the job and those of its session |
| `Eligibility.ClaimTakesTheBest` | internal/store/sqlite/sqlite.go:539-696 | in every run, the claim of an authenticated worker leases it a job that suits it and that no other suitable job precedes, under the next number and for the duration; it changes nothing iff no job suits it |
| `Eligibility.FirstClaimBinds` | internal/store/sqlite/sqlite.go:616-634 | in every run, the claim that takes the first job of a pending session makes it active on this worker and reserves worker and sandbox for it at its epoch; any other claim changes no session, sandbox or reservation |
| `Eligibility.GateExactly` | internal/store/sqlite/sqlite.go:588-643 | the gate lets a job through iff it has no session and the worker no reservation, or the worker meets the session's requirements and serves it, is free for it while it is pending, or is reserved at its epoch for a rebuild step of that epoch |
| `SessionRuns.PermanentEpochFence` | internal/store/sqlite/sqlite.go:587-643 | once the session's epoch passes that of a reserved worker, in every continuation the worker stays stale, is refused by authentication and by the claim's gate, and gets no new attempt of any job |
| `SessionRuns.OneServer` | internal/store/sqlite/sessions.go:443-465 | an active session's worker carries its reservation, epoch and sandbox, and no worker serves two active sessions |
| `SessionRuns.SessionAffinity` | internal/store/sqlite/sqlite.go:595-643 | all attempts of a session's own jobs created within one epoch, anywhere in a run, go to one worker and one sandbox |
| `SessionRuns.SessionClosure` | internal/store/sqlite/sessions.go:228-298 | closed and lost sessions stay so and own no unfinished job, active attempt or lease, then and ever after |
| `RecoveryRuns.ClosureReleases` | internal/store/sqlite/sessions.go:284-296 | the step that ends an active session frees the reservations of its worker and its sandbox, and the sandbox takes no new work |
| `RecoveryRuns.BoundedRecovery` | internal/controller/recovery.go:172-189 | over any run and all epochs, a controller with a positive limit turns to the provider at most that often for a session, counting every request whatever came of it |
| `RecoveryRuns.AdoptionOutcome` | internal/controller/recovery.go:120-142 | in every run, meeting a worker reserved for a recovering session at its epoch: by checkpoint, the session becomes active on it iff the restore was acknowledged; by rebuild, it is lost if a step of this epoch has failed, active if all its jobs have succeeded, and waits otherwise |
| `RecoveryRuns.DropOutcome` | internal/controller/recovery.go:143-170 | in every run, a recovery that is given up (no worker came, failed restore, or refusal) waits until the retry time with no worker reserved for it |
| `RecoveryRuns.ProvisionOutcome` | internal/controller/recovery.go:190-263 | in every run, a sandbox that the provider creates for a recovery is reserved for the session, unless the store already knew it |
| `ReplacementRuns.AnotherReplacement` | internal/controller/recovery.go:143-189 | in any run, after one request to the provider at an epoch there is another at the same epoch iff the recovery was given up in between (no worker, failed restore, or refusal) and has waited since, the retry is due and the budget allows it |
| `ReplacementRuns.OnePerEpoch` | docs/session-recovery.md:7 | an epoch gets at most one replacement iff no recovery of it that was given up is tried again when due and within the budget |
| `TwoReplacements.TwiceInOneEpoch` | internal/store/sqlite/sessions.go:417-488 | a run from the empty store with two requests to the provider at one epoch |
| `RecoveryRuns.ActivationIsAcknowledged` | internal/store/sqlite/sessions.go:443-507 | a session goes from recovering to active at epoch e only if some step, this one or an earlier one, turned its acknowledgement from false to true at e for a worker reserved at e (which worker that is: `Acknowledgers.OwnAcknowledgement`) |
| `Acknowledgers.OwnAcknowledgement` | docs/session-recovery.md:5 | in any run, the worker whose acknowledgement counts at an epoch can still be activated iff the recovery was not given up since; so the activated worker acknowledged only if it was not, and where it is the only replacement, iff it was not |
| `Acknowledgers.StepKept` | internal/store/sqlite/sessions.go:466-488 | while a session recovers at one epoch, every step keeps exactly the matching workers, except one that gives the recovery up, which frees them all |
| `StaleAcknowledgement.ActivatedUnasked` | internal/store/sqlite/sessions.go:472 | a concrete run from the empty store in which a worker registers when the epoch already counts as acknowledged, and is activated in the next step |
| `RebuildRuns.RebuildSafety` | internal/controller/recovery.go:269-317 | when a rebuilt session becomes active at e, a step's work has succeeded at e iff no client's job held its key; and each step's own job exists and succeeded iff the keys are distinct and none is held by a client's job |
| `RebuildRuns.RebuildLeases` | internal/store/sqlite/sqlite.go:635-643 | a rebuild step is leased only after the previous one succeeded, to a worker reserved at the session's current epoch; that is the step's epoch iff the session has not moved on, and then the session is active |
| `LateRebuild.LateRebuildLease` | internal/store/sqlite/sqlite.go:612-643 | a concrete run from the empty store after which a claim leases a step of epoch 2 to a worker reserved at epoch 3 |
| `LateRebuild.StepWithoutJob` | internal/controller/recovery.go:302-317 | a concrete run from the empty store in which a session whose two steps share a key becomes active, and the second step has no job |
| `SquattedKey.NoWorkDone` | internal/httpapi/server.go:379 | a concrete run from the empty store in which a session with distinct step keys becomes active with no rebuild job, because a client's job holds the key |
| `Epochs.StepGuards` | internal/store/sqlite/sessions.go:394-539 | no step lowers an epoch or a recovery count, revives an ended session, moves an active session within its epoch, or renews a stale reservation |
| `SessionTurns.StepTurns` | internal/store/sqlite/sessions.go:394-539 | all that any step can do to a session, and which step it takes: bind, finish (closed on request, lost with its worker or its rebuild or when the budget is used up), restart, claim, acknowledge, activate |
| `Leasing.StepGrants` | internal/store/sqlite/sqlite.go:587-684 | an attempt comes into being only by the claim of an authenticated worker, for the first job of the ranking that its gate lets through |
| `DependencyRuns.Acyclic` | internal/store/sqlite/sessions.go:326-342 | no walk along depends_on returns to its start, in any reachable state |
| `DependencyRuns.DependenciesFirst` | internal/store/sqlite/sqlite.go:148-166 | queued, leased and succeeded jobs depend on succeeded jobs only |
| `DependencyRuns.NoDeadlock` | internal/store/sqlite/sqlite.go:755-763 | behind every waiting job there is a chain of waiting jobs that ends in one that is queued or leased |
| `DependencyGraph.FailDownstreamRestores` | internal/store/sqlite/sessions.go:354-383 | failing all jobs downstream of a doomed one leaves no waiting job with a doomed dependency |
| `DependencyGraph.PromoteRestores` | internal/store/sqlite/sqlite.go:755-758 | queueing the jobs that a success releases leaves no waiting job without an unfinished dependency |
| `Propagation.FindDownstream` | internal/store/sqlite/sessions.go:354-358 | growing the set until nothing reaches it finds exactly the jobs downstream of the root |
| `Store.Store.PropagateDependencyFailure` | internal/store/sqlite/sessions.go:354-383 | the jobs downstream of the root, and no others, fail with one event each |
| `Store.Store.LastNumber` | internal/store/sqlite/sqlite.go:646 | the highest attempt number of the job, 0 if it has none |
| `Store.Store.FindActive` | internal/store/sqlite/sqlite.go:279 | the job's active attempt, if it has one |
| `Store.Store.CreateJob` | internal/store/sqlite/sqlite.go:117-172 | the tables and the error of the transaction; the job is added iff the request is admissible, and then every column is the request's and the job is queued iff all dependencies have succeeded (over runs: `SubmissionRuns`) |
| `Store.Store.ValidateDependencies` | internal/store/sqlite/sessions.go:326-353 | the loop gives the first error of the recursive check, then that of the session |
| `Store.Store.InspectDependencies` | internal/store/sqlite/sqlite.go:148-166 | whether some dependency is doomed, and whether all have succeeded |
| `Store.Store.CancelJob` | internal/store/sqlite/sqlite.go:258-303 | an unfinished job ends as canceled with its active attempt and lease, and waiting jobs downstream fail; the slot is not given back |
| `Store.Store.TimeOutJob` | internal/store/sqlite/sqlite.go:957-988 | one overdue job ends with its attempt, its lease and everything downstream, and the worker gets its slot back |
| `Store.Store.TimeoutJobs` | internal/store/sqlite/sqlite.go:935-991 | exactly the unfinished jobs past their deadline time out, with their active attempts and leases, and the workers get exactly those slots back |
| `Store.Store.ClaimNextJob` | internal/store/sqlite/sqlite.go:539-696 | leases the first job of the ranking that the gate lets through, binding a pending session first; otherwise nothing changes |
| `Store.Store.Admit` | internal/store/sqlite/sqlite.go:588-643 | decides, rebuild steps by the prefix of their names, exactly as the gate of the specification does on structured ids |
| `Store.Store.TakeLease` | internal/store/sqlite/sqlite.go:644-670 | job, slot, attempt and lease change together, and the attempt takes the next number |
| `Store.Store.RenewLease` | internal/store/sqlite/sqlite.go:697-708 | keeps the invariant; after a renewal the worker can complete the attempt exactly until the new expiry |
| `Store.Store.CompleteAttempt` | internal/store/sqlite/sqlite.go:709-799 | accepted iff in time and by the attempt's worker; then attempt, lease, slot and job are decided as in `OutcomeRuns.CompletionOutcome`: a retry iff the failure is retryable, attempts are left and the deadline is ahead |
| `Store.Store.ExpireLease` | internal/store/sqlite/sqlite.go:862-910 | one iteration of the sweep: its effect is that of the transaction, and the sweep as a whole decides as in `OutcomeRuns.ExpiryOutcome` |
| `Store.Store.ExpireLeases` | internal/store/sqlite/sqlite.go:836-913 | exactly the leases that have run out are taken back, in any order; each job times out, fails, or is queued again with its delay, as deadline, attempts and elapsed time decide |
| `Store.Store.ExpireWorkerLeases` | internal/store/sqlite/sqlite.go:839-913 | exactly the leases of the worker are taken back, in any order; each job times out, fails, or is queued again with its delay, as deadline, attempts and elapsed time decide |
| `Store.Store.SaveResult` | internal/store/sqlite/sqlite.go:801-824 | keeps the invariant; a result is only ever written for the latest attempt of a leased job, by its worker (its content over runs: `RecordRuns.ResultProvenance`) |
| `Store.Store.AppendAttemptEvent` | internal/store/sqlite/sqlite.go:464-508 | an event enters the log once per key and once per worker sequence, only for the worker's own active attempt |
| `Store.Store.RegisterWorker` | internal/httpapi/worker.go:79-151 | keeps the invariant; the new worker passes authentication, reserved or not, runs nothing and has all its slots, in a sandbox of its own; it is reserved for a session, at its epoch, iff its sandbox was made for the session, which still recovers |
| `Store.Store.HeartbeatWorker` | internal/httpapi/worker.go:266-318 | the report is refused as a whole, or the slots become the reported ones and one per cancellation, capped |
| `Store.Store.CreateSession` | internal/store/sqlite/sessions.go:15-67 | keeps the invariant; nothing in the store refers to the session before it is created, and it starts pending, as asked for, at epoch max(1, epoch) |
| `Store.Store.FinishSession` | internal/store/sqlite/sessions.go:228-298 | ends the session with its jobs, attempts and leases, and lets go of its worker and sandbox; an ended session is left alone |
| `Store.Store.CloseSession` | internal/store/sqlite/sessions.go:214-216 | keeps the invariant; afterwards the session has ended and owns no unfinished job, live attempt or lease |
| `Store.Store.RequestRecovery` | internal/store/sqlite/sessions.go:394-416 | keeps the invariant; every worker that holds a reservation of the session is behind its epoch from then on, and the recovery can be claimed exactly from the time of the request on |
| `Store.Store.SetWorkerHealth` | internal/store/sqlite/sqlite.go:993-1025 | keeps the invariant and records the status; a worker that was declared dead serves no active session any more |
| `Store.Store.ClaimRecovery` | internal/store/sqlite/sessions.go:417-442 | keeps the invariant; after one claim every further claim is refused, at any time |
| `Store.Store.CompleteRecovery` | internal/store/sqlite/sessions.go:443-465 | with a matching worker, keeps the invariant and leaves the session served by that worker at its epoch |
| `Store.Store.FailRecovery` | internal/store/sqlite/sessions.go:466-488 | keeps the invariant; no worker matches the session any more, and the next claim succeeds exactly from the retry time on |
| `Store.Store.AcknowledgeRecovery` | internal/store/sqlite/sessions.go:489-507 | keeps the invariant; afterwards the recovery can be completed at this epoch and at no other |
| `Store.Store.TerminalRecovery` | internal/store/sqlite/sessions.go:508-539 | keeps the invariant; the session is lost and owns nothing, no worker matches it and no sandbox is reserved for it |
| `Controller.RecoveryController.EnqueueRebuild` | internal/controller/recovery.go:302-317 | the loop creates the chain of rebuild jobs, goes on after a conflict and stops at any other error |
| `Controller.RecoveryController.InspectRebuild` | internal/controller/recovery.go:277-291 | whether a step of this epoch has failed, and whether all have succeeded |
| `Controller.RecoveryController.AdoptReplacement` | internal/controller/recovery.go:120-142 | keeps the invariant, and has the effect of enqueueing, validating, acknowledging and activating as far as the session's state allows |
| `Controller.RecoveryController.ProvisionReplacement` | internal/controller/recovery.go:172-263 | keeps the invariant; a positive budget is never exceeded by a session that is not lost, whatever the provider answers |
| `Controller.RecoveryController.GiveUpReplacement` | internal/controller/recovery.go:143-170 | keeps the invariant; no worker matches the session, and the next claim succeeds exactly from the retry time on |
| `Controller.RankQueue` | internal/store/sqlite/sqlite.go:554-587 | the jobs that a claim goes through are exactly the queued ones that the worker can run, best first, without repeats |
| `Service.Service.Serve` | internal/store/sqlite/sqlite.go:38 | one request at a time: the store takes exactly the step of the protocol, and the object's history stays a run |
| `Service.Service.Sound` | internal/store/sqlite/sqlite.go:38 | the invariant holds of the object whenever no request is being served |
| `Scheduler.Rank` | internal/scheduler/scheduler.go:74-99 | a permutation of the jobs that the worker can run, in strict order of score, age and name |
| `Scheduler.EligibleExactly` | internal/scheduler/scheduler.go:106-158 | a job is eligible iff the worker has room and is healthy, its sandbox is its own and up, both satisfy all constraints of the job, and the required upstream, if any, is reported available, not cooling down, within budget and within cost |
| `Scheduler.DeadCannotRun` | internal/scheduler/scheduler.go:111-114 | a worker that was declared dead is eligible for nothing |
| `Scheduler.PreferencesCount` | internal/scheduler/scheduler.go:166-174 | a met preference for region, sandbox or provider is worth exactly its weight, and an unmet one nothing |
| `Scheduler.UpstreamsCount` | internal/scheduler/scheduler.go:175-192 | health and price of an upstream count with their weights, for exactly the jobs that require it |
| `Scheduler.ExactMatchCounts` | internal/scheduler/scheduler.go:195-197 | exactly what the job asks for is worth the weight of an exact match more than a capability to spare |
| `Scheduler.LoadCounts` | internal/scheduler/scheduler.go:178-180 | each running attempt lowers the score by the weight of load over the maximum |
| `Scheduler.PatienceCounts` | internal/scheduler/scheduler.go:181-187 | waiting counts by the minute, and the weight of starvation from its threshold on |
| `Scheduler.TiesGoToTheOlder` | internal/scheduler/scheduler.go:84-97 | the higher score goes first, and of equal scores the older job |
| `Scheduler.LessAtDifference` | internal/scheduler/scheduler.go:84-97 | names, the last tie-break, are compared at their first difference |
| `Scheduler.RankingIsCanonical` | internal/scheduler/scheduler.go:84-97 | the ranking is unique and does not depend on the order in which the jobs are read |
| `Scheduler.BoundedOvertaking` | internal/scheduler/scheduler.go:160-193 | with default weights, health in [0,1] and cost in [0,C], a job older by more than 51+C minutes outranks the younger one |
| `Fairness.BoundedOvertakingInRuns` | internal/store/sqlite/sqlite.go:587-594 | in any run, a claim never takes a job without a session while an eligible one waits that is older by more than 51+C minutes |
| `EventSink.DeliverIsAppendEvent` | internal/store/sqlite/sqlite.go:464-508 | the sink's server is the store's transaction on an active attempt |
| `EventSink.AttemptSink.Emit` | internal/worker/runtime.go:312-333 | accepted events grow by exactly this one, or not at all with a full buffer; stored and pending stay in step whatever the channel does |
| `EventSink.AttemptSink.FlushLocked` | internal/worker/runtime.go:339-347 | keeps the accepted events; on success nothing is pending and the store holds exactly the accepted events in order; it fails only if a request failed on the way |
| `EventSink.AttemptSink.Conclude` | internal/worker/runtime.go:210-218 | the completion is sent only when every accepted event is stored |
| `EventSink.HeadIsTaken` | internal/worker/runtime.go:339-347 | sending the head leaves the store with exactly the delivered events and the head, whether or not an earlier try had arrived |
| `EventSink.StoredIncreases` | internal/store/sqlite/sqlite.go:478-491 | accepted events are stored ++ pending up to one stored head, and stored sequence numbers strictly increase |
| `EventSink.StoredDecides` | internal/store/sqlite/sqlite.go:478-491 | events that others write into the same log never answer for a worker's event |
| `Checkpoints.CheckpointStore.Create` | internal/store/sqlite/sessions.go:574-603 | inserts a checkpoint of the session's current epoch with the next sequence, iff id and sequence are free |
| `Checkpoints.CheckpointStore.Complete` | internal/store/sqlite/sessions.go:604-628 | makes a creating checkpoint ready and the session's latest, iff the session is still at its epoch |
| `Checkpoints.CheckpointStore.Mark` | internal/store/sqlite/sessions.go:655-668 | only partial and corrupt may be marked |
| `Checkpoints.CheckpointStore.GarbageCollect` | internal/store/sqlite/sessions.go:669-730 | the one-pass scan removes exactly what the rule says, and each session it touched points at its newest ready checkpoint or at none |
| `Checkpoints.CollectedPointed` | internal/store/sqlite/sessions.go:719-728 | no session is left pointing at a deleted row |
| `Checkpoints.SecondPassIdle` | internal/store/sqlite/sessions.go:669-730 | a second collection at the same time removes nothing |
| `Checkpoints.NewestStay` | internal/store/sqlite/sessions.go:698-710 | the newest N ready checkpoints stay, iff the session is not closed and purged |
| `Checkpoints.CheckpointStore.Usable` | internal/controller/recovery.go:333-357 | given the session's rows newest first, finds the newest restorable checkpoint that is not corrupt, if it opens; exactly the newer ones are marked corrupt, and nothing else changes |
| `Autoscaler.Assign` | internal/controller/autoscaler.go:227-259 | unmet demand is max(0, queued - idle slots), and the busy workers are those at work or reached by the demand |
| `Autoscaler.NeededIsLeast` | internal/controller/autoscaler.go:260-262 | the unclamped number of replicas is the least n, the busy ones included, whose additional slots take the unmet demand |
| `Autoscaler.GrantFits` | internal/controller/autoscaler.go:596-611 | creating up to the granted count keeps the per-run, total and provider limits |
| `Autoscaler.QueueAutoscaler.Scale` | internal/controller/autoscaler.go:191-345 | one pool: its desired size; no creation while unhealthy, in backoff or in cooldown; all limits kept; short of the desired size only if it may not grow now, one more sandbox would break a limit, or the provider failed a request; and its memory follows from what the provider reported |
| `Autoscaler.QueueAutoscaler.Run` | internal/controller/autoscaler.go:187-354 | over all pools of a pass, each is settled as in Scale from the memory it had, no creation exceeds a limit, and total and provider counts add up |
| `Autoscaler.QueueAutoscaler.CreateMany` | internal/controller/autoscaler.go:356-392 | at most the requested number is created, and an error is reported iff one is missing |
| `Autoscaler.BackoffBounds` | internal/controller/autoscaler.go:394-417 | for a maximum up to 2^55, in 64-bit arithmetic: at least the smaller of base and maximum, at most the maximum, and never shrinking as failures add up |
| `Autoscaler.BackoffInRange` | internal/controller/autoscaler.go:394-417 | for every 64-bit base and maximum and every hash, the backoff lies between the undisturbed delay and the maximum iff the product of hash and delay modulo 2^64 is below 2^63 with room for its thousandth, or within 1000 of 2^64 |
| `Autoscaler.BackoffWraps` | internal/controller/autoscaler.go:411-416 | an input at which the jitter wraps and the backoff falls short |
| `Backoff.ComputeRetryDelay` | internal/store/sqlite/sqlite.go:915-933 | the loop computes the 64-bit delay; for a maximum up to 2^56 it lies in [d, d+d/4] with d = min(base*2^(attempt-1), maximum) |
| `Backoff.ClosedForm` | internal/store/sqlite/sqlite.go:919-932 | the closed form, jitter included, with no wrap-around |
| `Backoff.DelaySound` | internal/store/sqlite/sqlite.go:915-933 | for every 64-bit base > 0 and maximum, every attempt and hash: the delay lies in [d, d+d/4] iff it is positive iff neither the doubling nor the jitter addition overflows; and it is d + d*hash/1000 iff the jitter product does not overflow either |
| `Backoff.UndisturbedIsMin` | internal/store/sqlite/sqlite.go:919-927 | up to a maximum of 2^62, d is min(base*2^(attempt-1), maximum) |
| `Backoff.DoublingWraps` | internal/store/sqlite/sqlite.go:920-924 | inputs at which the doubling wraps, without a maximum and with one |
| `Backoff.JitterWraps` | internal/store/sqlite/sqlite.go:932 | inputs at which the jitter addition wraps, without a maximum and with one |
| `Backoff.DelayGrows` | internal/store/sqlite/sqlite.go:919-927 | d does not fall as attempts grow |
| `Ids.AttemptNameInjective` | internal/store/sqlite/sqlite.go:649 | an attempt's identifier determines its job and number |
| `Ids.RebuildNameInjective` | internal/controller/recovery.go:305 | a rebuild job's identifier determines session, epoch and step |
| `Ids.RebuildKeyInjective` | internal/controller/recovery.go:310 | a rebuild step's key determines session, epoch and step key, for sessions without a colon in their names |
| `Ids.NameDeterminesJob` | internal/scheduler/scheduler.go:84-97 | jobs with the same name are the same job, so that the tie-break by name is total |
| `Ids.RebuildPrefixSelects` | internal/controller/recovery.go:279 | the prefix test selects exactly the rebuild jobs of one epoch |
| `Ids.PrefixMeansStep` | internal/store/sqlite/sqlite.go:636-637 | over all jobs and sessions, the claim's prefix test on names holds exactly of the rebuild steps of this session and epoch |
| `Ids.MintedNamesAreNotRebuilds` | internal/controller/recovery.go:279 | identifiers minted for submitted jobs are never taken for rebuild steps |

## Left out

- HTTP routing, JSON, TLS, token hashing and session-token expiry: plumbing around the store's transactions.
- Sandbox providers, command and HTTP executors, checkpoint file formats: foreign effects; creating a sandbox or opening a checkpoint is an outcome that the environment picks.
- SQL text and migrations: tables are maps keyed by id, and unique indexes are guards of the transactions that insert.
- Re-registration of an existing worker instance, BindSession and the raw AppendEvent, which no handler or controller calls.
- Idle and lifetime expiry of sessions: ExpireSessions only decides when to call CloseSession, which the model allows at any time.
- Recovery events, telemetry, configuration loading and application wiring: no hard property.
- The autoscaler's choice of a pool for a job and its draining of idle sandboxes: demand per pool is an input, and draining changes no counter of the pass.
- SandboxReconciler and SandboxReaper: they overwrite sandbox states with those of the provider, which ChangeSandboxes covers.
- Redaction of secrets in events and results, and failure messages.
- Lost updates below the granularity of one committed transaction, and wall-clock liveness such as tickers and long polls.
- Scheduler.BoundedOvertaking: over reals, not 64-bit floating point.
- Checkpoints.CheckpointStore.GarbageCollect: ties in sequence, which the unique index rules out, are not ordered by creation time and id.
