/** What each transaction of the store does to the tables: the specification that
    the methods of the store are proved against. */
module Transactions {
  import opened Domain
  import opened Tables
  import Backoff

  // Building blocks

  function Finish(job: Job, to: JobState, at: Time, event: Event): Job {
    job.(state := to, updated := at, log := job.log + [event])
  }

  /** Every job downstream of `root` fails with it. */
  ghost function FailDownstream(jobs: Jobs, root: JobID, at: Time): Jobs {
    map j | j in jobs ::
      if Downstream(jobs, root, j) then
        Finish(jobs[j], JobDependencyFailed, at,
               Event(JobTransition(JobDependencyFailed, "dependency_failed"), None, at, 0, ""))
      else jobs[j]
  }

  predicate Released(jobs: Jobs, root: JobID, j: JobID)
    requires j in jobs
  {
    && jobs[j].state.JobWaiting?
    && root in jobs[j].spec.deps
    && forall d :: d in jobs[j].spec.deps && d in jobs ==> jobs[d].state.JobSucceeded?
  }

  /** The jobs that waited for `root` alone are queued. */
  function Promote(jobs: Jobs, root: JobID, at: Time): Jobs {
    map j | j in jobs ::
      if Released(jobs, root, j) then jobs[j].(state := JobQueued, updated := at) else jobs[j]
  }

  function EndAttempt(attempts: Attempts, a: AttemptID, to: AttemptState, failure: Option<Failure>, at: Time): Attempts
    requires a in attempts
  {
    attempts[a := attempts[a].(state := to, failure := failure, endedAt := Some(at))]
  }

  // Ends the active attempt, if any, and drops its lease.
  function Stop(db: DB, active: Option<AttemptID>, to: AttemptState, failure: Failure, at: Time): DB
    requires active.Some? ==> active.value in db.attempts
  {
    if active.None? then db
    else db.(attempts := EndAttempt(db.attempts, active.value, to, Some(failure), at),
             leases := db.leases - {active.value})
  }

  function ReturnSlot(workers: Workers, w: WorkerID): Workers {
    if w in workers then
      workers[w := workers[w].(freeSlots := Min(workers[w].spec.maxSlots, workers[w].freeSlots + 1))]
    else workers
  }

  // Jobs

  datatype NewJob = NewJob(
    id: JobID,
    key: Option<Key>,
    session: Option<SessionID>,
    deps: seq<JobID>,
    maxAttempts: int,
    backoff: int,
    maxBackoff: int,
    maxElapsed: int,
    timeoutAt: Option<Time>,
    view: Candidate
  )

  function CheckDeps(jobs: Jobs, id: JobID, session: Option<SessionID>, deps: seq<JobID>, seen: set<JobID>): Error {
    if deps == [] then Ok
    else if deps[0] == id || deps[0] in seen then Conflict
    else if deps[0] !in jobs then NotFound
    else if jobs[deps[0]].spec.session != session then Conflict
    else CheckDeps(jobs, id, session, deps[1..], seen + {deps[0]})
  }

  function CheckSession(sessions: Sessions, session: Option<SessionID>): Error {
    if session.None? then Ok
    else if session.value !in sessions then NotFound
    else if sessions[session.value].state.Terminal() then Conflict
    else Ok
  }

  predicate SomeDoomed(jobs: Jobs, deps: seq<JobID>) {
    exists d :: d in deps && d in jobs && jobs[d].state.Doomed()
  }

  predicate AllSucceeded(jobs: Jobs, deps: seq<JobID>) {
    forall d :: d in deps && d in jobs ==> jobs[d].state.JobSucceeded?
  }

  function NewRow(db: DB, r: NewJob): Job {
    Job(JobSpec(|db.jobs|, r.session, (set d | d in r.deps), r.key, r.maxAttempts, r.backoff, r.maxBackoff,
                r.maxElapsed, r.timeoutAt, r.view.(id := r.id)),
        if AllSucceeded(db.jobs, r.deps) then JobQueued else JobWaiting,
        None, r.view.created, [], None)
  }

  /** A job whose idempotency key is taken is the job that took it. */
  function CreateJob(db: DB, r: NewJob): Tx {
    if r.key.Some? && JobWith(db.jobs, r.key.value) != {} then Tx(db, Ok)
    else
      var bad := CheckDeps(db.jobs, r.id, r.session, r.deps, {});
      if bad != Ok then Tx(db, bad)
      else
        var closed := CheckSession(db.sessions, r.session);
        if closed != Ok then Tx(db, closed)
        else if SomeDoomed(db.jobs, r.deps) then Tx(db, Conflict)
        else if r.id in db.jobs then Tx(db, if r.key.Some? then NotFound else Conflict)
        else Tx(db.(jobs := db.jobs[r.id := NewRow(db, r)]), Ok)
  }

  ghost function Cancel(db: DB, j: JobID, at: Time): Tx {
    if j !in db.jobs then Tx(db, NotFound)
    else if db.jobs[j].state.Terminal() then Tx(db, Conflict)
    else
      var active := ActiveAttempt(db.attempts, j);
      var stopped := Stop(db, active, AttemptCanceled, Failure("job_canceled", false), at);
      var event := Event(JobTransition(JobCanceled, "client_request"), active, at, 0, "");
      var canceled := Finish(db.jobs[j], JobCanceled, at, event).(nextAt := None);
      Tx(stopped.(jobs := FailDownstream(db.jobs[j := canceled], j, at)), Ok)
  }

  // One iteration of TimeoutJobs.
  ghost function TimeOut(db: DB, j: JobID, now: Time): DB
    requires j in db.jobs
  {
    var active := ActiveAttempt(db.attempts, j);
    var stopped := Stop(db, active, AttemptCanceled, Failure("job_timeout", false), now);
    var event := Event(JobTransition(JobTimedOut, "deadline_exceeded"), active, now, 0, "");
    var timedOut := Finish(db.jobs[j], JobTimedOut, now, event).(nextAt := None);
    stopped.(
      jobs := FailDownstream(db.jobs[j := timedOut], j, now),
      workers := if active.Some? then ReturnSlot(db.workers, db.attempts[active.value].worker) else db.workers)
  }

  predicate Overdue(job: Job, now: Time) {
    job.spec.timeoutAt.Some? && job.spec.timeoutAt.value <= now && !job.state.Terminal()
  }

  ghost function TimeOutAll(db: DB, ids: seq<JobID>, now: Time): (r: DB)
    ensures r.jobs.Keys == db.jobs.Keys
    decreases |ids|
  {
    if ids == [] then db
    else
      var before := TimeOutAll(db, ids[..|ids| - 1], now);
      var j := ids[|ids| - 1];
      if j in before.jobs then TimeOut(before, j, now) else before
  }

  // Leases

  datatype Gate = Skip | Take | Bind

  /** Whether worker `w` may take the queued job `j`. `Bind` also makes the pending
      session of the job active on this worker. */
  function GateOf(db: DB, w: WorkerID, j: JobID): Gate
    requires w in db.workers && j in db.jobs
  {
    var me := db.workers[w];
    var session := db.jobs[j].spec.session;
    if session.None? then
      if me.reserved.Some? then Skip else Take
    else if session.value !in db.sessions then Skip
    else
      var s := session.value;
      var v := db.sessions[s];
      var required := Constraints(v.spec.caps.capabilities, v.spec.caps.labels, v.spec.caps.architecture,
                                  v.spec.caps.region, "", "", "", None, v.spec.provider, None);
      if !Satisfies(me.spec.caps, required) || (v.spec.provider != "" && me.spec.provider != v.spec.provider) then Skip
      else match v.state
        case SessionActive =>
          if v.worker == Some(w) && v.box == Some(me.spec.box) then Take else Skip
        case SessionPending =>
          if me.reserved.Some? && me.reserved != Some(s) then Skip else Bind
        case SessionRecovering =>
          if me.reserved == Some(s) && me.epoch == v.epoch && j.Rebuild? && j.session == s && j.epoch == v.epoch
          then Take else Skip
        case _ => Skip
  }

  // The first job of the ranking that passes its gate.
  function FirstOpen(db: DB, w: WorkerID, ranked: seq<JobID>): (r: Option<JobID>)
    requires w in db.workers
    ensures r.Some? ==> r.value in ranked && r.value in db.jobs && GateOf(db, w, r.value) != Skip
  {
    if ranked == [] then None
    else if ranked[0] in db.jobs && GateOf(db, w, ranked[0]) != Skip then Some(ranked[0])
    else FirstOpen(db, w, ranked[1..])
  }

  function BindSession(db: DB, w: WorkerID, s: SessionID): DB
    requires w in db.workers && s in db.sessions
  {
    var box := db.workers[w].spec.box;
    db.(sessions := db.sessions[s := db.sessions[s].(state := SessionActive, worker := Some(w), box := Some(box))],
        workers := db.workers[w := db.workers[w].(reserved := Some(s), epoch := db.sessions[s].epoch)],
        boxes := if box in db.boxes then db.boxes[box := db.boxes[box].(reserved := Some(s))] else db.boxes)
  }

  ghost function TakeLease(db: DB, w: WorkerID, j: JobID, now: Time, duration: int, hash: nat): DB
    requires w in db.workers && j in db.jobs
  {
    var a := AttemptID(j, MaxNumber(db.attempts.Keys, j) + 1);
    db.(jobs := db.jobs[j := db.jobs[j].(state := JobLeased, updated := now)],
        workers := db.workers[w := db.workers[w].(freeSlots := db.workers[w].freeSlots - 1)],
        attempts := db.attempts[a := Attempt(w, db.workers[w].spec.box, AttemptLeased, None, None, hash)],
        leases := db.leases[a := Lease(w, now + duration)])
  }

  /** ClaimNextJob, given the scheduler's ranking of the queued jobs. */
  ghost function Claim(db: DB, w: WorkerID, ranked: seq<JobID>, now: Time, duration: int, hash: nat): Tx {
    if w !in db.workers || db.workers[w].spec.box !in db.boxes then Tx(db, NotFound)
    else
      var choice := FirstOpen(db, w, ranked);
      if choice.None? then Tx(db, NotFound)
      else if db.workers[w].freeSlots <= 0 then Tx(db, Conflict)
      else
        var j := choice.value;
        var bound := if GateOf(db, w, j) == Bind then BindSession(db, w, db.jobs[j].spec.session.value) else db;
        Tx(TakeLease(bound, w, j, now, duration, hash), Ok)
  }

  function Renew(db: DB, w: WorkerID, a: AttemptID, now: Time, until: Time): Tx {
    if a in db.leases && db.leases[a].worker == w && db.leases[a].expires > now && Live(db.attempts, a) then
      Tx(db.(leases := db.leases[a := db.leases[a].(expires := until)]), Ok)
    else Tx(db, NotFound)
  }

  datatype Completion = Success | Failed(failure: Failure)
  {
    function Outcome(): AttemptState {
      if Success? then AttemptSucceeded else AttemptFailed
    }

    function Reason(): Option<Failure> {
      if Success? then None else Some(failure)
    }
  }

  function AfterCompletion(job: Job, number: nat, c: Completion, at: Time): JobState {
    if c.Success? then JobSucceeded
    else if c.failure.retryable && number < job.spec.maxAttempts
            && (job.spec.timeoutAt.None? || at < job.spec.timeoutAt.value) then JobQueued
    else JobFailed
  }

  function CompletedRow(job: Job, a: AttemptID, c: Completion, at: Time): Job {
    var next := AfterCompletion(job, a.number, c, at);
    Finish(job, next, at, Event(AttemptTransition(c.Outcome(), next, "completion"), Some(a), at, 0, ""))
  }

  // What the end of job `j` does to the jobs that depend on it.
  ghost function Settle(jobs: Jobs, j: JobID, at: Time): Jobs
    requires j in jobs
  {
    if jobs[j].state.JobSucceeded? then Promote(jobs, j, at)
    else if jobs[j].state.Terminal() then FailDownstream(jobs, j, at)
    else jobs
  }

  ghost function Complete(db: DB, w: WorkerID, a: AttemptID, c: Completion, at: Time): Tx {
    if a !in db.attempts || db.attempts[a].worker != w || a.job !in db.jobs then Tx(db, NotFound)
    else if !CanAttemptTransition(db.attempts[a].state, c.Outcome()) then Tx(db, Conflict)
    else if a !in db.leases || db.leases[a].expires <= at then Tx(db, Conflict)
    else
      var row := CompletedRow(db.jobs[a.job], a, c, at);
      Tx(db.(attempts := EndAttempt(db.attempts, a, c.Outcome(), c.Reason(), at),
             leases := db.leases - {a},
             workers := ReturnSlot(db.workers, w),
             jobs := Settle(db.jobs[a.job := row], a.job, at)), Ok)
  }

  function AfterExpiry(job: Job, number: nat, now: Time): JobState {
    if job.spec.timeoutAt.Some? && job.spec.timeoutAt.value <= now then JobTimedOut
    else if number < job.spec.maxAttempts
            && (job.spec.maxElapsed <= 0 || now - job.spec.view.created < job.spec.maxElapsed) then JobQueued
    else JobFailed
  }

  function ExpiredRow(job: Job, a: AttemptID, hash: nat, now: Time): Job {
    var next := AfterExpiry(job, a.number, now);
    var delay := Backoff.RetryDelay(job.spec.backoff, job.spec.maxBackoff, a.number, hash);
    var event := Event(AttemptTransition(AttemptExpired, next, "lease_expired"), Some(a), now, 0, "");
    if job.state.JobLeased? || job.state.JobRunning?
    then Finish(job, next, now, event).(nextAt := if next.JobQueued? then Some(now + delay) else None)
    else job.(log := job.log + [event])
  }

  // One iteration of expireLeases.
  ghost function Expire(db: DB, a: AttemptID, now: Time): DB {
    if !Live(db.attempts, a) || a.job !in db.jobs then db
    else
      var row := ExpiredRow(db.jobs[a.job], a, db.attempts[a].hash, now);
      db.(attempts := EndAttempt(db.attempts, a, AttemptExpired, Some(Failure("lease_expired", true)), now),
          leases := db.leases - {a},
          workers := ReturnSlot(db.workers, db.attempts[a].worker),
          jobs := if AfterExpiry(db.jobs[a.job], a.number, now).Terminal()
                  then FailDownstream(db.jobs[a.job := row], a.job, now)
                  else db.jobs[a.job := row])
  }

  ghost function ExpireAll(db: DB, ids: seq<AttemptID>, now: Time): DB
    decreases |ids|
  {
    if ids == [] then db
    else Expire(ExpireAll(db, ids[..|ids| - 1], now), ids[|ids| - 1], now)
  }

  // Events and results

  predicate Duplicate(log: seq<Event>, a: AttemptID, e: Event) {
    e.key != "" && exists i :: 0 <= i < |log| && log[i].attempt == Some(a) && log[i].key == e.key
  }

  predicate Collides(log: seq<Event>, a: AttemptID, e: Event) {
    e.workerSequence > 0
    && exists i :: 0 <= i < |log| && log[i].attempt == Some(a) && log[i].workerSequence == e.workerSequence
  }

  /** A worker's event enters the log of its job once per idempotency key and once
      per worker sequence number. */
  function AppendEvent(db: DB, w: WorkerID, a: AttemptID, e: Event): Tx {
    if a !in db.attempts || db.attempts[a].worker != w || a.job !in db.jobs then Tx(db, NotFound)
    else if !db.attempts[a].state.Active() then Tx(db, Conflict)
    else
      var job := db.jobs[a.job];
      if Duplicate(job.log, a, e) then Tx(db, Ok)
      else if Collides(job.log, a, e) then Tx(db, Conflict)
      else Tx(db.(jobs := db.jobs[a.job := job.(log := job.log + [e.(attempt := Some(a))])]), Ok)
  }

  function SaveResult(db: DB, w: WorkerID, a: AttemptID, status: int, data: seq<int>): Tx {
    if a !in db.attempts || db.attempts[a].worker != w || a.job !in db.jobs then Tx(db, NotFound)
    else if !db.attempts[a].state.Active() then Tx(db, Conflict)
    else Tx(db.(jobs := db.jobs[a.job := db.jobs[a.job].(result := Some(Result(a, status, data)))]), Ok)
  }

  // Workers

  function Register(db: DB, w: WorkerID, spec: WorkerSpec): Tx {
    if spec.maxSlots <= 0 || w in db.workers then Tx(db, Conflict)
    else
      var hold := if spec.box in db.boxes then db.boxes[spec.box].reserved else None;
      var adopt := hold.Some? && hold.value in db.sessions && db.sessions[hold.value].state.SessionRecovering?;
      var worker := Worker(spec, spec.maxSlots, if adopt then hold else None,
                           if adopt then db.sessions[hold.value].epoch else 0, Report("", map[]));
      Tx(db.(workers := db.workers[w := worker],
             boxes := db.boxes[spec.box := Box(Some(w), spec.caps, "ready", hold)]), Ok)
  }

  /** The fence in front of every worker request: a reserved worker must hold the
      current epoch of a session that is recovering, or active on this worker. */
  predicate Authenticated(db: DB, w: WorkerID) {
    && w in db.workers
    && (db.workers[w].reserved.Some? ==>
          var s := db.workers[w].reserved.value;
          && s in db.sessions
          && db.workers[w].epoch == db.sessions[s].epoch
          && (|| db.sessions[s].state.SessionRecovering?
              || (db.sessions[s].state.SessionActive? && db.sessions[s].worker == Some(w))))
  }

  predicate TellsToCancel(s: JobState) {
    s.JobCanceled? || s.JobTimedOut? || s.JobSessionLost?
  }

  // The number of reported attempts that the worker must cancel; none when the report is refused.
  function Cancellations(db: DB, w: WorkerID, reported: seq<AttemptID>): Option<nat> {
    if reported == [] then Some(0)
    else
      var rest := Cancellations(db, w, reported[..|reported| - 1]);
      var a := reported[|reported| - 1];
      if rest.None? || a !in db.attempts || db.attempts[a].worker != w then None
      else if db.attempts[a].state.Active() then rest
      else if a.job in db.jobs && TellsToCancel(db.jobs[a.job].state) then Some(rest.value + 1)
      else None
  }

  function Heartbeat(db: DB, w: WorkerID, freeSlots: int, reported: seq<AttemptID>, report: Report): Tx {
    if w !in db.workers then Tx(db, NotFound)
    else if freeSlots < 0 || freeSlots > db.workers[w].spec.maxSlots then Tx(db, Conflict)
    else
      var canceled := Cancellations(db, w, reported);
      if canceled.None? then Tx(db, Conflict)
      else Tx(db.(workers := db.workers[w := db.workers[w].(
                    freeSlots := Min(db.workers[w].spec.maxSlots, freeSlots + canceled.value), report := report)]), Ok)
  }

  // Sessions

  function CreateSession(db: DB, s: SessionID, spec: SessionSpec, epoch: nat): Tx {
    if s in db.sessions then Tx(db, Conflict)
    else if spec.policy.RecoveryRebuild? && (spec.plan == [] || "" in spec.plan) then Tx(db, Conflict)
    else Tx(db.(sessions := db.sessions[s := Session(spec, SessionPending, if epoch == 0 then 1 else epoch, None, None,
                                                     RecoveryIdle, 0, None, false)]), Ok)
  }

  predicate OwnedBy(jobs: Jobs, j: JobID, s: SessionID) {
    j in jobs && jobs[j].spec.session == Some(s)
  }

  function FinishJobs(jobs: Jobs, s: SessionID, to: JobState, code: string, at: Time): Jobs {
    map j | j in jobs ::
      if jobs[j].spec.session == Some(s) && !jobs[j].state.Terminal() then
        Finish(jobs[j], to, at, Event(JobTransition(to, code), None, at, 0, ""))
      else jobs[j]
  }

  function FinishAttempts(jobs: Jobs, attempts: Attempts, s: SessionID, to: AttemptState, code: string, at: Time): Attempts {
    map a | a in attempts ::
      if OwnedBy(jobs, a.job, s) && attempts[a].state.Active() then
        attempts[a].(state := to, failure := Some(Failure(code, false)), endedAt := Some(at))
      else attempts[a]
  }

  function Unreserve(box: Box): Box {
    box.(reserved := None, state := if box.state == "ready" || box.state == "running" then "draining" else box.state)
  }

  /** finishSessionTx: the session ends as `to`, and everything it owns with it. */
  function FinishSession(db: DB, s: SessionID, to: SessionState, code: string, at: Time): DB
    requires s in db.sessions
  {
    var v := db.sessions[s];
    if v.state.Terminal() then db
    else
      var jobEnd := if to.SessionLost? then JobSessionLost else JobCanceled;
      var attemptEnd := if to.SessionLost? then AttemptLost else AttemptCanceled;
      db.(sessions := db.sessions[s := v.(state := to)],
          jobs := FinishJobs(db.jobs, s, jobEnd, code, at),
          attempts := FinishAttempts(db.jobs, db.attempts, s, attemptEnd, code, at),
          leases := map a | a in db.leases && !OwnedBy(db.jobs, a.job, s) :: db.leases[a],
          workers := if v.worker.Some? && v.worker.value in db.workers
                        && db.workers[v.worker.value].reserved == Some(s)
                     then db.workers[v.worker.value := db.workers[v.worker.value].(reserved := None)]
                     else db.workers,
          boxes := if v.box.Some? && v.box.value in db.boxes && db.boxes[v.box.value].reserved == Some(s)
                   then db.boxes[v.box.value := Unreserve(db.boxes[v.box.value])]
                   else db.boxes)
  }

  function CloseSession(db: DB, s: SessionID, at: Time): Tx {
    if s !in db.sessions then Tx(db, NotFound)
    else Tx(FinishSession(db, s, SessionClosed, "session_closed", at), Ok)
  }

  function RequestRecovery(db: DB, s: SessionID, at: Time): Tx {
    if s in db.sessions && (db.sessions[s].state.SessionActive? || db.sessions[s].state.SessionRecovering?)
       && !db.sessions[s].spec.policy.RecoveryNone? then
      Tx(db.(sessions := db.sessions[s := db.sessions[s].(
               state := SessionRecovering, recovery := RecoveryPending, epoch := db.sessions[s].epoch + 1,
               worker := None, box := None, acknowledged := false, recoveryAfter := Some(at))]), Ok)
    else Tx(db, Conflict)
  }

  function Marked(db: DB, w: WorkerID, status: string): DB
    requires w in db.workers
  {
    db.(workers := db.workers[w := db.workers[w].(report := db.workers[w].report.(status := status))])
  }

  /** The death of a reserved worker takes its session into recovery, or ends it. */
  function SetHealth(db: DB, w: WorkerID, status: string, at: Time): Tx {
    if w !in db.workers then Tx(db, NotFound)
    else
      var marked := Marked(db, w, status);
      var hold := db.workers[w].reserved;
      if status != "dead" || hold.None? then Tx(marked, Ok)
      else if hold.value !in db.sessions then Tx(marked, NotFound)
      else if !db.sessions[hold.value].spec.policy.RecoveryNone? then RequestRecovery(marked, hold.value, at)
      else Tx(FinishSession(marked, hold.value, SessionLost, "session_lost", at), Ok)
  }

  function ClaimRecovery(db: DB, s: SessionID, at: Time): Tx {
    if s in db.sessions && db.sessions[s].state.SessionRecovering?
       && (db.sessions[s].recovery.RecoveryPending? || db.sessions[s].recovery.RecoveryFailed?)
       && (db.sessions[s].recoveryAfter.None? || db.sessions[s].recoveryAfter.value <= at) then
      Tx(db.(sessions := db.sessions[s := db.sessions[s].(
               recovery := RecoveryProvisioning, recoveries := db.sessions[s].recoveries + 1)]), Ok)
    else Tx(db, Conflict)
  }

  function CompleteRecovery(db: DB, s: SessionID, epoch: nat, w: WorkerID, box: BoxID): Tx {
    if s in db.sessions && db.sessions[s].epoch == epoch && db.sessions[s].state.SessionRecovering?
       && db.sessions[s].acknowledged then
      Tx(db.(sessions := db.sessions[s := db.sessions[s].(
               state := SessionActive, recovery := RecoveryIdle, worker := Some(w), box := Some(box),
               recoveryAfter := None)],
             workers := if w in db.workers
                        then db.workers[w := db.workers[w].(reserved := Some(s), epoch := epoch)]
                        else db.workers), Ok)
    else Tx(db, Conflict)
  }

  // Workers reserved for this epoch of the session are set free.
  function Disband(workers: Workers, s: SessionID, epoch: nat): Workers {
    map w | w in workers ::
      if workers[w].reserved == Some(s) && workers[w].epoch == epoch
      then workers[w].(reserved := None, epoch := 0) else workers[w]
  }

  function FailRecovery(db: DB, s: SessionID, epoch: nat, retryAt: Time): Tx {
    if s in db.sessions && db.sessions[s].epoch == epoch && db.sessions[s].state.SessionRecovering? then
      Tx(db.(sessions := db.sessions[s := db.sessions[s].(
               recovery := RecoveryFailed, recoveryAfter := Some(retryAt))],
             workers := Disband(db.workers, s, epoch)), Ok)
    else Tx(db, Conflict)
  }

  function AcknowledgeRecovery(db: DB, s: SessionID, epoch: nat, w: WorkerID): Tx {
    if s in db.sessions && db.sessions[s].epoch == epoch && db.sessions[s].state.SessionRecovering?
       && w in db.workers && db.workers[w].reserved == Some(s) && db.workers[w].epoch == epoch then
      Tx(db.(sessions := db.sessions[s := db.sessions[s].(
               acknowledged := true, recovery := RecoveryRestoring)]), Ok)
    else Tx(db, Conflict)
  }

  // The rest of TerminalRecovery, once the session has ended.
  function Abandon(db: DB, s: SessionID, epoch: nat): DB
    requires s in db.sessions
  {
    db.(sessions := db.sessions[s := db.sessions[s].(recovery := RecoveryFailed)],
        workers := Disband(db.workers, s, epoch),
        boxes := map b | b in db.boxes ::
          if db.boxes[b].reserved == Some(s) then Unreserve(db.boxes[b]) else db.boxes[b])
  }

  function TerminalRecovery(db: DB, s: SessionID, epoch: nat, at: Time): Tx {
    if s !in db.sessions then Tx(db, NotFound)
    else if db.sessions[s].epoch != epoch || !db.sessions[s].state.SessionRecovering? then Tx(db, Conflict)
    else Tx(Abandon(FinishSession(db, s, SessionLost, "recovery_failed", at), s, epoch), Ok)
  }
}
