/** Every transaction that ends one job at a time has one shape: the job takes its
    new row, its dependents follow, and its active attempt ends and loses its lease. */
module Endings {
  import opened Domain
  import opened Tables
  import opened Transactions
  import opened Invariants
  import opened Settlement
  import opened DependencyGraph

  // Neither reservations nor capabilities change, and the slots stay in range.
  ghost predicate SameWorkers(workers: Workers, workers': Workers) {
    && workers'.Keys == workers.Keys
    && (forall w :: w in workers ==>
          && workers'[w].spec == workers[w].spec
          && workers'[w].reserved == workers[w].reserved
          && workers'[w].epoch == workers[w].epoch
          && 0 <= workers'[w].freeSlots <= workers[w].spec.maxSlots)
  }

  /** `j` takes the row `row`; its active attempt, if it has one, ends as `y`. */
  ghost predicate Ends(db: DB, db': DB, j: JobID, row: Job, active: Option<AttemptID>, y: Attempt, at: Time) {
    && j in db.jobs
    && row.spec == db.jobs[j].spec
    && active == ActiveAttempt(db.attempts, j)
    && db'.jobs == Settle(db.jobs[j := row], j, at)
    && db'.attempts == (if active.Some? then db.attempts[active.value := y] else db.attempts)
    && db'.leases == (if active.Some? then db.leases - {active.value} else db.leases)
    && db'.sessions == db.sessions
    && SameWorkers(db.workers, db'.workers)
    && (active.Some? ==>
          && y.state.Terminal() && y.worker == db.attempts[active.value].worker && y.box == db.attempts[active.value].box
          && (row.state.JobSucceeded? <==> y.state.AttemptSucceeded?)
          && (row.state.Terminal() || (row.state.JobQueued? && active.value.number < row.spec.maxAttempts)))
    && (active.None? ==> row.state.Doomed() && !db.jobs[j].state.JobSucceeded?)
  }

  // Under the invariant, a job has an active attempt exactly when it is leased.
  lemma ActiveIsLatest(jobs: Jobs, attempts: Attempts, leases: Leases, j: JobID)
    requires Coherent(jobs, attempts, leases) && j in jobs
    ensures ActiveAttempt(attempts, j) == if jobs[j].state.JobLeased? then Some(Latest(attempts, j)) else None
  {
    if jobs[j].state.JobLeased? {
      assert Live(attempts, Latest(attempts, j));
    }
  }

  lemma SettleSettles(jobs: Jobs, j: JobID, at: Time)
    requires j in jobs && !jobs[j].state.JobWaiting?
    ensures JobsSettle(jobs, Settle(jobs, j, at))
    ensures forall k :: k in jobs && !jobs[k].state.JobWaiting? && !jobs[k].state.JobQueued? ==>
      Settle(jobs, j, at)[k] == jobs[k]
    ensures jobs[j].state.JobQueued? ==> Settle(jobs, j, at) == jobs
  {
  }

  lemma EndsJobs(db: DB, db': DB, j: JobID, row: Job, active: Option<AttemptID>, y: Attempt, at: Time)
    requires Ends(db, db', j, row, active, y, at)
    requires Coherent(db.jobs, db.attempts, db.leases)
    ensures JobsSettle(db.jobs, db'.jobs) && db'.jobs[j] == row
    ensures forall k :: k in db.jobs && k != j && db.jobs[k].state.JobLeased? ==> db'.jobs[k] == db.jobs[k]
  {
    ActiveIsLatest(db.jobs, db.attempts, db.leases, j);
    var next := db.jobs[j := row];
    SettleSettles(next, j, at);
    assert next.Keys == db.jobs.Keys;
    forall k | k in db.jobs
      ensures db'.jobs[k].spec == db.jobs[k].spec && JobSettles(db.jobs[k].state, db'.jobs[k].state)
    {
      assert k == j ==> db'.jobs[k] == row;
    }
  }

  lemma EndsInStep(db: DB, db': DB, j: JobID, row: Job, active: Option<AttemptID>, y: Attempt, at: Time, k: JobID)
    requires Ends(db, db', j, row, active, y, at) && db'.jobs.Keys == db.jobs.Keys && db'.jobs[j] == row
    requires active == if db.jobs[j].state.JobLeased? then Some(Latest(db.attempts, j)) else None
    requires k in db.jobs && db.jobs[k].state.JobLeased? && Live(db.attempts, Latest(db.attempts, k))
    requires k != j ==> db'.jobs[k] == db.jobs[k]
    ensures var a := Latest(db.attempts, k);
      && a in db'.attempts
      && (db'.attempts[a].state.Active() <==> db'.jobs[k].state.JobLeased?)
      && (db'.attempts[a].state.AttemptSucceeded? <==> db'.jobs[k].state.JobSucceeded?)
      && (db'.jobs[k].state.JobQueued? ==> a.number < db.jobs[k].spec.maxAttempts)
  {
  }

  lemma EndsAttempts(db: DB, db': DB, j: JobID, row: Job, active: Option<AttemptID>, y: Attempt, at: Time)
    requires Ends(db, db', j, row, active, y, at)
    requires Coherent(db.jobs, db.attempts, db.leases)
    ensures AttemptsSettle(db.attempts, db'.attempts) && LeasesSettle(db.leases, db'.attempts, db'.leases)
  {
    assert db'.attempts.Keys == db.attempts.Keys;
  }

  lemma EndsSettles(db: DB, db': DB, j: JobID, row: Job, active: Option<AttemptID>, y: Attempt, at: Time)
    requires Ends(db, db', j, row, active, y, at)
    requires Coherent(db.jobs, db.attempts, db.leases)
    ensures Settles(db, db')
  {
    EndsJobs(db, db', j, row, active, y, at);
    EndsAttempts(db, db', j, row, active, y, at);
    ActiveIsLatest(db.jobs, db.attempts, db.leases, j);
    forall k | k in db.jobs && db.jobs[k].state.JobLeased? && Latest(db.attempts, k) in db.attempts
      ensures var a := Latest(db.attempts, k);
        && (db'.attempts[a].state.Active() <==> db'.jobs[k].state.JobLeased?)
        && (db'.attempts[a].state.AttemptSucceeded? <==> db'.jobs[k].state.JobSucceeded?)
        && (db'.jobs[k].state.JobQueued? ==> a.number < db.jobs[k].spec.maxAttempts)
    {
      EndsInStep(db, db', j, row, active, y, at, k);
    }
  }

  lemma EndsDependencies(db: DB, db': DB, j: JobID, row: Job, active: Option<AttemptID>, y: Attempt, at: Time)
    requires Ends(db, db', j, row, active, y, at)
    requires Coherent(db.jobs, db.attempts, db.leases) && Dependencies(db.jobs)
    ensures Dependencies(db'.jobs)
  {
    ActiveIsLatest(db.jobs, db.attempts, db.leases, j);
    EndRestores(db.jobs, j, row, at);
  }

  lemma SettledKeepsInv(db: DB, db': DB)
    requires Inv(db) && Settles(db, db') && Dependencies(db'.jobs)
    requires db'.sessions == db.sessions && SameWorkers(db.workers, db'.workers)
    ensures Inv(db')
  {
    KeepsCoherent(db, db');
    KeepsNumbered(db, db');
    KeepsCredited(db, db');
    KeepsCapped(db, db');
    KeepsOwned(db.jobs, db'.jobs, db.sessions, db'.sessions);
    KeepsPlanned(db.jobs, db'.jobs, db.sessions, db'.sessions);
    assert Reserved(db'.workers, db'.sessions) by { KeepsReserved(db.workers, db'.workers, db.sessions); }
  }

  lemma KeepsReserved(workers: Workers, workers': Workers, sessions: Sessions)
    requires Reserved(workers, sessions) && SameWorkers(workers, workers')
    ensures Reserved(workers', sessions)
  {
    forall s | s in sessions && sessions[s].state.SessionActive? ensures Serves(workers', sessions, s) {
      assert Serves(workers, sessions, s);
    }
  }

  /** The one induction step behind cancellation, completion, expiry and timeout. */
  lemma EndsKeepsInv(db: DB, db': DB, j: JobID, row: Job, active: Option<AttemptID>, y: Attempt, at: Time)
    requires Inv(db) && Ends(db, db', j, row, active, y, at)
    ensures Settles(db, db') && Inv(db')
  {
    EndsSettles(db, db', j, row, active, y, at);
    EndsDependencies(db, db', j, row, active, y, at);
    SettledKeepsInv(db, db');
  }

  // The transactions themselves

  // The event says that the job went to `to`.
  predicate Records(e: Event, to: JobState) {
    match e.kind
    case JobTransition(next, _) => next == to
    case AttemptTransition(_, next, _) => next == to
    case WorkerEvent(_, _) => false
  }

  // The row takes its new state, and an event that says so.
  predicate Notes(x: Job, y: Job) {
    y.result == x.result && |y.log| == |x.log| + 1 && x.log <= y.log && Records(y.log[|x.log|], y.state)
  }

  lemma ReturnSlotSame(workers: Workers, attempts: Attempts, w: WorkerID)
    requires Capped(workers, attempts)
    ensures SameWorkers(workers, ReturnSlot(workers, w)) && SameWorkers(workers, workers)
  {
  }

  lemma OneWorkerSame(workers: Workers, attempts: Attempts, w: WorkerID, x: Worker)
    requires Capped(workers, attempts) && w in workers && x.spec == workers[w].spec
    requires x.reserved == workers[w].reserved && x.epoch == workers[w].epoch && 0 <= x.freeSlots <= x.spec.maxSlots
    ensures SameWorkers(workers, workers[w := x])
  {
  }

  // What the endings below rely on.
  ghost predicate Base(db: DB) {
    Coherent(db.jobs, db.attempts, db.leases) && Capped(db.workers, db.attempts)
  }

  function Ended(attempts: Attempts, active: Option<AttemptID>): Attempt {
    if active.Some? && active.value in attempts then attempts[active.value]
    else Attempt(0, 0, AttemptLost, None, None, 0)
  }

  lemma CancelEnds(db: DB, j: JobID, at: Time) returns (row: Job, active: Option<AttemptID>)
    requires Base(db) && j in db.jobs && !db.jobs[j].state.Terminal()
    ensures var db' := Cancel(db, j, at).db; Ends(db, db', j, row, active, Ended(db'.attempts, active), at)
    ensures CanMove(db.jobs[j].state, row.state) && row.state.JobCanceled? && Notes(db.jobs[j], row)
  {
    active := ActiveAttempt(db.attempts, j);
    row := Finish(db.jobs[j], JobCanceled, at, Event(JobTransition(JobCanceled, "client_request"), active, at, 0, ""))
           .(nextAt := None);
    ReturnSlotSame(db.workers, db.attempts, 0);
    ActiveIsLatest(db.jobs, db.attempts, db.leases, j);
  }

  function TimedOutRow(db: DB, j: JobID, active: Option<AttemptID>, now: Time): Job
    requires j in db.jobs
  {
    Finish(db.jobs[j], JobTimedOut, now, Event(JobTransition(JobTimedOut, "deadline_exceeded"), active, now, 0, ""))
      .(nextAt := None)
  }

  lemma TimeOutShape(db: DB, j: JobID, now: Time)
    requires j in db.jobs && !db.jobs[j].state.JobSucceeded? && SameWorkers(db.workers, TimeOut(db, j, now).workers)
    ensures var db', active := TimeOut(db, j, now), ActiveAttempt(db.attempts, j);
      Ends(db, db', j, TimedOutRow(db, j, active, now), active, Ended(db'.attempts, active), now)
  {
  }

  lemma TimeOutEnds(db: DB, j: JobID, now: Time) returns (row: Job, active: Option<AttemptID>)
    requires Base(db) && j in db.jobs && !db.jobs[j].state.JobSucceeded?
    ensures var db' := TimeOut(db, j, now); Ends(db, db', j, row, active, Ended(db'.attempts, active), now)
    ensures row.state.JobTimedOut? && Notes(db.jobs[j], row)
  {
    active := ActiveAttempt(db.attempts, j);
    row := TimedOutRow(db, j, active, now);
    ReturnSlotSame(db.workers, db.attempts, if active.Some? then db.attempts[active.value].worker else 0);
    TimeOutShape(db, j, now);
  }

  lemma CompletedRowFits(job: Job, a: AttemptID, c: Completion, at: Time)
    requires job.state.JobLeased?
    ensures var row := CompletedRow(job, a, c, at);
      && row.spec == job.spec && CanMove(job.state, row.state) && Notes(job, row)
      && (row.state.JobSucceeded? <==> c.Outcome().AttemptSucceeded?)
      && (row.state.Terminal() || (row.state.JobQueued? && a.number < row.spec.maxAttempts))
      && !row.state.JobDependencyFailed?
  {
  }

  lemma ExpiredRowFits(job: Job, a: AttemptID, hash: nat, now: Time)
    requires job.state.JobLeased?
    ensures var row := ExpiredRow(job, a, hash, now);
      && row.spec == job.spec && CanMove(job.state, row.state) && Notes(job, row)
      && row.state == AfterExpiry(job, a.number, now)
      && (row.state.JobFailed? || row.state.JobTimedOut? || (row.state.JobQueued? && a.number < row.spec.maxAttempts))
  {
  }

  lemma CompleteShape(db: DB, w: WorkerID, a: AttemptID, c: Completion, at: Time)
    requires Complete(db, w, a, c, at).err == Ok && SameWorkers(db.workers, ReturnSlot(db.workers, w))
    requires db.jobs[a.job].state.JobLeased? && ActiveAttempt(db.attempts, a.job) == Some(a)
    ensures var db' := Complete(db, w, a, c, at).db;
      Ends(db, db', a.job, CompletedRow(db.jobs[a.job], a, c, at), Some(a), Ended(db'.attempts, Some(a)), at)
  {
    CompletedRowFits(db.jobs[a.job], a, c, at);
  }

  lemma CompleteEnds(db: DB, w: WorkerID, a: AttemptID, c: Completion, at: Time) returns (row: Job)
    requires Base(db) && Complete(db, w, a, c, at).err == Ok
    ensures var db' := Complete(db, w, a, c, at).db; Ends(db, db', a.job, row, Some(a), Ended(db'.attempts, Some(a)), at)
    ensures db.jobs[a.job].state.JobLeased? && CanMove(db.jobs[a.job].state, row.state) && Notes(db.jobs[a.job], row)
    ensures !row.state.JobLeased? && !row.state.JobWaiting? && !row.state.JobDependencyFailed?
  {
    row := CompletedRow(db.jobs[a.job], a, c, at);
    assert Live(db.attempts, a);
    ActiveIsLatest(db.jobs, db.attempts, db.leases, a.job);
    ReturnSlotSame(db.workers, db.attempts, w);
    CompletedRowFits(db.jobs[a.job], a, c, at);
    CompleteShape(db, w, a, c, at);
  }

  lemma ExpireShape(db: DB, a: AttemptID, now: Time)
    requires Live(db.attempts, a) && a.job in db.jobs
    requires SameWorkers(db.workers, ReturnSlot(db.workers, db.attempts[a].worker))
    requires db.jobs[a.job].state.JobLeased? && ActiveAttempt(db.attempts, a.job) == Some(a)
    ensures var db' := Expire(db, a, now);
      Ends(db, db', a.job, ExpiredRow(db.jobs[a.job], a, db.attempts[a].hash, now), Some(a), Ended(db'.attempts, Some(a)), now)
  {
    ExpiredRowFits(db.jobs[a.job], a, db.attempts[a].hash, now);
  }

  lemma ExpireEnds(db: DB, a: AttemptID, now: Time) returns (row: Job)
    requires Base(db) && Live(db.attempts, a)
    ensures var db' := Expire(db, a, now); Ends(db, db', a.job, row, Some(a), Ended(db'.attempts, Some(a)), now)
    ensures db.jobs[a.job].state.JobLeased? && CanMove(db.jobs[a.job].state, row.state) && Notes(db.jobs[a.job], row)
    ensures !row.state.JobLeased? && !row.state.JobWaiting? && !row.state.JobDependencyFailed?
  {
    ActiveIsLatest(db.jobs, db.attempts, db.leases, a.job);
    ReturnSlotSame(db.workers, db.attempts, db.attempts[a].worker);
    row := ExpiredRow(db.jobs[a.job], a, db.attempts[a].hash, now);
    ExpiredRowFits(db.jobs[a.job], a, db.attempts[a].hash, now);
    ExpireShape(db, a, now);
  }

  lemma CancelKeepsInv(db: DB, j: JobID, at: Time)
    requires Inv(db)
    ensures Inv(Cancel(db, j, at).db)
  {
    if j in db.jobs && !db.jobs[j].state.Terminal() {
      var row, active := CancelEnds(db, j, at);
      var db' := Cancel(db, j, at).db;
      EndsKeepsInv(db, db', j, row, active, Ended(db'.attempts, active), at);
    }
  }

  lemma TimeOutKeepsInv(db: DB, j: JobID, now: Time)
    requires Inv(db) && j in db.jobs && !db.jobs[j].state.JobSucceeded?
    ensures Inv(TimeOut(db, j, now))
  {
    var row, active := TimeOutEnds(db, j, now);
    var db' := TimeOut(db, j, now);
    EndsKeepsInv(db, db', j, row, active, Ended(db'.attempts, active), now);
  }

  lemma CompleteKeepsInv(db: DB, w: WorkerID, a: AttemptID, c: Completion, at: Time)
    requires Inv(db)
    ensures Inv(Complete(db, w, a, c, at).db)
  {
    if Complete(db, w, a, c, at).err == Ok {
      var row := CompleteEnds(db, w, a, c, at);
      var db' := Complete(db, w, a, c, at).db;
      EndsKeepsInv(db, db', a.job, row, Some(a), Ended(db'.attempts, Some(a)), at);
    }
  }

  lemma ExpireKeepsInv(db: DB, a: AttemptID, now: Time)
    requires Inv(db)
    ensures Inv(Expire(db, a, now))
  {
    if Live(db.attempts, a) {
      var row := ExpireEnds(db, a, now);
      var db' := Expire(db, a, now);
      EndsKeepsInv(db, db', a.job, row, Some(a), Ended(db'.attempts, Some(a)), now);
    }
  }
}
