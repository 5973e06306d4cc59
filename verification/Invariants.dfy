/** What holds of the tables after every committed transaction. No single
    transaction states it; each relies on all the others keeping it. */
module Invariants {
  import opened Domain
  import opened Tables

  /** The attempts of a job are numbered 1, 2, ... without a gap and within its
      retry budget; a queued job has budget left and a waiting job has none used. */
  ghost predicate Numbered(jobs: Jobs, attempts: Attempts) {
    && (forall a :: a in attempts ==> a.job in jobs && 1 <= a.number <= Max(1, jobs[a.job].spec.maxAttempts))
    && (forall a, n: nat :: a in attempts && 1 <= n < a.number ==> AttemptID(a.job, n) in attempts)
    && (forall a :: a in attempts && jobs[a.job].state.JobQueued? ==> a.number < jobs[a.job].spec.maxAttempts)
    && (forall a :: a in attempts ==> !jobs[a.job].state.JobWaiting?)
  }

  /** Lease rows, active attempts and leased jobs are in step. */
  ghost predicate Coherent(jobs: Jobs, attempts: Attempts, leases: Leases) {
    && (forall a :: a in leases <==> Live(attempts, a))
    && (forall a :: a in leases ==> leases[a].worker == attempts[a].worker)
    && (forall a :: Live(attempts, a) ==>
          a == Latest(attempts, a.job) && a.job in jobs && jobs[a.job].state.JobLeased?)
    && (forall j :: j in jobs && jobs[j].state.JobLeased? ==> Live(attempts, Latest(attempts, j)))
    && (forall j :: j in jobs ==> !jobs[j].state.JobRunning?)
  }

  /** Exactly the succeeded jobs have a succeeded attempt, and it is their last. */
  ghost predicate Credited(jobs: Jobs, attempts: Attempts) {
    && (forall a :: a in attempts && attempts[a].state.AttemptSucceeded? ==>
          a == Latest(attempts, a.job) && a.job in jobs && jobs[a.job].state.JobSucceeded?)
    && (forall j :: j in jobs && jobs[j].state.JobSucceeded? ==>
          Latest(attempts, j) in attempts && attempts[Latest(attempts, j)].state.AttemptSucceeded?)
  }

  // Dependencies are older rows of the same session.
  ghost predicate Layered(jobs: Jobs) {
    && (forall j :: j in jobs ==> jobs[j].spec.row < |jobs|)
    && (forall j, d :: j in jobs && d in jobs[j].spec.deps ==>
          d in jobs && jobs[d].spec.row < jobs[j].spec.row && jobs[d].spec.session == jobs[j].spec.session)
  }

  predicate Started(s: JobState) {
    s.JobQueued? || s.JobLeased? || s.JobSucceeded?
  }

  // A job is let run only when all its dependencies have succeeded.
  ghost predicate Ordered(jobs: Jobs) {
    forall j, d :: j in jobs && d in jobs[j].spec.deps && Started(jobs[j].state) ==>
      d in jobs && jobs[d].state.JobSucceeded?
  }

  // Some dependency of a waiting job is yet to succeed.
  ghost predicate Held(jobs: Jobs, j: JobID)
    requires j in jobs
  {
    exists d :: d in jobs[j].spec.deps && d in jobs && !jobs[d].state.JobSucceeded?
  }

  // No dependency of `j`, other than `root`, has ended without success.
  ghost predicate Hopeful(jobs: Jobs, j: JobID, root: Option<JobID>)
    requires j in jobs
  {
    forall d :: d in jobs[j].spec.deps && Some(d) != root && d in jobs ==> !jobs[d].state.Doomed()
  }

  ghost predicate Waiting(jobs: Jobs) {
    forall j {:trigger Held(jobs, j)} :: j in jobs && jobs[j].state.JobWaiting? ==>
      Held(jobs, j) && Hopeful(jobs, j, None)
  }

  ghost predicate Dependencies(jobs: Jobs) {
    Layered(jobs) && Ordered(jobs) && Waiting(jobs)
  }

  // A session that has ended owns no unfinished job.
  ghost predicate Owned(jobs: Jobs, sessions: Sessions) {
    forall j :: j in jobs && jobs[j].spec.session.Some? ==>
      && jobs[j].spec.session.value in sessions
      && (sessions[jobs[j].spec.session.value].state.Terminal() ==> jobs[j].state.Terminal())
  }

  /** Reservations never run ahead of the session's epoch, and an active session is
      served by a worker that holds its reservation at its epoch; no other unfinished
      session names a worker. */
  ghost predicate Reserved(workers: Workers, sessions: Sessions) {
    && (forall w :: w in workers && workers[w].reserved.Some? ==>
          && workers[w].reserved.value in sessions
          && !sessions[workers[w].reserved.value].state.SessionPending?
          && workers[w].epoch <= sessions[workers[w].reserved.value].epoch)
    && (forall s :: s in sessions && sessions[s].state.SessionActive? ==> Serves(workers, sessions, s))
    && (forall s :: s in sessions && (sessions[s].state.SessionPending? || sessions[s].state.SessionRecovering?) ==>
          sessions[s].worker.None?)
  }

  ghost predicate Serves(workers: Workers, sessions: Sessions, s: SessionID)
    requires s in sessions
  {
    && sessions[s].worker.Some?
    && sessions[s].worker.value in workers
    && var w := workers[sessions[s].worker.value];
    && w.reserved == Some(s)
    && w.epoch == sessions[s].epoch
    && sessions[s].box == Some(w.spec.box)
  }

  ghost predicate Capped(workers: Workers, attempts: Attempts) {
    && (forall w :: w in workers ==> 0 <= workers[w].freeSlots <= workers[w].spec.maxSlots && 0 < workers[w].spec.maxSlots)
    && (forall w :: w in workers ==> |ActiveOf(attempts, w)| <= workers[w].spec.maxSlots)
    && (forall a :: a in attempts ==> attempts[a].worker in workers)
  }

  /** Rebuild jobs are exactly what the recovery controller enqueues: one chain per
      session and epoch, keyed by the session's plan. Keys are unique, but a client's
      job may hold the key of a rebuild step. */
  ghost predicate Planned(jobs: Jobs, sessions: Sessions) {
    && (forall j :: j in jobs && j.Rebuild? ==>
          && j.session in sessions
          && !sessions[j.session].state.SessionPending?
          && jobs[j].spec.session == Some(j.session)
          && sessions[j.session].spec.policy.RecoveryRebuild?
          && j.epoch <= sessions[j.session].epoch
          && j.step < |sessions[j.session].spec.plan|
          && jobs[j].spec.key == Some(RebuildKey(j.session, j.epoch, sessions[j.session].spec.plan[j.step]))
          && jobs[j].spec.deps == (if j.step == 0 then {} else {Rebuild(j.session, j.epoch, j.step - 1)}))
    && (forall j :: j in jobs ==> jobs[j].spec.view.id == j)
    && (forall j, k :: j in jobs && k in jobs && jobs[j].spec.key.Some? && jobs[j].spec.key == jobs[k].spec.key ==> j == k)
  }

  ghost predicate Inv(db: DB) {
    && Numbered(db.jobs, db.attempts)
    && Coherent(db.jobs, db.attempts, db.leases)
    && Credited(db.jobs, db.attempts)
    && Dependencies(db.jobs)
    && Owned(db.jobs, db.sessions)
    && Reserved(db.workers, db.sessions)
    && Capped(db.workers, db.attempts)
    && Planned(db.jobs, db.sessions)
  }
}
