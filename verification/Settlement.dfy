/** The transactions that end attempts and jobs, seen as one relation between the
    tables before and after, and the invariants that this relation keeps. */
module Settlement {
  import opened Domain
  import opened Tables
  import opened Invariants

  predicate JobSettles(s: JobState, t: JobState) {
    || s == t
    || (s.JobWaiting? && t.JobQueued?)
    || (!s.JobLeased? && !s.JobSucceeded? && t.Doomed())
    || (s.JobLeased? && (t.JobQueued? || t.Terminal()))
  }

  predicate AttemptSettles(x: Attempt, y: Attempt) {
    x == y || (x.state.Active() && y.state.Terminal() && y.worker == x.worker && y.box == x.box)
  }

  ghost predicate JobsSettle(jobs: Jobs, jobs': Jobs) {
    && jobs'.Keys == jobs.Keys
    && (forall j :: j in jobs ==> jobs'[j].spec == jobs[j].spec && JobSettles(jobs[j].state, jobs'[j].state))
  }

  ghost predicate AttemptsSettle(attempts: Attempts, attempts': Attempts) {
    && attempts'.Keys == attempts.Keys
    && (forall a :: a in attempts ==> AttemptSettles(attempts[a], attempts'[a]))
  }

  ghost predicate LeasesSettle(leases: Leases, attempts': Attempts, leases': Leases) {
    && (forall a :: a in leases' <==> a in leases && Live(attempts', a))
    && (forall a :: a in leases' ==> leases'[a].worker == leases[a].worker)
  }

  // A leased job and its active attempt end together.
  ghost predicate InStep(jobs: Jobs, attempts: Attempts, jobs': Jobs, attempts': Attempts)
    requires jobs'.Keys == jobs.Keys && attempts'.Keys == attempts.Keys
  {
    forall j :: j in jobs && jobs[j].state.JobLeased? && Latest(attempts, j) in attempts ==>
      var a := Latest(attempts, j);
      && (attempts'[a].state.Active() <==> jobs'[j].state.JobLeased?)
      && (attempts'[a].state.AttemptSucceeded? <==> jobs'[j].state.JobSucceeded?)
      && (jobs'[j].state.JobQueued? ==> a.number < jobs[j].spec.maxAttempts)
  }

  ghost predicate Settles(db: DB, db': DB) {
    && JobsSettle(db.jobs, db'.jobs)
    && AttemptsSettle(db.attempts, db'.attempts)
    && LeasesSettle(db.leases, db'.attempts, db'.leases)
    && InStep(db.jobs, db.attempts, db'.jobs, db'.attempts)
  }

  lemma KeepsCoherent(db: DB, db': DB)
    requires Coherent(db.jobs, db.attempts, db.leases) && Settles(db, db')
    ensures Coherent(db'.jobs, db'.attempts, db'.leases)
  {
    forall a | Live(db'.attempts, a)
      ensures a == Latest(db'.attempts, a.job) && a.job in db'.jobs && db'.jobs[a.job].state.JobLeased?
    {
      assert Live(db.attempts, a);
    }
    forall j | j in db'.jobs && db'.jobs[j].state.JobLeased?
      ensures Live(db'.attempts, Latest(db'.attempts, j))
    {
      assert db.jobs[j].state.JobLeased?;
    }
  }

  lemma KeepsNumbered(db: DB, db': DB)
    requires Coherent(db.jobs, db.attempts, db.leases) && Numbered(db.jobs, db.attempts) && Settles(db, db')
    ensures Numbered(db'.jobs, db'.attempts)
  {
    forall a | a in db'.attempts && db'.jobs[a.job].state.JobQueued?
      ensures a.number < db'.jobs[a.job].spec.maxAttempts
    {
      RequeuedHasBudget(db, db', a);
    }
  }

  lemma RequeuedHasBudget(db: DB, db': DB, a: AttemptID)
    requires Coherent(db.jobs, db.attempts, db.leases) && Numbered(db.jobs, db.attempts) && Settles(db, db')
    requires a in db.attempts && db'.jobs[a.job].state.JobQueued?
    ensures a.number < db.jobs[a.job].spec.maxAttempts
  {
    if db.jobs[a.job].state.JobLeased? {
      assert Live(db.attempts, Latest(db.attempts, a.job));
    }
  }

  lemma KeepsCredited(db: DB, db': DB)
    requires Coherent(db.jobs, db.attempts, db.leases) && Credited(db.jobs, db.attempts) && Settles(db, db')
    ensures Credited(db'.jobs, db'.attempts)
  {
    forall a | a in db'.attempts && db'.attempts[a].state.AttemptSucceeded?
      ensures a == Latest(db'.attempts, a.job) && a.job in db'.jobs && db'.jobs[a.job].state.JobSucceeded?
    {
      if db.attempts[a].state.Active() {
        assert Live(db.attempts, a);
      }
    }
    forall j | j in db'.jobs && db'.jobs[j].state.JobSucceeded?
      ensures Latest(db'.attempts, j) in db'.attempts
              && db'.attempts[Latest(db'.attempts, j)].state.AttemptSucceeded?
    {
      if db.jobs[j].state.JobLeased? {
        assert Live(db.attempts, Latest(db.attempts, j));
      }
    }
  }

  // Ending attempts only lowers the load of the workers.
  lemma KeepsCapped(db: DB, db': DB)
    requires Capped(db.workers, db.attempts) && AttemptsSettle(db.attempts, db'.attempts)
    requires db'.workers.Keys == db.workers.Keys
    requires forall w :: w in db.workers ==>
      db'.workers[w].spec == db.workers[w].spec && 0 <= db'.workers[w].freeSlots <= db.workers[w].spec.maxSlots
    ensures Capped(db'.workers, db'.attempts)
  {
    forall w | w in db'.workers ensures |ActiveOf(db'.attempts, w)| <= db'.workers[w].spec.maxSlots {
      SmallerSet(ActiveOf(db'.attempts, w), ActiveOf(db.attempts, w));
    }
  }

  lemma KeepsOwned(jobs: Jobs, jobs': Jobs, sessions: Sessions, sessions': Sessions)
    requires Owned(jobs, sessions) && JobsSettle(jobs, jobs')
    requires sessions.Keys <= sessions'.Keys
    requires forall s :: s in sessions && sessions'[s].state.Terminal() ==> sessions[s].state.Terminal()
    ensures Owned(jobs', sessions')
  {
  }

  lemma KeepsPlanned(jobs: Jobs, jobs': Jobs, sessions: Sessions, sessions': Sessions)
    requires Planned(jobs, sessions)
    requires jobs'.Keys == jobs.Keys && forall j :: j in jobs ==> jobs'[j].spec == jobs[j].spec
    requires sessions.Keys <= sessions'.Keys
    requires forall s :: s in sessions ==>
      && sessions'[s].spec == sessions[s].spec && sessions[s].epoch <= sessions'[s].epoch
      && (sessions'[s].state.SessionPending? ==> sessions[s].state.SessionPending?)
    ensures Planned(jobs', sessions')
  {
  }
}
