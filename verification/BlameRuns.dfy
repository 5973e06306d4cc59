/** A job fails with a dependency only when it has one that failed. */
module BlameRuns {
  import opened Domain
  import opened Tables
  import opened Transactions
  import opened Invariants
  import opened Endings
  import opened JobSteps
  import opened Progress
  import opened Protocol
  import opened Safety
  import opened Steps
  import opened Leasing
  import opened OutcomeRuns

  // A dependency of `j` has ended without success.
  ghost predicate Betrayed(jobs: Jobs, j: JobID)
    requires j in jobs
  {
    exists d :: d in jobs[j].spec.deps && d in jobs && jobs[d].state.Doomed()
  }

  ghost predicate Blamed(jobs: Jobs) {
    forall j {:trigger Betrayed(jobs, j)} :: j in jobs && jobs[j].state.JobDependencyFailed? ==> Betrayed(jobs, j)
  }

  // Steps that fail no dependent.
  lemma KeepsBlamed(jobs: Jobs, jobs': Jobs)
    requires Blamed(jobs)
    requires forall j :: j in jobs ==>
      j in jobs' && jobs'[j].spec == jobs[j].spec && (jobs[j].state.Doomed() ==> jobs'[j].state.Doomed())
    requires forall j :: j in jobs' && jobs'[j].state.JobDependencyFailed? ==> j in jobs && jobs[j].state.JobDependencyFailed?
    ensures Blamed(jobs')
  {
    forall j | j in jobs' && jobs'[j].state.JobDependencyFailed? ensures Betrayed(jobs', j) {
      assert Betrayed(jobs, j);
      var d :| d in jobs[j].spec.deps && d in jobs && jobs[d].state.Doomed();
      assert d in jobs'[j].spec.deps && d in jobs' && jobs'[d].state.Doomed();
    }
  }

  lemma FailDownstreamBlames(jobs: Jobs, root: JobID, at: Time)
    requires Blamed(jobs) && root in jobs && jobs[root].state.Doomed()
    ensures Blamed(FailDownstream(jobs, root, at))
  {
    var after := FailDownstream(jobs, root, at);
    forall j | j in after && after[j].state.JobDependencyFailed? ensures Betrayed(after, j) {
      if Downstream(jobs, root, j) {
        var d :| d in jobs[j].spec.deps && DownstreamVia(jobs, root, j, d);
        assert d in after[j].spec.deps && d in after && after[d].state.Doomed();
      } else {
        assert Betrayed(jobs, j);
        var d :| d in jobs[j].spec.deps && d in jobs && jobs[d].state.Doomed();
        assert d in after[j].spec.deps && d in after && after[d].state.Doomed();
      }
    }
  }

  lemma SettleBlames(jobs: Jobs, j: JobID, at: Time)
    requires Blamed(jobs) && j in jobs
    ensures Blamed(Settle(jobs, j, at))
  {
    if jobs[j].state.Doomed() {
      FailDownstreamBlames(jobs, j, at);
    } else if jobs[j].state.JobSucceeded? {
      KeepsBlamed(jobs, Promote(jobs, j, at));
    }
  }

  lemma EndsBlames(db: DB, db': DB, j: JobID, row: Job, active: Option<AttemptID>, y: Attempt, at: Time)
    requires Ends(db, db', j, row, active, y, at) && Coherent(db.jobs, db.attempts, db.leases) && Blamed(db.jobs)
    requires !row.state.JobDependencyFailed?
    ensures Blamed(db'.jobs)
  {
    ActiveIsLatest(db.jobs, db.attempts, db.leases, j);
    KeepsBlamed(db.jobs, db.jobs[j := row]);
    SettleBlames(db.jobs[j := row], j, at);
  }

  lemma CancelBlames(db: DB, j: JobID, at: Time)
    requires Base(db) && Blamed(db.jobs)
    ensures Blamed(Cancel(db, j, at).db.jobs)
  {
    if j in db.jobs && !db.jobs[j].state.Terminal() {
      var row, active := CancelEnds(db, j, at);
      var db' := Cancel(db, j, at).db;
      EndsBlames(db, db', j, row, active, Ended(db'.attempts, active), at);
    }
  }

  lemma CompleteBlames(db: DB, w: WorkerID, a: AttemptID, c: Completion, at: Time)
    requires Base(db) && Blamed(db.jobs)
    ensures Blamed(Complete(db, w, a, c, at).db.jobs)
  {
    if Complete(db, w, a, c, at).err == Ok {
      var row := CompleteEnds(db, w, a, c, at);
      var db' := Complete(db, w, a, c, at).db;
      EndsBlames(db, db', a.job, row, Some(a), Ended(db'.attempts, Some(a)), at);
    }
  }

  lemma ExpireBlames(db: DB, a: AttemptID, now: Time)
    requires Base(db) && Blamed(db.jobs)
    ensures Blamed(Expire(db, a, now).jobs)
  {
    if Live(db.attempts, a) {
      var row := ExpireEnds(db, a, now);
      var db' := Expire(db, a, now);
      EndsBlames(db, db', a.job, row, Some(a), Ended(db'.attempts, Some(a)), now);
    }
  }

  lemma TimeOutBlames(db: DB, j: JobID, now: Time)
    requires Base(db) && Blamed(db.jobs) && j in db.jobs && !db.jobs[j].state.JobSucceeded?
    ensures Blamed(TimeOut(db, j, now).jobs)
  {
    var row, active := TimeOutEnds(db, j, now);
    var db' := TimeOut(db, j, now);
    EndsBlames(db, db', j, row, active, Ended(db'.attempts, active), now);
  }

  lemma {:induction false} ExpireAllBlames(db: DB, ids: seq<AttemptID>, now: Time)
    requires Inv(db) && Blamed(db.jobs)
    ensures Blamed(ExpireAll(db, ids, now).jobs)
    decreases |ids|
  {
    if ids != [] {
      var init := ids[..|ids| - 1];
      ExpireAllBlames(db, init, now);
      assert Base(ExpireAll(db, init, now)) by { ExpireAllSweeps(db, init, now); }
      ExpireBlames(ExpireAll(db, init, now), ids[|ids| - 1], now);
    }
  }

  lemma {:induction false} TimeOutAllBlames(db: DB, ids: seq<JobID>, now: Time)
    requires Inv(db) && Blamed(db.jobs) && forall j :: j in ids ==> j in db.jobs && !db.jobs[j].state.Terminal()
    ensures Blamed(TimeOutAll(db, ids, now).jobs)
    decreases |ids|
  {
    if ids != [] {
      var init, j := ids[..|ids| - 1], ids[|ids| - 1];
      var cur := TimeOutAll(db, init, now);
      TimeOutAllBlames(db, init, now);
      assert Base(cur) && !cur.jobs[j].state.JobSucceeded? by { TimeOutAllSweeps(db, init, now); }
      TimeOutBlames(cur, j, now);
    }
  }

  lemma SessionBlames(db: DB, db': DB)
    requires Outgrows(db, db') && Blamed(db.jobs)
    ensures Blamed(db'.jobs)
  {
    OutgrowsMoves(db, db');
    KeepsBlamed(db.jobs, db'.jobs);
  }

  lemma ReportBlames(db: DB, w: WorkerID, act: WorkerAct)
    requires Sound(db) && Blamed(db.jobs) && !act.ClaimJob? && !act.CompleteJob?
    ensures Blamed(Act(db, w, act).jobs)
  {
    ReportQuiet(db, w, act);
    ReportMoves(db, w, act);
    KeepsBlamed(db.jobs, Act(db, w, act).jobs);
  }

  lemma ClaimBlames(db: DB, w: WorkerID, ranked: seq<JobID>, now: Time, duration: int, hash: nat)
    requires Blamed(db.jobs) && forall j :: j in ranked ==> j in db.jobs && db.jobs[j].state.JobQueued?
    ensures Blamed(Claim(db, w, ranked, now, duration, hash).db.jobs)
  {
    KeepsBlamed(db.jobs, Claim(db, w, ranked, now, duration, hash).db.jobs);
  }

  lemma CreateBlames(db: DB, r: NewJob)
    requires Blamed(db.jobs)
    ensures Blamed(CreateJob(db, r).db.jobs)
  {
    CreateAdds(db, r);
    if r.id !in db.jobs {
      KeepsBlamed(db.jobs, db.jobs[r.id := NewRow(db, r)]);
    }
  }

  lemma WorkerStepBlames(db: DB, w: WorkerID, act: WorkerAct)
    requires Sound(db) && Blamed(db.jobs) && Enabled(db, FromWorker(w, act))
    ensures Blamed(Apply(db, FromWorker(w, act)).jobs)
  {
    if act.ClaimJob? {
      RankingRespectsLoad(db, w, act.config, act.ranked, act.now);
      ClaimBlames(db, w, act.ranked, act.now, act.duration, act.hash);
    } else if act.CompleteJob? {
      CompleteBlames(db, w, act.a, act.completion, act.now);
    } else {
      ReportBlames(db, w, act);
    }
  }

  lemma SweepBlames(db: DB, l: Label)
    requires Inv(db) && Blamed(db.jobs) && Enabled(db, l) && (IsExpiry(l) || l.TimeoutJobs?)
    ensures Blamed(Apply(db, l).jobs)
  {
    if IsExpiry(l) {
      ExpireAllBlames(db, l.due, l.at);
    } else {
      TimeOutAllBlames(db, l.overdue, l.at);
    }
  }

  lemma StepBlames(db: DB, l: Label)
    requires Inv(db) && Blamed(db.jobs) && Enabled(db, l)
    ensures Blamed(Apply(db, l).jobs)
  {
    if OnSessions(l) {
      SessionStep(db, l);
      SessionBlames(db, Apply(db, l));
    } else if l.FromWorker? {
      WorkerStepBlames(db, l.w, l.act);
    } else if l.Submit? {
      CreateBlames(db, l.request);
    } else if l.CancelJob? {
      CancelBlames(db, l.job, l.at);
    } else {
      SweepBlames(db, l);
    }
  }

  lemma RunBlamed(states: seq<DB>, labels: seq<Label>, i: nat)
    requires IsRun(states, labels) && i < |states|
    ensures Blamed(states[i].jobs)
  {
    var keep := (db: DB) => Inv(db) && Blamed(db.jobs);
    forall db, l | keep(db) && Enabled(db, l) ensures keep(Apply(db, l)) {
      StepKeepsInv(db, l);
      StepBlames(db, l);
    }
    EmptyInv();
    RunInduction(keep, states, labels, i);
  }

  lemma RunDependencies(states: seq<DB>, labels: seq<Label>, i: nat)
    requires IsRun(states, labels) && i < |states|
    ensures Ordered(states[i].jobs) && Waiting(states[i].jobs)
    ensures forall j :: j in states[i].jobs ==> !states[i].jobs[j].state.JobRunning?
  {
    Reachable(states, labels, i);
  }

  /** In every reachable state, a job that failed with a dependency has one that ended
      without success; and a job with such a dependency has itself ended without success. */
  lemma FailsWithDependency(states: seq<DB>, labels: seq<Label>, i: nat, j: JobID)
    requires IsRun(states, labels) && i < |states| && j in states[i].jobs
    ensures states[i].jobs[j].state.JobDependencyFailed? ==> Betrayed(states[i].jobs, j)
    ensures Betrayed(states[i].jobs, j) ==> states[i].jobs[j].state.Doomed()
  {
    var jobs := states[i].jobs;
    RunBlamed(states, labels, i);
    RunDependencies(states, labels, i);
    if jobs[j].state.JobWaiting? {
      WaitingIsHopeful(jobs, j);
    }
  }

  lemma WaitingIsHopeful(jobs: Jobs, j: JobID)
    requires Waiting(jobs) && j in jobs && jobs[j].state.JobWaiting?
    ensures !Betrayed(jobs, j)
  {
    assert Held(jobs, j) && Hopeful(jobs, j, None);
  }
}
