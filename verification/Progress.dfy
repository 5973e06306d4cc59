/** How jobs and attempts change from one commit to the next: along the edges of
    the domain's transition tables, and never again once a job is terminal. */
module Progress {
  import opened Domain
  import opened Tables
  import opened Transactions
  import opened Invariants
  import opened Settlement
  import opened DependencyGraph
  import opened Endings

  predicate JobMoves(x: Job, y: Job) {
    && y.spec == x.spec
    && CanMove(x.state, y.state)
    && x.log <= y.log
    && (x.state.Terminal() ==> y == x)
    && (x.state.Unstarted() && y.state == x.state ==> y == x)
    && (x.state.JobQueued? && y.state.JobLeased? ==> y == x.(state := JobLeased, updated := y.updated))
  }

  predicate AttemptMoves(x: Attempt, y: Attempt) {
    y == x || (y.worker == x.worker && y.box == x.box && CanAttemptTransition(x.state, y.state))
  }

  /** What Job.AddAttempt asks of a new attempt: the job is not terminal, no attempt
      of it is active, the number is the next one, and the attempt starts leased. */
  ghost predicate Accepts(db: DB, a: AttemptID, jobs': Jobs, attempts': Attempts, leases': Leases)
    requires a in attempts'
  {
    && a.job in db.jobs && db.jobs[a.job].state.JobQueued?
    && (forall b :: Live(db.attempts, b) ==> b.job != a.job)
    && a.number == MaxNumber(db.attempts.Keys, a.job) + 1
    && attempts'[a].state.AttemptLeased?
    && a in leases'
    && a.job in jobs' && jobs'[a.job].state.JobLeased?
  }

  ghost predicate MovesTo(db: DB, jobs': Jobs, attempts': Attempts, leases': Leases) {
    && (forall j :: j in db.jobs ==> j in jobs' && JobMoves(db.jobs[j], jobs'[j]))
    && (forall a :: a in db.attempts ==> a in attempts' && AttemptMoves(db.attempts[a], attempts'[a]))
    && (forall a :: a in attempts' && a !in db.attempts ==> Accepts(db, a, jobs', attempts', leases'))
    && (forall j :: j in db.jobs && db.jobs[j].state.JobQueued? && jobs'[j].state.JobLeased? ==>
          Latest(attempts', j) !in db.attempts && Latest(attempts', j) in attempts')
  }

  /** One committed transaction. */
  ghost predicate Moves(db: DB, db': DB) {
    MovesTo(db, db'.jobs, db'.attempts, db'.leases)
  }

  /** Part of a transaction that ends jobs: each job is as it was at the start, or has
      left the states in which an ending can find it. */
  predicate JobSwept(x: Job, y: Job) {
    || y == x
    || (&& JobMoves(x, y) && !x.state.Terminal() && !y.state.JobLeased? && !y.state.JobWaiting?
        && y.result == x.result && OnRecord(y))
  }

  // The last event of a job that has ended says how.
  predicate OnRecord(y: Job) {
    y.state.Terminal() ==> y.log != [] && Records(y.log[|y.log| - 1], y.state)
  }

  ghost predicate Swept(db: DB, db': DB) {
    && db'.jobs.Keys == db.jobs.Keys
    && (forall j :: j in db.jobs ==> JobSwept(db.jobs[j], db'.jobs[j]))
    && db'.attempts.Keys == db.attempts.Keys
    && (forall a :: a in db.attempts ==> AttemptMoves(db.attempts[a], db'.attempts[a]))
  }

  lemma SweptMoves(db: DB, db': DB)
    requires Swept(db, db')
    ensures Moves(db, db')
  {
  }

  // What the end of one job does to any other row.
  predicate Touched(x: Job, y: Job) {
    || y == x
    || (&& x.state.JobWaiting? && y.spec == x.spec && y.result == x.result && x.log <= y.log && OnRecord(y)
        && (y.state.JobQueued? || y.state.JobDependencyFailed?))
  }

  ghost predicate TouchedBut(jobs: Jobs, after: Jobs, j: JobID) {
    after.Keys == jobs.Keys && forall k :: k in jobs && k != j ==> Touched(jobs[k], after[k])
  }

  lemma SettleTouches(jobs: Jobs, j: JobID, at: Time)
    requires j in jobs && Ordered(jobs) && !jobs[j].state.JobWaiting?
    ensures TouchedBut(jobs, Settle(jobs, j, at), j)
  {
    var after := Settle(jobs, j, at);
    forall k | k in jobs && after[k] != jobs[k] ensures jobs[k].state.JobWaiting? {
      if jobs[j].state.Doomed() {
        DownstreamWaits(jobs, j, k);
      }
    }
  }

  lemma EndsTouches(db: DB, db': DB, j: JobID, row: Job, active: Option<AttemptID>, y: Attempt, at: Time)
    requires Ends(db, db', j, row, active, y, at)
    requires Coherent(db.jobs, db.attempts, db.leases) && Layered(db.jobs) && Ordered(db.jobs)
    ensures TouchedBut(db.jobs, db'.jobs, j) && db'.jobs[j] == row
  {
    EndsOrdered(db, db', j, row, active, y, at);
    EndsJobs(db, db', j, row, active, y, at);
    TouchedAfter(db.jobs, j, row, at);
  }

  lemma EndsOrdered(db: DB, db': DB, j: JobID, row: Job, active: Option<AttemptID>, y: Attempt, at: Time)
    requires Ends(db, db', j, row, active, y, at)
    requires Coherent(db.jobs, db.attempts, db.leases) && Layered(db.jobs) && Ordered(db.jobs)
    ensures Ordered(db.jobs[j := row]) && !row.state.JobWaiting?
  {
    ActiveIsLatest(db.jobs, db.attempts, db.leases, j);
    NewRowOrdered(db.jobs, j, row);
  }

  lemma NewRowOrdered(jobs: Jobs, j: JobID, row: Job)
    requires Layered(jobs) && Ordered(jobs) && j in jobs && row.spec == jobs[j].spec
    requires jobs[j].state.JobSucceeded? ==> row.state.JobSucceeded?
    requires Started(row.state) ==> Started(jobs[j].state)
    ensures Ordered(jobs[j := row])
  {
    KeepsOrdered(jobs, jobs[j := row]);
  }

  lemma TouchedAfter(jobs: Jobs, j: JobID, row: Job, at: Time)
    requires j in jobs && Ordered(jobs[j := row]) && !row.state.JobWaiting?
    ensures TouchedBut(jobs, Settle(jobs[j := row], j, at), j)
  {
    SettleTouches(jobs[j := row], j, at);
    assert jobs[j := row].Keys == jobs.Keys;
  }

  lemma TouchedSwept(s: Job, x: Job, y: Job)
    requires JobSwept(s, x) && Touched(x, y)
    ensures JobSwept(s, y)
  {
  }

  lemma EndsSweepsAttempts(start: DB, db: DB, db': DB, j: JobID, row: Job, active: Option<AttemptID>, y: Attempt, at: Time)
    requires Swept(start, db) && Ends(db, db', j, row, active, y, at)
    ensures db'.attempts.Keys == start.attempts.Keys
    ensures forall a :: a in start.attempts ==> AttemptMoves(start.attempts[a], db'.attempts[a])
  {
    assert db'.attempts.Keys == db.attempts.Keys;
  }

  /** Each iteration of a sweep continues it. */
  lemma EndsSweeps(start: DB, db: DB, db': DB, j: JobID, row: Job, active: Option<AttemptID>, y: Attempt, at: Time)
    requires Swept(start, db) && Ends(db, db', j, row, active, y, at) && TouchedBut(db.jobs, db'.jobs, j) && db'.jobs[j] == row
    requires !start.jobs[j].state.Terminal() && CanMove(start.jobs[j].state, row.state)
    requires !row.state.JobLeased? && !row.state.JobWaiting? && (start.jobs[j].state.JobQueued? ==> !row.state.JobQueued?)
    requires db.jobs[j].log <= row.log && row.result == db.jobs[j].result && OnRecord(row)
    ensures Swept(start, db')
  {
    EndsSweepsAttempts(start, db, db', j, row, active, y, at);
    forall k | k in start.jobs ensures JobSwept(start.jobs[k], db'.jobs[k]) {
      if k == j {
        assert start.jobs[k].log <= db.jobs[k].log <= row.log;
      } else {
        TouchedSwept(start.jobs[k], db.jobs[k], db'.jobs[k]);
      }
    }
  }

  lemma SweptSelf(db: DB)
    ensures Swept(db, db)
  {
  }

  // What the sweeps below rely on.
  ghost predicate Sound(db: DB) {
    Base(db) && Layered(db.jobs) && Ordered(db.jobs)
  }

  lemma CancelMoves(db: DB, j: JobID, at: Time)
    requires Sound(db)
    ensures Moves(db, Cancel(db, j, at).db)
  {
    var db' := Cancel(db, j, at).db;
    SweptSelf(db);
    if j in db.jobs && !db.jobs[j].state.Terminal() {
      var row, active := CancelEnds(db, j, at);
      EndsTouches(db, db', j, row, active, Ended(db'.attempts, active), at);
      EndsSweeps(db, db, db', j, row, active, Ended(db'.attempts, active), at);
    }
    SweptMoves(db, db');
  }

  lemma CompleteMoves(db: DB, w: WorkerID, a: AttemptID, c: Completion, at: Time)
    requires Sound(db)
    ensures Moves(db, Complete(db, w, a, c, at).db)
  {
    var db' := Complete(db, w, a, c, at).db;
    SweptSelf(db);
    if Complete(db, w, a, c, at).err == Ok {
      var row := CompleteEnds(db, w, a, c, at);
      EndsTouches(db, db', a.job, row, Some(a), Ended(db'.attempts, Some(a)), at);
      EndsSweeps(db, db, db', a.job, row, Some(a), Ended(db'.attempts, Some(a)), at);
    }
    SweptMoves(db, db');
  }

  // One iteration of expireLeases, in a sweep that began at `start`.
  lemma ExpireSweeps(start: DB, db: DB, a: AttemptID, now: Time)
    requires Sound(db) && Swept(start, db)
    ensures Swept(start, Expire(db, a, now))
  {
    if Live(db.attempts, a) {
      var row := ExpireEnds(db, a, now);
      assert db.jobs[a.job] == start.jobs[a.job];
      var db' := Expire(db, a, now);
      EndsTouches(db, db', a.job, row, Some(a), Ended(db'.attempts, Some(a)), now);
      EndsSweeps(start, db, db', a.job, row, Some(a), Ended(db'.attempts, Some(a)), now);
    }
  }

  lemma {:induction false} ExpireAllSweeps(db: DB, ids: seq<AttemptID>, now: Time)
    requires Inv(db)
    ensures Inv(ExpireAll(db, ids, now)) && Swept(db, ExpireAll(db, ids, now))
    decreases |ids|
  {
    if ids == [] {
      SweptSelf(db);
    } else {
      ExpireAllSweeps(db, ids[..|ids| - 1], now);
      ExpireSweeps(db, ExpireAll(db, ids[..|ids| - 1], now), ids[|ids| - 1], now);
      ExpireKeepsInv(ExpireAll(db, ids[..|ids| - 1], now), ids[|ids| - 1], now);
    }
  }

  /** One iteration of TimeoutJobs. The job may already have failed with a dependency
      in the same transaction; what counts is where it stood at the start. */
  lemma TimeOutSweeps(start: DB, db: DB, j: JobID, now: Time)
    requires Sound(db) && Swept(start, db) && j in start.jobs && !start.jobs[j].state.Terminal()
    requires !db.jobs[j].state.JobSucceeded?
    ensures Swept(start, TimeOut(db, j, now))
    ensures forall k :: k in db.jobs && TimeOut(db, j, now).jobs[k].state.JobSucceeded? ==> db.jobs[k].state.JobSucceeded?
  {
    var row, active := TimeOutEnds(db, j, now);
    var db' := TimeOut(db, j, now);
    EndsTouches(db, db', j, row, active, Ended(db'.attempts, active), now);
    EndsSweeps(start, db, db', j, row, active, Ended(db'.attempts, active), now);
  }

  lemma {:induction false} TimeOutAllSweeps(db: DB, ids: seq<JobID>, now: Time)
    requires Inv(db) && forall j :: j in ids ==> j in db.jobs && !db.jobs[j].state.Terminal()
    ensures var db' := TimeOutAll(db, ids, now);
      && Inv(db') && Swept(db, db')
      && forall k :: k in db.jobs && db'.jobs[k].state.JobSucceeded? ==> db.jobs[k].state.JobSucceeded?
    decreases |ids|
  {
    if ids == [] {
      SweptSelf(db);
    } else {
      TimeOutAllSweeps(db, ids[..|ids| - 1], now);
      TimeOutSweeps(db, TimeOutAll(db, ids[..|ids| - 1], now), ids[|ids| - 1], now);
      TimeOutKeepsInv(TimeOutAll(db, ids[..|ids| - 1], now), ids[|ids| - 1], now);
    }
  }
}
