/** What the end of an attempt decides: for every way in which one can end, the state of
    the attempt, of its job and of its worker afterwards. */
module Outcomes {
  import opened Domain
  import opened Tables
  import opened Transactions
  import opened Invariants
  import opened Endings
  import opened Progress
  import opened Protocol
  import opened Safety
  import opened JobRuns
  import B = Backoff

  // Counting attempts

  // The attempts that job `j` has had.
  function Made(attempts: Attempts, j: JobID): set<AttemptID> {
    set a | a in attempts && a.job == j
  }

  lemma {:induction false} MadeUpTo(j: JobID, k: nat)
    ensures |set n: nat | 1 <= n <= k :: AttemptID(j, n)| == k
  {
    var all := set n: nat | 1 <= n <= k :: AttemptID(j, n);
    if k > 0 {
      MadeUpTo(j, k - 1);
      assert all == (set n: nat | 1 <= n <= k - 1 :: AttemptID(j, n)) + {AttemptID(j, k)};
    } else {
      assert all == {};
    }
  }

  // Attempts are numbered without a gap, so the last number counts them.
  lemma MadeIsLast(db: DB, j: JobID)
    requires Paced(db) && j in db.jobs
    ensures |Made(db.attempts, j)| == MaxNumber(db.attempts.Keys, j) <= Allowance(db.jobs[j])
  {
    var k := MaxNumber(db.attempts.Keys, j);
    NumbersDense(db, j);
    MadeUpTo(j, k);
    assert Made(db.attempts, j) == set n: nat | 1 <= n <= k :: AttemptID(j, n);
  }

  // Rows

  predicate Passed(deadline: Option<Time>, at: Time) {
    deadline.Some? && deadline.value <= at
  }

  /** The row goes to another state and its log says so; only the time of a retry may
      change with it. */
  predicate Decided(x: Job, y: Job, at: Time) {
    && y.spec == x.spec && y.result == x.result && y.updated == at
    && |y.log| == |x.log| + 1 && x.log <= y.log && Records(y.log[|x.log|], y.state) && y.log[|x.log|].at == at
  }

  predicate AttemptEnds(x: Attempt, y: Attempt, to: AttemptState, failure: Option<Failure>, at: Time) {
    y == Attempt(x.worker, x.box, to, failure, Some(at), x.hash)
  }

  // One slot is free again, if it was not.
  predicate SlotsBack(x: Worker, y: Worker, n: nat) {
    && y == x.(freeSlots := y.freeSlots)
    && y.freeSlots == if x.freeSlots + n <= x.spec.maxSlots then x.freeSlots + n else x.spec.maxSlots
  }

  // Completion

  // By the worker of an active attempt, before its lease runs out.
  predicate InTime(db: DB, w: WorkerID, a: AttemptID, at: Time) {
    Live(db.attempts, a) && db.attempts[a].worker == w && a in db.leases && at < db.leases[a].expires
  }

  // The attempt ends, its lease is gone, and its worker gets the slot back.
  predicate CompletionCloses(db: DB, db': DB, w: WorkerID, a: AttemptID, c: Completion, at: Time) {
    && a in db.attempts && a in db'.attempts && w in db.workers && w in db'.workers
    && (c.Success? ==> AttemptEnds(db.attempts[a], db'.attempts[a], AttemptSucceeded, None, at))
    && (c.Failed? ==> AttemptEnds(db.attempts[a], db'.attempts[a], AttemptFailed, Some(c.failure), at))
    && db'.attempts == db.attempts[a := db'.attempts[a]]
    && db'.leases == db.leases - {a}
    && SlotsBack(db.workers[w], db'.workers[w], 1)
    && db'.workers == db.workers[w := db'.workers[w]]
  }

  /** A success ends the job. A failure sends it back to the queue exactly if it is
      retryable, fewer attempts were made than allowed, and the deadline is ahead. */
  ghost predicate CompletionDecides(x: Job, y: Job, made: nat, c: Completion, at: Time) {
    && Decided(x, y, at)
    && (y.state.JobSucceeded? || y.state.JobFailed? || y.state.JobQueued?)
    && (y.state.JobSucceeded? <==> c.Success?)
    && (y.state.JobQueued? <==>
          c.Failed? && c.failure.retryable && made < x.spec.maxAttempts && !Passed(x.spec.timeoutAt, at))
  }

  lemma CompletedRowDecides(job: Job, a: AttemptID, c: Completion, at: Time)
    ensures CompletionDecides(job, CompletedRow(job, a, c, at), a.number, c, at)
  {
  }

  lemma CompleteAccepts(db: DB, w: WorkerID, a: AttemptID, c: Completion, at: Time)
    requires Coherent(db.jobs, db.attempts, db.leases)
    ensures Complete(db, w, a, c, at).err == Ok <==> InTime(db, w, a, at)
    ensures Complete(db, w, a, c, at).err != Ok ==> Complete(db, w, a, c, at).db == db
  {
    if Live(db.attempts, a) {
      assert a == Latest(db.attempts, a.job);
    }
  }

  lemma CompleteCloses(db: DB, w: WorkerID, a: AttemptID, c: Completion, at: Time)
    requires Capped(db.workers, db.attempts) && Complete(db, w, a, c, at).err == Ok
    ensures CompletionCloses(db, Complete(db, w, a, c, at).db, w, a, c, at)
  {
  }

  lemma CompleteDecides(db: DB, w: WorkerID, a: AttemptID, c: Completion, at: Time)
    requires Sound(db) && Numbered(db.jobs, db.attempts) && Complete(db, w, a, c, at).err == Ok
    ensures var db' := Complete(db, w, a, c, at).db;
      && a.job in db.jobs && TouchedBut(db.jobs, db'.jobs, a.job)
      && CompletionDecides(db.jobs[a.job], db'.jobs[a.job], |Made(db.attempts, a.job)|, c, at)
  {
    CompleteTouches(db, w, a, c, at);
    CompleteWrites(db, w, a, c, at);
    CompletedRowDecides(db.jobs[a.job], a, c, at);
    MadeIsLast(db, a.job);
    assert Live(db.attempts, a);
  }

  lemma CompleteTouches(db: DB, w: WorkerID, a: AttemptID, c: Completion, at: Time)
    requires Sound(db) && Complete(db, w, a, c, at).err == Ok
    ensures TouchedBut(db.jobs, Complete(db, w, a, c, at).db.jobs, a.job)
  {
    var db' := Complete(db, w, a, c, at).db;
    var row := CompleteEnds(db, w, a, c, at);
    EndsTouches(db, db', a.job, row, Some(a), Ended(db'.attempts, Some(a)), at);
  }

  lemma CompleteWrites(db: DB, w: WorkerID, a: AttemptID, c: Completion, at: Time)
    requires Base(db) && Complete(db, w, a, c, at).err == Ok
    ensures a.job in db.jobs && Complete(db, w, a, c, at).db.jobs[a.job] == CompletedRow(db.jobs[a.job], a, c, at)
  {
    var row := CompletedRow(db.jobs[a.job], a, c, at);
    assert Live(db.attempts, a);
    CompletedRowFits(db.jobs[a.job], a, c, at);
    SettleSettles(db.jobs[a.job := row], a.job, at);
  }

  // Expiry

  /** The delay of a retry: none without a backoff, and otherwise between d and d + d/4, where
      d doubles from the backoff up to its maximum, unless the 64-bit arithmetic overflows. */
  ghost predicate Waits(backoff: int, maximum: int, number: nat, hash: nat, delay: int) {
    && (backoff <= 0 ==> delay == 0)
    && (0 < backoff && B.IsInt64(backoff) && B.IsInt64(maximum) && hash <= 250 ==>
          var d := B.Undisturbed(backoff, maximum, number);
          && 0 < d
          && (d <= delay <= d + d / 4 <==> B.Safe(backoff, maximum, number, hash))
          && (1 <= number && 0 < maximum <= B.TWO56 ==>
                d <= delay <= d + d / 4 && d == Min(backoff * B.Pow2(number - 1), maximum)))
  }

  lemma DelayWaits(backoff: int, maximum: int, number: nat, hash: nat)
    ensures Waits(backoff, maximum, number, hash, B.RetryDelay(backoff, maximum, number, hash))
  {
    if 0 < backoff && B.IsInt64(backoff) && B.IsInt64(maximum) && hash <= 250 {
      B.DelaySound(backoff, maximum, number, hash);
      if 1 <= number && 0 < maximum <= B.TWO56 {
        B.UndisturbedIsMin(backoff, maximum, number);
        B.ClosedForm(backoff, maximum, number, hash);
      }
    }
  }

  /** A lapsed lease times the job out if its deadline has passed, and fails it if its
      attempts or its time are used up; otherwise the job is tried again after a delay. */
  ghost predicate ExpiryDecides(x: Job, y: Job, number: nat, hash: nat, at: Time) {
    && Decided(x, y, at)
    && (y.state.JobTimedOut? || y.state.JobFailed? || y.state.JobQueued?)
    && (y.state.JobTimedOut? <==> Passed(x.spec.timeoutAt, at))
    && (y.state.JobFailed? <==>
          && !Passed(x.spec.timeoutAt, at)
          && (x.spec.maxAttempts <= number || 0 < x.spec.maxElapsed <= at - x.spec.view.created))
    && (y.nextAt.Some? <==> y.state.JobQueued?)
    && (y.state.JobQueued? ==> Waits(x.spec.backoff, x.spec.maxBackoff, number, hash, y.nextAt.value - at))
  }

  lemma ExpiredRowDecides(job: Job, a: AttemptID, hash: nat, now: Time)
    requires job.state.JobLeased?
    ensures ExpiryDecides(job, ExpiredRow(job, a, hash, now), a.number, hash, now)
  {
    DelayWaits(job.spec.backoff, job.spec.maxBackoff, a.number, hash);
  }

  lemma ExpireWrites(db: DB, a: AttemptID, now: Time)
    requires Sound(db) && Live(db.attempts, a)
    ensures a.job in db.jobs && db.jobs[a.job].state.JobLeased? && a.job in Expire(db, a, now).jobs
    ensures Expire(db, a, now).jobs[a.job] == ExpiredRow(db.jobs[a.job], a, db.attempts[a].hash, now)
    ensures TouchedBut(db.jobs, Expire(db, a, now).jobs, a.job)
  {
    var db' := Expire(db, a, now);
    ActiveIsLatest(db.jobs, db.attempts, db.leases, a.job);
    ReturnSlotSame(db.workers, db.attempts, db.attempts[a].worker);
    ExpireShape(db, a, now);
    EndsTouches(db, db', a.job, ExpiredRow(db.jobs[a.job], a, db.attempts[a].hash, now), Some(a), Ended(db'.attempts, Some(a)), now);
  }

  // The sweep over the lapsed leases

  // Those of the attempts `gone` that were worker `w`'s.
  function Share(attempts: Attempts, gone: set<AttemptID>, w: WorkerID): set<AttemptID> {
    set a | a in gone && a in attempts && attempts[a].worker == w
  }

  predicate SlotsReturned(db: DB, gone: set<AttemptID>, workers': Workers) {
    && workers'.Keys == db.workers.Keys
    && forall w :: w in db.workers ==> SlotsBack(db.workers[w], workers'[w], |Share(db.attempts, gone, w)|)
  }

  // Exactly the attempts `gone` have ended, as `to`.
  predicate AllEnd(attempts: Attempts, gone: set<AttemptID>, attempts': Attempts, to: AttemptState, failure: Failure, at: Time) {
    && attempts'.Keys == attempts.Keys
    && (forall a :: a in attempts && a in gone ==> AttemptEnds(attempts[a], attempts'[a], to, Some(failure), at))
    && (forall a :: a in attempts && a !in gone ==> attempts'[a] == attempts[a])
  }

  /** The jobs of the attempts `gone` are decided; others are touched only as dependents. */
  ghost predicate Requeued(db: DB, gone: set<AttemptID>, jobs': Jobs, at: Time) {
    && jobs'.Keys == db.jobs.Keys
    && (forall a :: a in gone && a in db.attempts && a.job in db.jobs ==>
          ExpiryDecides(db.jobs[a.job], jobs'[a.job], a.number, db.attempts[a].hash, at))
    && (forall j :: j in db.jobs && (forall a :: a in gone ==> a.job != j) ==> Touched(db.jobs[j], jobs'[j]))
  }

  const LAPSED := Failure("lease_expired", true)

  // The attempts `gone` end and lose their leases, and their workers get the slots back.
  predicate WorkEnds(db: DB, gone: set<AttemptID>, db': DB, to: AttemptState, failure: Failure, at: Time) {
    && AllEnd(db.attempts, gone, db'.attempts, to, failure, at)
    && db'.leases == db.leases - gone
    && SlotsReturned(db, gone, db'.workers)
  }

  ghost predicate Reaped(db: DB, gone: set<AttemptID>, db': DB, at: Time) {
    WorkEnds(db, gone, db', AttemptExpired, LAPSED, at) && Requeued(db, gone, db'.jobs, at)
  }

  lemma OneSlotBack(db: DB, gone: set<AttemptID>, workers': Workers, a: AttemptID)
    requires SlotsReturned(db, gone, workers') && a in db.attempts && a !in gone
    ensures SlotsReturned(db, gone + {a}, ReturnSlot(workers', db.attempts[a].worker))
  {
    forall w | w in db.workers
      ensures SlotsBack(db.workers[w], ReturnSlot(workers', db.attempts[a].worker)[w], |Share(db.attempts, gone + {a}, w)|)
    {
      var few, more := Share(db.attempts, gone, w), Share(db.attempts, gone + {a}, w);
      assert more == if db.attempts[a].worker == w then few + {a} else few;
    }
  }

  lemma OneEnds(attempts: Attempts, gone: set<AttemptID>, attempts': Attempts, a: AttemptID, to: AttemptState, failure: Failure, at: Time)
    requires AllEnd(attempts, gone, attempts', to, failure, at) && a in attempts && a !in gone
    ensures AllEnd(attempts, gone + {a}, EndAttempt(attempts', a, to, Some(failure), at), to, failure, at)
  {
  }

  // One more attempt ends as `EndAttempt` and `ReturnSlot` have it.
  lemma OneMoreEnds(db: DB, gone: set<AttemptID>, cur: DB, a: AttemptID, db': DB, to: AttemptState, failure: Failure, at: Time)
    requires WorkEnds(db, gone, cur, to, failure, at) && a in db.attempts && a in cur.attempts && a !in gone
    requires db'.attempts == EndAttempt(cur.attempts, a, to, Some(failure), at) && db'.leases == cur.leases - {a}
    requires db'.workers == ReturnSlot(cur.workers, cur.attempts[a].worker)
    ensures WorkEnds(db, gone + {a}, db', to, failure, at)
  {
    OneEnds(db.attempts, gone, cur.attempts, a, to, failure, at);
    OneSlotBack(db, gone, cur.workers, a);
  }

  lemma NothingEnds(db: DB, to: AttemptState, failure: Failure, at: Time)
    requires Capped(db.workers, db.attempts)
    ensures WorkEnds(db, {}, db, to, failure, at)
  {
    forall w | w in db.workers ensures SlotsBack(db.workers[w], db.workers[w], |Share(db.attempts, {}, w)|) {
      assert Share(db.attempts, {}, w) == {};
    }
  }

  lemma OneRequeued(db: DB, gone: set<AttemptID>, jobs: Jobs, a: AttemptID, jobs': Jobs, at: Time)
    requires Requeued(db, gone, jobs, at) && a in db.attempts && a.job in db.jobs && a.job in jobs'
    requires TouchedBut(jobs, jobs', a.job) && forall b :: b in gone ==> b.job != a.job
    requires ExpiryDecides(db.jobs[a.job], jobs'[a.job], a.number, db.attempts[a].hash, at)
    ensures Requeued(db, gone + {a}, jobs', at)
  {
    forall b | b in gone + {a} && b in db.attempts && b.job in db.jobs
      ensures ExpiryDecides(db.jobs[b.job], jobs'[b.job], b.number, db.attempts[b].hash, at)
    {
      if b != a {
        assert jobs'[b.job] == jobs[b.job];
      }
    }
    forall j | j in db.jobs && (forall b :: b in gone + {a} ==> b.job != j) ensures Touched(db.jobs[j], jobs'[j]) {
      assert a in gone + {a} && j != a.job;
      assert Touched(db.jobs[j], jobs[j]) && Touched(jobs[j], jobs'[j]);
    }
  }

  // Every attempt that is gone was active, and no two were of one job.
  lemma ActiveAreApart(db: DB, gone: set<AttemptID>, a: AttemptID)
    requires Coherent(db.jobs, db.attempts, db.leases) && (forall b :: b in gone ==> Live(db.attempts, b))
    requires Live(db.attempts, a) && a !in gone
    ensures forall b :: b in gone ==> b.job != a.job
    ensures a.job in db.jobs && db.jobs[a.job].state.JobLeased?
  {
    forall b | b in gone ensures b.job != a.job {
      assert b == Latest(db.attempts, b.job) && a == Latest(db.attempts, a.job);
    }
  }

  lemma ExpireShows(db: DB, a: AttemptID, now: Time)
    requires Live(db.attempts, a) && a.job in db.jobs
    ensures var db' := Expire(db, a, now);
      && db'.attempts == EndAttempt(db.attempts, a, AttemptExpired, Some(LAPSED), now)
      && db'.leases == db.leases - {a}
      && db'.workers == ReturnSlot(db.workers, db.attempts[a].worker)
  {
  }

  // Attempt `a` is as it was at the start, and so is its job.
  predicate Untouched(db: DB, cur: DB, a: AttemptID) {
    && Live(db.attempts, a) && a in cur.attempts && cur.attempts[a] == db.attempts[a]
    && a.job in db.jobs && a.job in cur.jobs && cur.jobs[a.job] == db.jobs[a.job]
  }

  lemma UntouchedYet(db: DB, gone: set<AttemptID>, cur: DB, a: AttemptID, at: Time)
    requires Coherent(db.jobs, db.attempts, db.leases) && (forall b :: b in gone ==> Live(db.attempts, b))
    requires Live(db.attempts, a) && a !in gone && Reaped(db, gone, cur, at)
    ensures Untouched(db, cur, a) && forall b :: b in gone ==> b.job != a.job
  {
    ActiveAreApart(db, gone, a);
    assert Touched(db.jobs[a.job], cur.jobs[a.job]);
  }

  lemma ExpireRequeues(db: DB, gone: set<AttemptID>, cur: DB, a: AttemptID, at: Time)
    requires Requeued(db, gone, cur.jobs, at) && Sound(cur) && Untouched(db, cur, a) && forall b :: b in gone ==> b.job != a.job
    ensures Requeued(db, gone + {a}, Expire(cur, a, at).jobs, at)
  {
    ExpireWrites(cur, a, at);
    ExpiredRowDecides(cur.jobs[a.job], a, cur.attempts[a].hash, at);
    OneRequeued(db, gone, cur.jobs, a, Expire(cur, a, at).jobs, at);
  }

  lemma ExpireReaps(db: DB, gone: set<AttemptID>, cur: DB, a: AttemptID, at: Time)
    requires Reaped(db, gone, cur, at) && Untouched(db, cur, a) && a !in gone
    requires Requeued(db, gone + {a}, Expire(cur, a, at).jobs, at)
    ensures Reaped(db, gone + {a}, Expire(cur, a, at), at)
  {
    ExpireShows(cur, a, at);
    OneMoreEnds(db, gone, cur, a, Expire(cur, a, at), AttemptExpired, LAPSED, at);
  }

  lemma NothingReaped(db: DB, at: Time)
    requires Capped(db.workers, db.attempts)
    ensures Reaped(db, {}, db, at)
  {
    NothingEnds(db, AttemptExpired, LAPSED, at);
  }

  function Elements<T>(xs: seq<T>): set<T> {
    set x | x in xs
  }

  lemma OneMore<T>(xs: seq<T>, k: nat)
    requires k < |xs|
    ensures xs[..k + 1][..k] == xs[..k] && Elements(xs[..k + 1]) == Elements(xs[..k]) + {xs[k]}
    ensures NoRepeats(xs) ==> xs[k] !in Elements(xs[..k])
  {
    assert xs[..k + 1] == xs[..k] + [xs[k]];
  }

  // The sweep has come to the `k`-th attempt.
  ghost predicate ReapedTo(db: DB, ids: seq<AttemptID>, k: nat, at: Time)
    requires k <= |ids|
  {
    Reaped(db, Elements(ids[..k]), ExpireAll(db, ids[..k], at), at)
  }

  lemma ReapNext(db: DB, ids: seq<AttemptID>, k: nat, at: Time)
    requires Coherent(db.jobs, db.attempts, db.leases) && NoRepeats(ids) && forall a :: a in ids ==> Live(db.attempts, a)
    requires k < |ids| && ReapedTo(db, ids, k, at) && Sound(ExpireAll(db, ids[..k], at))
    ensures ReapedTo(db, ids, k + 1, at)
  {
    var cur, gone, a := ExpireAll(db, ids[..k], at), Elements(ids[..k]), ids[k];
    OneMore(ids, k);
    UntouchedYet(db, gone, cur, a, at);
    ExpireRequeues(db, gone, cur, a, at);
    ExpireReaps(db, gone, cur, a, at);
    assert ExpireAll(db, ids[..k + 1], at) == Expire(cur, a, at);
  }

  lemma {:induction false} ReapAll(db: DB, ids: seq<AttemptID>, k: nat, at: Time)
    requires k <= |ids| && ReapedTo(db, ids, 0, at)
    requires forall n :: 0 <= n < |ids| && ReapedTo(db, ids, n, at) ==> ReapedTo(db, ids, n + 1, at)
    ensures ReapedTo(db, ids, k, at)
  {
    if k > 0 {
      ReapAll(db, ids, k - 1, at);
    }
  }

  lemma ExpireAllReaps(db: DB, ids: seq<AttemptID>, at: Time)
    requires Inv(db) && NoRepeats(ids) && forall a :: a in ids ==> Live(db.attempts, a)
    ensures Reaped(db, Elements(ids), ExpireAll(db, ids, at), at)
  {
    NothingReaped(db, at);
    assert ids[..0] == [] && Elements(ids[..0]) == {};
    forall n | 0 <= n < |ids| && ReapedTo(db, ids, n, at) ensures ReapedTo(db, ids, n + 1, at) {
      assert Sound(ExpireAll(db, ids[..n], at)) by { ExpireAllSweeps(db, ids[..n], at); }
      ReapNext(db, ids, n, at);
    }
    ReapAll(db, ids, |ids|, at);
    assert ids[..|ids|] == ids;
  }

  // Cancellation and timeout

  // The active attempts of the jobs `js`.
  function ActiveIn(attempts: Attempts, js: set<JobID>): set<AttemptID> {
    set a | a in attempts && a.job in js && attempts[a].state.Active()
  }

  // The row ends as `to` and is not retried; its log ends with an event that says so.
  predicate EndsAs(x: Job, y: Job, to: JobState, at: Time) {
    && y == x.(state := to, nextAt := None, updated := at, log := y.log)
    && x.log <= y.log && OnRecord(y)
  }

  const OVERDUE := Failure("job_timeout", false)
  const CANCELED := Failure("job_canceled", false)

  ghost predicate TimedOut(db: DB, late: set<JobID>, db': DB, at: Time) {
    && WorkEnds(db, ActiveIn(db.attempts, late), db', AttemptCanceled, OVERDUE, at)
    && AllLate(db.jobs, late, db'.jobs, at)
  }

  // The jobs `late` have timed out; others are touched only as dependents.
  predicate AllLate(jobs: Jobs, late: set<JobID>, jobs': Jobs, at: Time) {
    && jobs'.Keys == jobs.Keys
    && (forall j :: j in jobs && j in late ==> EndsAs(jobs[j], jobs'[j], JobTimedOut, at))
    && (forall j :: j in jobs && j !in late ==> Touched(jobs[j], jobs'[j]))
  }

  lemma OneLate(jobs: Jobs, late: set<JobID>, cur: Jobs, j: JobID, jobs': Jobs, at: Time)
    requires AllLate(jobs, late, cur, at) && j in jobs && j !in late && TouchedBut(cur, jobs', j)
    requires j in jobs' && EndsAs(jobs[j], jobs'[j], JobTimedOut, at)
    ensures AllLate(jobs, late + {j}, jobs', at)
  {
    forall k | k in jobs && k in late ensures jobs'[k] == cur[k] {
      assert EndsAs(jobs[k], cur[k], JobTimedOut, at);
    }
  }

  lemma TimeOutWrites(db: DB, j: JobID, now: Time)
    requires Sound(db) && j in db.jobs && !db.jobs[j].state.JobSucceeded?
    ensures var db' := TimeOut(db, j, now);
      && TouchedBut(db.jobs, db'.jobs, j) && j in db'.jobs
      && db'.jobs[j] == TimedOutRow(db, j, ActiveAttempt(db.attempts, j), now)
  {
    var db', active := TimeOut(db, j, now), ActiveAttempt(db.attempts, j);
    ReturnSlotSame(db.workers, db.attempts, if active.Some? then db.attempts[active.value].worker else 0);
    TimeOutShape(db, j, now);
    EndsTouches(db, db', j, TimedOutRow(db, j, active, now), active, Ended(db'.attempts, active), now);
  }

  lemma TimeOutShows(db: DB, j: JobID, now: Time)
    requires j in db.jobs
    ensures var db', active := TimeOut(db, j, now), ActiveAttempt(db.attempts, j);
      && (active.None? ==> db'.attempts == db.attempts && db'.leases == db.leases && db'.workers == db.workers)
      && (active.Some? ==>
            && db'.attempts == EndAttempt(db.attempts, active.value, AttemptCanceled, Some(OVERDUE), now)
            && db'.leases == db.leases - {active.value}
            && db'.workers == ReturnSlot(db.workers, db.attempts[active.value].worker))
  {
  }

  // A job that is not among `late` has the active attempt that it had at the start.
  lemma SameActive(db: DB, late: set<JobID>, cur: DB, j: JobID, at: Time)
    requires Coherent(db.jobs, db.attempts, db.leases) && j !in late
    requires AllEnd(db.attempts, ActiveIn(db.attempts, late), cur.attempts, AttemptCanceled, OVERDUE, at)
    ensures var active := ActiveAttempt(cur.attempts, j);
      && (active.None? ==> ActiveIn(db.attempts, late + {j}) == ActiveIn(db.attempts, late))
      && (active.Some? ==>
            && active.value in db.attempts && cur.attempts[active.value] == db.attempts[active.value]
            && active.value !in ActiveIn(db.attempts, late)
            && ActiveIn(db.attempts, late + {j}) == ActiveIn(db.attempts, late) + {active.value})
  {
    var active := ActiveAttempt(cur.attempts, j);
    if active.Some? {
      assert Live(db.attempts, active.value);
      forall a | a in ActiveIn(db.attempts, late + {j}) && a.job == j ensures a == active.value {
        assert Live(db.attempts, a);
      }
    } else {
      forall a | a in ActiveIn(db.attempts, late + {j}) ensures a.job != j {
        assert a.job == j ==> Live(cur.attempts, a);
      }
    }
  }

  lemma TimeOutEndsWork(db: DB, late: set<JobID>, cur: DB, j: JobID, at: Time)
    requires Coherent(db.jobs, db.attempts, db.leases) && j !in late && j in cur.jobs
    requires WorkEnds(db, ActiveIn(db.attempts, late), cur, AttemptCanceled, OVERDUE, at)
    ensures WorkEnds(db, ActiveIn(db.attempts, late + {j}), TimeOut(cur, j, at), AttemptCanceled, OVERDUE, at)
  {
    var active, gone := ActiveAttempt(cur.attempts, j), ActiveIn(db.attempts, late);
    SameActive(db, late, cur, j, at);
    TimeOutShows(cur, j, at);
    if active.Some? {
      OneMoreEnds(db, gone, cur, active.value, TimeOut(cur, j, at), AttemptCanceled, OVERDUE, at);
    }
  }

  lemma TimeOutEndsJob(db: DB, late: set<JobID>, cur: DB, j: JobID, at: Time)
    requires AllLate(db.jobs, late, cur.jobs, at) && Sound(cur) && j in db.jobs && j !in late && !db.jobs[j].state.JobSucceeded?
    ensures AllLate(db.jobs, late + {j}, TimeOut(cur, j, at).jobs, at)
  {
    assert Touched(db.jobs[j], cur.jobs[j]);
    TimeOutWrites(cur, j, at);
    OneLate(db.jobs, late, cur.jobs, j, TimeOut(cur, j, at).jobs, at);
  }

  ghost predicate TimedOutTo(db: DB, ids: seq<JobID>, k: nat, at: Time)
    requires k <= |ids|
  {
    TimedOut(db, Elements(ids[..k]), TimeOutAll(db, ids[..k], at), at)
  }

  lemma TimeOutNext(db: DB, ids: seq<JobID>, k: nat, at: Time)
    requires Coherent(db.jobs, db.attempts, db.leases) && NoRepeats(ids)
    requires forall j :: j in ids ==> j in db.jobs && !db.jobs[j].state.Terminal()
    requires k < |ids| && TimedOutTo(db, ids, k, at) && Sound(TimeOutAll(db, ids[..k], at))
    ensures TimedOutTo(db, ids, k + 1, at)
  {
    var cur, late, j := TimeOutAll(db, ids[..k], at), Elements(ids[..k]), ids[k];
    OneMore(ids, k);
    TimeOutEndsJob(db, late, cur, j, at);
    TimeOutEndsWork(db, late, cur, j, at);
    assert TimeOutAll(db, ids[..k + 1], at) == TimeOut(cur, j, at);
  }

  lemma {:induction false} TimeOutEach(db: DB, ids: seq<JobID>, k: nat, at: Time)
    requires k <= |ids| && TimedOutTo(db, ids, 0, at)
    requires forall n :: 0 <= n < |ids| && TimedOutTo(db, ids, n, at) ==> TimedOutTo(db, ids, n + 1, at)
    ensures TimedOutTo(db, ids, k, at)
  {
    if k > 0 {
      TimeOutEach(db, ids, k - 1, at);
    }
  }

  lemma NothingTimedOut(db: DB, at: Time)
    requires Capped(db.workers, db.attempts)
    ensures TimedOut(db, {}, db, at)
  {
    assert ActiveIn(db.attempts, {}) == {};
    NothingEnds(db, AttemptCanceled, OVERDUE, at);
  }

  lemma TimeOutAllDecides(db: DB, ids: seq<JobID>, at: Time)
    requires Inv(db) && NoRepeats(ids) && forall j :: j in ids ==> j in db.jobs && !db.jobs[j].state.Terminal()
    ensures TimedOut(db, Elements(ids), TimeOutAll(db, ids, at), at)
  {
    NothingTimedOut(db, at);
    assert ids[..0] == [] && Elements(ids[..0]) == {};
    forall n | 0 <= n < |ids| && TimedOutTo(db, ids, n, at) ensures TimedOutTo(db, ids, n + 1, at) {
      assert Sound(TimeOutAll(db, ids[..n], at)) by { TimeOutAllSweeps(db, ids[..n], at); }
      TimeOutNext(db, ids, n, at);
    }
    TimeOutEach(db, ids, |ids|, at);
    assert ids[..|ids|] == ids;
  }

  /** The job is canceled, its active attempt with it, and the worker keeps the slot taken
      until it reports the attempt as canceled. */
  ghost predicate Canceled(db: DB, j: JobID, db': DB, at: Time) {
    && AllEnd(db.attempts, ActiveIn(db.attempts, {j}), db'.attempts, AttemptCanceled, CANCELED, at)
    && db'.leases == db.leases - ActiveIn(db.attempts, {j})
    && db'.workers == db.workers
    && j in db.jobs && j in db'.jobs && EndsAs(db.jobs[j], db'.jobs[j], JobCanceled, at)
    && TouchedBut(db.jobs, db'.jobs, j)
  }

  lemma ActiveInOne(db: DB, j: JobID)
    requires Coherent(db.jobs, db.attempts, db.leases)
    ensures var active := ActiveAttempt(db.attempts, j);
      ActiveIn(db.attempts, {j}) == if active.Some? then {active.value} else {}
  {
    forall a | a in ActiveIn(db.attempts, {j}) ensures ActiveAttempt(db.attempts, j) == Some(a) {
      assert Live(db.attempts, a) && a == Latest(db.attempts, j);
    }
  }

  lemma CancelEndsWork(db: DB, j: JobID, at: Time)
    requires j in db.jobs && !db.jobs[j].state.Terminal()
    requires var active := ActiveAttempt(db.attempts, j);
      ActiveIn(db.attempts, {j}) == if active.Some? then {active.value} else {}
    ensures var db' := Cancel(db, j, at).db;
      && AllEnd(db.attempts, ActiveIn(db.attempts, {j}), db'.attempts, AttemptCanceled, CANCELED, at)
      && db'.leases == db.leases - ActiveIn(db.attempts, {j})
      && db'.workers == db.workers
  {
  }

  lemma CancelDecides(db: DB, j: JobID, at: Time)
    requires Sound(db) && j in db.jobs && !db.jobs[j].state.Terminal()
    ensures Canceled(db, j, Cancel(db, j, at).db, at)
  {
    var db' := Cancel(db, j, at).db;
    ActiveInOne(db, j);
    CancelEndsWork(db, j, at);
    var row, active := CancelEnds(db, j, at);
    EndsTouches(db, db', j, row, active, Ended(db'.attempts, active), at);
    CancelWrites(db, j, at);
  }

  lemma CancelWrites(db: DB, j: JobID, at: Time)
    requires Base(db) && j in db.jobs && !db.jobs[j].state.Terminal()
    ensures j in Cancel(db, j, at).db.jobs && EndsAs(db.jobs[j], Cancel(db, j, at).db.jobs[j], JobCanceled, at)
  {
  }
}
