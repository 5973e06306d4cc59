/** The store itself: one field per table, and one method per transaction, which
    changes the tables statement by statement. Each is proved to have exactly the
    effect that the specification of the transaction gives. */
module Store {
  import opened Domain
  import opened Tables
  import opened Invariants
  import T = Transactions
  import opened Settlement
  import opened DependencyGraph
  import opened Endings
  import opened JobSteps
  import opened SessionSteps
  import opened Progress
  import opened Promises
  import R = Recovery
  import P = Propagation
  import B = Backoff
  import Ids
  import Protocol
  import Safety
  import S = Scheduler
  import O = Outcomes
  import OutcomeRuns
  import SubmissionRuns

  lemma MaxNumberUnique(ids: set<AttemptID>, j: JobID, n: nat)
    requires IsMaxNumber(ids, j, n)
    ensures n == MaxNumber(ids, j)
  {
  }

  // Which jobs are downstream depends on dependencies and states alone.
  lemma {:induction false} SameDownstream(jobs: Jobs, after: Jobs, root: JobID, j: JobID)
    requires SameSpecs(jobs, after) && j in jobs && Downstream(jobs, root, j)
    requires forall k :: k in jobs ==> after[k].state == jobs[k].state
    ensures Downstream(after, root, j)
    decreases jobs[j].spec.row
  {
    var d :| d in jobs[j].spec.deps && DownstreamVia(jobs, root, j, d);
    if d != root {
      SameDownstream(jobs, after, root, d);
    }
    assert d in after[j].spec.deps && DownstreamVia(after, root, j, d);
  }

  function Noted(jobs: Jobs, j: JobID, e: Event): Jobs
    requires j in jobs
  {
    jobs[j := jobs[j].(log := jobs[j].log + [e])]
  }

  // The event of a terminal job may be written after its dependents have failed.
  lemma FailThenAppend(jobs: Jobs, j: JobID, e: Event, at: Time)
    requires j in jobs && !jobs[j].state.Unstarted()
    ensures j in T.FailDownstream(jobs, j, at)
    ensures Noted(T.FailDownstream(jobs, j, at), j, e) == T.FailDownstream(Noted(jobs, j, e), j, at)
  {
    var noted := Noted(jobs, j, e);
    forall k | k in jobs ensures Downstream(noted, j, k) == Downstream(jobs, j, k) {
      if Downstream(jobs, j, k) {
        SameDownstream(jobs, noted, j, k);
      }
      if Downstream(noted, j, k) {
        SameDownstream(noted, jobs, j, k);
      }
    }
  }

  lemma EndedRow(jobs: Jobs, j: JobID, row: Job, e: Event, at: Time)
    requires Layered(jobs) && j in jobs && row.spec == jobs[j].spec
    ensures Layered(jobs[j := row]) && Noted(jobs[j := row], j, e) == jobs[j := row.(log := row.log + [e])]
    ensures j in T.FailDownstream(jobs[j := row], j, at)
    ensures !row.state.Unstarted() ==>
      Noted(T.FailDownstream(jobs[j := row], j, at), j, e) == T.FailDownstream(jobs[j := row.(log := row.log + [e])], j, at)
  {
    KeepsLayered(jobs, jobs[j := row]);
    if !row.state.Unstarted() {
      FailThenAppend(jobs[j := row], j, e, at);
    }
  }

  lemma PromoteThenAppend(jobs: Jobs, j: JobID, e: Event, at: Time)
    requires j in jobs && jobs[j].state.JobSucceeded?
    ensures j in T.Promote(jobs, j, at)
    ensures Noted(T.Promote(jobs, j, at), j, e) == T.Promote(Noted(jobs, j, e), j, at)
  {
    var noted := Noted(jobs, j, e);
    forall k | k in jobs ensures T.Released(noted, j, k) == T.Released(jobs, j, k) {
    }
  }

  // The first `i` overdue jobs leave the store fit for one more.
  ghost predicate MoreTimeouts(db: DB, ids: seq<JobID>, i: nat, now: Time)
    requires i < |ids|
  {
    var done := T.TimeOutAll(db, ids[..i], now);
    && Sane(done) && ids[i] in done.jobs
    && T.TimeOutAll(db, ids[..i + 1], now) == T.TimeOut(done, ids[i], now)
  }

  lemma OneMoreTimeout(db: DB, ids: seq<JobID>, i: nat, now: Time)
    requires i < |ids| && ids[i] in db.jobs
    ensures var done := T.TimeOutAll(db, ids[..i], now);
      ids[i] in done.jobs && T.TimeOutAll(db, ids[..i + 1], now) == T.TimeOut(done, ids[i], now)
  {
    assert ids[..i + 1][..i] == ids[..i] && ids[..i + 1][i] == ids[i];
  }

  lemma SaneAfterTimeouts(db: DB, ids: seq<JobID>, now: Time)
    requires Inv(db) && forall j :: j in ids ==> j in db.jobs && !db.jobs[j].state.Terminal()
    ensures Sane(T.TimeOutAll(db, ids, now))
  {
    TimeOutAllSweeps(db, ids, now);
  }

  lemma TimeoutsGoOn(db: DB, ids: seq<JobID>, i: nat, now: Time)
    requires Inv(db) && i < |ids| && forall j :: j in ids ==> j in db.jobs && !db.jobs[j].state.Terminal()
    ensures MoreTimeouts(db, ids, i, now)
  {
    SaneAfterTimeouts(db, ids[..i], now);
    OneMoreTimeout(db, ids, i, now);
  }

  // One more lease.
  lemma NextExpiry(db: DB, ids: seq<AttemptID>, i: nat, now: Time)
    requires Inv(db) && i < |ids|
    ensures var done := T.ExpireAll(db, ids[..i], now);
      Sane(done) && T.ExpireAll(db, ids[..i + 1], now) == T.Expire(done, ids[i], now)
  {
    SaneAfterExpiries(db, ids[..i], now);
    OneMoreExpiry(db, ids, i, now);
  }

  lemma SaneAfterExpiries(db: DB, ids: seq<AttemptID>, now: Time)
    requires Inv(db)
    ensures Sane(T.ExpireAll(db, ids, now))
  {
    ExpireAllSweeps(db, ids, now);
  }

  lemma OneMoreExpiry(db: DB, ids: seq<AttemptID>, i: nat, now: Time)
    requires i < |ids|
    ensures T.ExpireAll(db, ids[..i + 1], now) == T.Expire(T.ExpireAll(db, ids[..i], now), ids[i], now)
  {
    assert ids[..i + 1][..i] == ids[..i] && ids[..i + 1][i] == ids[i];
  }

  // One attempt that is refused spoils the whole report.
  lemma {:induction false} Refused(db: DB, w: WorkerID, reported: seq<AttemptID>, i: nat)
    requires i < |reported| && T.Cancellations(db, w, reported[..i + 1]).None?
    ensures T.Cancellations(db, w, reported).None?
    decreases |reported|
  {
    if i + 1 < |reported| {
      assert reported[..|reported| - 1][..i + 1] == reported[..i + 1];
      Refused(db, w, reported[..|reported| - 1], i);
    } else {
      assert reported[..i + 1] == reported;
    }
  }

  // Ending jobs moves none of them to another session.
  lemma SameOwnership(jobs: Jobs, after: Jobs, attempts: Attempts, leases: Leases, s: SessionID, to: AttemptState, code: string, at: Time)
    requires SameSpecs(jobs, after)
    ensures T.FinishAttempts(after, attempts, s, to, code, at) == T.FinishAttempts(jobs, attempts, s, to, code, at)
    ensures (map a | a in leases && !T.OwnedBy(after, a.job, s) :: leases[a])
         == (map a | a in leases && !T.OwnedBy(jobs, a.job, s) :: leases[a])
  {
    assert forall j :: T.OwnedBy(after, j, s) == T.OwnedBy(jobs, j, s);
  }

  /** What the methods below rely on; it is part of the invariant that every
      transaction keeps. */
  ghost predicate Sane(db: DB) {
    Coherent(db.jobs, db.attempts, db.leases) && Layered(db.jobs)
  }

  class Store {
    var jobs: Jobs
    var attempts: Attempts
    var leases: Leases
    var workers: Workers
    var sessions: Sessions
    var boxes: Boxes

    function Db(): DB
      reads this
    {
      DB(jobs, attempts, leases, workers, sessions, boxes)
    }

    constructor ()
      ensures Db() == EMPTY
    {
      jobs, attempts, leases, workers, sessions, boxes := map[], map[], map[], map[], map[], map[];
    }

    // Queries

    /** SELECT COALESCE(MAX(number),0) FROM job_attempts WHERE job_id=j */
    method LastNumber(j: JobID) returns (n: nat)
      ensures n == MaxNumber(attempts.Keys, j)
    {
      n := 0;
      var todo := attempts.Keys;
      while todo != {}
        invariant todo <= attempts.Keys
        invariant IsMaxNumber(attempts.Keys - todo, j, n)
        decreases todo
      {
        var a :| a in todo;
        if a.job == j && a.number > n {
          n := a.number;
        }
        todo := todo - {a};
      }
      assert attempts.Keys - {} == attempts.Keys;
      MaxNumberUnique(attempts.Keys, j, n);
    }

    /** SELECT id FROM job_attempts WHERE job_id=j AND state IN ('leased','running') */
    method FindActive(j: JobID) returns (active: Option<AttemptID>)
      requires Coherent(jobs, attempts, leases) && j in jobs
      ensures active == ActiveAttempt(attempts, j)
    {
      ActiveIsLatest(jobs, attempts, leases, j);
      if a :| a in attempts && a.job == j && attempts[a].state.Active() {
        assert Live(attempts, a);
        active := Some(a);
      } else {
        active := None;
      }
    }

    // Statements that several transactions share

    method Append(j: JobID, e: Event)
      requires j in jobs
      modifies this`jobs
      ensures jobs == old(jobs)[j := old(jobs)[j].(log := old(jobs)[j].log + [e])]
    {
      jobs := jobs[j := jobs[j].(log := jobs[j].log + [e])];
    }

    method CloseAttempt(a: AttemptID, to: AttemptState, failure: Option<Failure>, at: Time)
      requires a in attempts
      modifies this`attempts, this`leases
      ensures attempts == T.EndAttempt(old(attempts), a, to, failure, at) && leases == old(leases) - {a}
    {
      attempts := attempts[a := attempts[a].(state := to, failure := failure, endedAt := Some(at))];
      leases := leases - {a};
    }

    method GiveSlotBack(w: WorkerID)
      modifies this`workers
      ensures workers == T.ReturnSlot(old(workers), w)
    {
      if w in workers {
        workers := workers[w := workers[w].(freeSlots := Min(workers[w].spec.maxSlots, workers[w].freeSlots + 1))];
      }
    }

    method PropagateDependencyFailure(root: JobID, at: Time)
      requires Layered(jobs)
      modifies this`jobs
      ensures jobs == T.FailDownstream(old(jobs), root, at)
    {
      var todo := P.FindDownstream(jobs, root);
      ghost var found := todo;
      while todo != {}
        invariant todo <= found
        invariant jobs.Keys == old(jobs).Keys
        invariant forall j :: j in jobs ==>
          jobs[j] == if j in found && j !in todo then T.FailDownstream(old(jobs), root, at)[j] else old(jobs)[j]
        decreases todo
      {
        var j :| j in todo;
        assert Downstream(old(jobs), root, j);
        jobs := jobs[j := jobs[j].(state := JobDependencyFailed, updated := at)];
        Append(j, Event(JobTransition(JobDependencyFailed, "dependency_failed"), None, at, 0, ""));
        todo := todo - {j};
      }
    }

    // Jobs

    method CancelJob(j: JobID, at: Time) returns (err: Error)
      requires Sane(Db())
      modifies this
      ensures Tx(Db(), err) == T.Cancel(old(Db()), j, at)
      ensures Inv(old(Db())) && j in old(jobs) && !old(jobs)[j].state.Terminal() ==> O.Canceled(old(Db()), j, Db(), at)
    {
      ghost var before := Db();
      err := Withdraw(j, at);
      if Inv(before) {
        OutcomeRuns.CancelStep(before, j, at);
      }
    }

    method Withdraw(j: JobID, at: Time) returns (err: Error)
      requires Sane(Db())
      modifies this
      ensures Tx(Db(), err) == T.Cancel(old(Db()), j, at)
    {
      if j !in jobs {
        return NotFound;
      }
      if jobs[j].state.Terminal() {
        return Conflict;
      }
      var active := FindActive(j);
      EndJob(j, JobCanceled, active, Failure("job_canceled", false), "client_request", at);
      return Ok;
    }

    // The job ends without success, with its active attempt and everything downstream.
    method EndJob(j: JobID, to: JobState, active: Option<AttemptID>, failure: Failure, reason: string, at: Time)
      requires Layered(jobs) && j in jobs && !to.Unstarted() && (active.Some? ==> active.value in attempts)
      modifies this`jobs, this`attempts, this`leases
      ensures Db() == T.Stop(old(Db()), active, AttemptCanceled, failure, at).(jobs := jobs)
      ensures jobs == T.FailDownstream(
        old(jobs)[j := T.Finish(old(jobs)[j], to, at, Event(JobTransition(to, reason), active, at, 0, "")).(nextAt := None)], j, at)
    {
      var event := Event(JobTransition(to, reason), active, at, 0, "");
      EndedRow(jobs, j, jobs[j].(state := to, nextAt := None, updated := at), event, at);
      jobs := jobs[j := jobs[j].(state := to, nextAt := None, updated := at)];
      if active.Some? {
        CloseAttempt(active.value, AttemptCanceled, Some(failure), at);
      }
      PropagateDependencyFailure(j, at);
      Append(j, event);
    }

    method TimeOutJob(j: JobID, now: Time)
      requires Sane(Db()) && j in jobs
      modifies this
      ensures Db() == T.TimeOut(old(Db()), j, now)
    {
      var active := FindActive(j);
      if active.Some? {
        GiveSlotBack(attempts[active.value].worker);
      }
      EndJob(j, JobTimedOut, active, Failure("job_timeout", false), "deadline_exceeded", now);
    }

    /** Every overdue job times out, in whatever order the query lists them. */
    method TimeoutJobs(now: Time) returns (ids: seq<JobID>)
      requires Inv(Db())
      modifies this
      ensures Protocol.NoRepeats(ids) && forall j :: j in ids <==> j in old(jobs) && T.Overdue(old(jobs)[j], now)
      ensures Db() == T.TimeOutAll(old(Db()), ids, now)
      ensures O.TimedOut(old(Db()), OutcomeRuns.Late(old(Db()), now), Db(), now)
    {
      ids := SelectOverdue(now);
      OutcomeRuns.TimeoutStep(Db(), Protocol.TimeoutJobs(ids, now));
      TimeOutListed(ids, now);
    }

    method SelectOverdue(now: Time) returns (ids: seq<JobID>)
      ensures Protocol.NoRepeats(ids) && forall j :: j in ids <==> j in jobs && T.Overdue(jobs[j], now)
    {
      ids := [];
      var todo := jobs.Keys;
      while todo != {}
        invariant todo <= jobs.Keys && Protocol.NoRepeats(ids)
        invariant forall j :: j in ids <==> j in jobs && j !in todo && T.Overdue(jobs[j], now)
        decreases todo
      {
        var j :| j in todo;
        if T.Overdue(jobs[j], now) {
          ids := ids + [j];
        }
        todo := todo - {j};
      }
    }

    method TimeOutListed(ids: seq<JobID>, now: Time)
      requires Inv(Db()) && forall j :: j in ids ==> j in jobs && !jobs[j].state.Terminal()
      modifies this
      ensures Db() == T.TimeOutAll(old(Db()), ids, now)
    {
      forall i | 0 <= i < |ids| ensures MoreTimeouts(Db(), ids, i, now) {
        TimeoutsGoOn(Db(), ids, i, now);
      }
      TimeOutEach(ids, now);
    }

    method TimeOutEach(ids: seq<JobID>, now: Time)
      requires forall i :: 0 <= i < |ids| ==> MoreTimeouts(Db(), ids, i, now)
      modifies this
      ensures Db() == T.TimeOutAll(old(Db()), ids, now)
    {
      var i := 0;
      while i < |ids|
        invariant 0 <= i <= |ids|
        invariant Db() == T.TimeOutAll(old(Db()), ids[..i], now)
      {
        assert MoreTimeouts(old(Db()), ids, i, now);
        TimeOutJob(ids[i], now);
        i := i + 1;
      }
      assert ids[..i] == ids;
    }

    /** A completion in time ends the attempt and decides its job; any other is refused. */
    method CompleteAttempt(w: WorkerID, a: AttemptID, c: T.Completion, at: Time) returns (err: Error)
      requires Layered(jobs)
      modifies this
      ensures Tx(Db(), err) == T.Complete(old(Db()), w, a, c, at)
      ensures Inv(old(Db())) ==> (err == Ok <==> O.InTime(old(Db()), w, a, at))
      ensures Inv(old(Db())) && err == Ok ==> OutcomeRuns.Completes(old(Db()), Db(), w, a, c, at)
    {
      ghost var before := Db();
      err := Conclude(w, a, c, at);
      if Inv(before) {
        OutcomeRuns.CompletionStep(before, w, a, c, at);
      }
    }

    method Conclude(w: WorkerID, a: AttemptID, c: T.Completion, at: Time) returns (err: Error)
      requires Layered(jobs)
      modifies this
      ensures Tx(Db(), err) == T.Complete(old(Db()), w, a, c, at)
    {
      if a !in attempts || attempts[a].worker != w || a.job !in jobs {
        return NotFound;
      }
      if !CanAttemptTransition(attempts[a].state, c.Outcome()) {
        return Conflict;
      }
      if a !in leases || leases[a].expires <= at {
        return Conflict;
      }
      var next := NextState(jobs[a.job], a.number, c, at);
      CloseAttempt(a, c.Outcome(), c.Reason(), at);
      GiveSlotBack(w);
      SettleJob(a.job, jobs[a.job].(state := next, updated := at),
                Event(AttemptTransition(c.Outcome(), next, "completion"), Some(a), at, 0, ""), at);
      return Ok;
    }

    method NextState(job: Job, number: nat, c: T.Completion, at: Time) returns (next: JobState)
      ensures next == T.AfterCompletion(job, number, c, at)
    {
      next := JobSucceeded;
      if c.Failed? {
        next := JobFailed;
        if c.failure.retryable && number < job.spec.maxAttempts
           && (job.spec.timeoutAt.None? || at < job.spec.timeoutAt.value) {
          next := JobQueued;
        }
      }
    }

    // The job takes its new row, its dependents follow, and then comes its event.
    method SettleJob(j: JobID, row: Job, event: Event, at: Time)
      requires Layered(jobs) && j in jobs && row.spec == jobs[j].spec && !row.state.JobWaiting?
      modifies this`jobs
      ensures jobs == T.Settle(old(jobs)[j := row.(log := row.log + [event])], j, at)
    {
      EndedRow(jobs, j, row, event, at);
      jobs := jobs[j := row];
      if row.state.JobSucceeded? {
        PromoteThenAppend(jobs, j, event, at);
        jobs := map k | k in jobs ::
          if T.Released(jobs, j, k) then jobs[k].(state := JobQueued, updated := at) else jobs[k];
      } else if row.state.Terminal() {
        PropagateDependencyFailure(j, at);
      }
      Append(j, event);
    }

    // One iteration of expireLeases.
    method ExpireLease(a: AttemptID, now: Time)
      requires Sane(Db())
      modifies this
      ensures Db() == T.Expire(old(Db()), a, now)
    {
      if !Live(attempts, a) || a.job !in jobs {
        return;
      }
      assert jobs[a.job].state.JobLeased?;
      TakeBack(a, now);
    }

    method TakeBack(a: AttemptID, now: Time)
      requires Layered(jobs) && Live(attempts, a) && a.job in jobs && jobs[a.job].state.JobLeased?
      modifies this
      ensures Db() == T.Expire(old(Db()), a, now)
    {
      var worker, hash := attempts[a].worker, attempts[a].hash;
      var state, next := AfterLease(jobs[a.job], a.number, hash, now);
      CloseAttempt(a, AttemptExpired, Some(Failure("lease_expired", true)), now);
      GiveSlotBack(worker);
      SettleJob(a.job, jobs[a.job].(state := state, nextAt := next, updated := now),
                Event(AttemptTransition(AttemptExpired, state, "lease_expired"), Some(a), now, 0, ""), now);
    }

    method AfterLease(job: Job, number: nat, hash: nat, now: Time) returns (state: JobState, next: Option<Time>)
      ensures state == T.AfterExpiry(job, number, now)
      ensures next == if state.JobQueued?
                      then Some(now + B.RetryDelay(job.spec.backoff, job.spec.maxBackoff, number, hash)) else None
    {
      state, next := JobFailed, None;
      if job.spec.timeoutAt.Some? && job.spec.timeoutAt.value <= now {
        state := JobTimedOut;
      } else if number < job.spec.maxAttempts
                && (job.spec.maxElapsed <= 0 || now - job.spec.view.created < job.spec.maxElapsed) {
        state := JobQueued;
        next := Some(now + B.RetryDelay(job.spec.backoff, job.spec.maxBackoff, number, hash));
      }
    }

    /** Every lease that has run out is taken back, in whatever order the query lists them. */
    method ExpireLeases(now: Time) returns (ids: seq<AttemptID>)
      requires Inv(Db())
      modifies this
      ensures Protocol.NoRepeats(ids) && forall a :: a in ids <==> a in old(leases) && old(leases)[a].expires <= now
      ensures Db() == T.ExpireAll(old(Db()), ids, now)
      ensures O.Reaped(old(Db()), (set a | a in old(leases) && old(leases)[a].expires <= now), Db(), now)
    {
      ids := SelectLeases(set a | a in leases && leases[a].expires <= now);
      OutcomeRuns.ExpiryStep(Db(), Protocol.ExpireLeases(ids, now));
      ExpireListed(ids, now);
    }

    /** Every lease of a dead worker is taken back. */
    method ExpireWorkerLeases(w: WorkerID, now: Time) returns (ids: seq<AttemptID>)
      requires Inv(Db())
      modifies this
      ensures Protocol.NoRepeats(ids) && forall a :: a in ids <==> a in old(leases) && old(leases)[a].worker == w
      ensures Db() == T.ExpireAll(old(Db()), ids, now)
      ensures O.Reaped(old(Db()), (set a | a in old(leases) && old(leases)[a].worker == w), Db(), now)
    {
      ids := SelectLeases(set a | a in leases && leases[a].worker == w);
      OutcomeRuns.ExpiryStep(Db(), Protocol.ExpireWorkerLeases(w, ids, now));
      ExpireListed(ids, now);
    }

    method SelectLeases(due: set<AttemptID>) returns (ids: seq<AttemptID>)
      ensures Protocol.NoRepeats(ids) && forall a :: a in ids <==> a in due
    {
      ids := [];
      var todo := due;
      while todo != {}
        invariant todo <= due && Protocol.NoRepeats(ids)
        invariant forall a :: a in ids <==> a in due && a !in todo
        decreases todo
      {
        var a :| a in todo;
        ids := ids + [a];
        todo := todo - {a};
      }
    }

    method ExpireListed(ids: seq<AttemptID>, now: Time)
      requires Inv(Db())
      modifies this
      ensures Db() == T.ExpireAll(old(Db()), ids, now)
    {
      var i := 0;
      while i < |ids|
        invariant 0 <= i <= |ids|
        invariant Db() == T.ExpireAll(old(Db()), ids[..i], now)
      {
        NextExpiry(old(Db()), ids, i, now);
        ExpireLease(ids[i], now);
        i := i + 1;
      }
      assert ids[..i] == ids;
    }

    /** An admissible request adds its job, on its terms; any other adds nothing. */
    method CreateJob(r: T.NewJob) returns (err: Error)
      modifies this`jobs
      ensures Tx(Db(), err) == T.CreateJob(old(Db()), r)
      ensures SubmissionRuns.Submits(old(Db()), Db(), r)
      ensures err == Ok <==> SubmissionRuns.Admissible(old(Db()), r) || SubmissionRuns.KeyTaken(old(jobs), r)
    {
      SubmissionRuns.SubmitStep(Db(), r);
      SubmissionRuns.AnsweredExactly(Db(), r);
      err := Insert(r);
    }

    method Insert(r: T.NewJob) returns (err: Error)
      modifies this`jobs
      ensures Tx(Db(), err) == T.CreateJob(old(Db()), r)
    {
      if r.key.Some? {
        if j :| j in jobs && jobs[j].spec.key == r.key {
          assert j in JobWith(jobs, r.key.value);
          return Ok;
        }
        assert JobWith(jobs, r.key.value) == {};
      }
      err := ValidateDependencies(r);
      if err != Ok {
        return;
      }
      var doomed, succeeded := InspectDependencies(r.deps);
      if doomed {
        return Conflict;
      }
      if r.id in jobs {
        return if r.key.Some? then NotFound else Conflict;
      }
      var spec := JobSpec(|jobs|, r.session, (set d | d in r.deps), r.key, r.maxAttempts, r.backoff, r.maxBackoff,
                          r.maxElapsed, r.timeoutAt, r.view.(id := r.id));
      jobs := jobs[r.id := Job(spec, if succeeded then JobQueued else JobWaiting, None, r.view.created, [], None)];
      return Ok;
    }

    method ValidateDependencies(r: T.NewJob) returns (err: Error)
      ensures err == var bad := T.CheckDeps(jobs, r.id, r.session, r.deps, {});
                     if bad != Ok then bad else T.CheckSession(sessions, r.session)
    {
      var seen, i := {}, 0;
      while i < |r.deps|
        invariant 0 <= i <= |r.deps|
        invariant T.CheckDeps(jobs, r.id, r.session, r.deps[i..], seen) == T.CheckDeps(jobs, r.id, r.session, r.deps, {})
      {
        var d := r.deps[i];
        assert r.deps[i..][0] == d && r.deps[i..][1..] == r.deps[i + 1..];
        if d == r.id || d in seen {
          return Conflict;
        }
        seen := seen + {d};
        if d !in jobs {
          return NotFound;
        }
        if jobs[d].spec.session != r.session {
          return Conflict;
        }
        i := i + 1;
      }
      if r.session.Some? {
        if r.session.value !in sessions {
          return NotFound;
        }
        if sessions[r.session.value].state.Terminal() {
          return Conflict;
        }
      }
      return Ok;
    }

    method InspectDependencies(deps: seq<JobID>) returns (doomed: bool, succeeded: bool)
      ensures doomed == T.SomeDoomed(jobs, deps)
      ensures !doomed ==> succeeded == T.AllSucceeded(jobs, deps)
    {
      doomed, succeeded := false, true;
      var i := 0;
      while i < |deps|
        invariant 0 <= i <= |deps|
        invariant forall k :: 0 <= k < i && deps[k] in jobs ==> !jobs[deps[k]].state.Doomed()
        invariant succeeded <==> forall k :: 0 <= k < i && deps[k] in jobs ==> jobs[deps[k]].state.JobSucceeded?
      {
        if deps[i] in jobs {
          if !jobs[deps[i]].state.JobSucceeded? {
            succeeded := false;
          }
          if jobs[deps[i]].state.Doomed() {
            return true, succeeded;
          }
        }
        i := i + 1;
      }
    }

    // Leases

    /** `ranked` is the scheduler's ranking of the queued jobs. */
    method ClaimNextJob(w: WorkerID, ranked: seq<JobID>, now: Time, duration: int, hash: nat) returns (err: Error)
      requires forall j :: j in ranked ==> j in jobs
      modifies this
      ensures Tx(Db(), err) == T.Claim(old(Db()), w, ranked, now, duration, hash)
    {
      if w !in workers || workers[w].spec.box !in boxes {
        return NotFound;
      }
      var i := 0;
      while i < |ranked|
        invariant 0 <= i <= |ranked| && Db() == old(Db())
        invariant T.FirstOpen(Db(), w, ranked[i..]) == T.FirstOpen(Db(), w, ranked)
      {
        assert ranked[i..][0] == ranked[i] && ranked[i..][1..] == ranked[i + 1..];
        assert ranked[i] in ranked;
        var gate := Admit(w, ranked[i]);
        if gate != T.Skip {
          if workers[w].freeSlots <= 0 {
            return Conflict;
          }
          if gate == T.Bind {
            Bind(w, jobs[ranked[i]].spec.session.value);
          }
          TakeLease(w, ranked[i], now, duration, hash);
          return Ok;
        }
        i := i + 1;
      }
      return NotFound;
    }

    /** Whether the worker may take the job, as the loop of ClaimNextJob decides it: rebuild
        steps are told by their names. */
    method Admit(w: WorkerID, j: JobID) returns (gate: T.Gate)
      requires w in workers && j in jobs
      ensures gate == T.GateOf(Db(), w, j)
    {
      var me, session := workers[w], jobs[j].spec.session;
      if session.None? {
        return if me.reserved.Some? then T.Skip else T.Take;
      }
      var s := session.value;
      if s !in sessions {
        return T.Skip;
      }
      var v := sessions[s];
      var required := Constraints(v.spec.caps.capabilities, v.spec.caps.labels, v.spec.caps.architecture,
                                  v.spec.caps.region, "", "", "", None, v.spec.provider, None);
      if !Satisfies(me.spec.caps, required) || (v.spec.provider != "" && me.spec.provider != v.spec.provider) {
        return T.Skip;
      }
      if v.state.SessionActive? && (v.worker != Some(w) || v.box != Some(me.spec.box)) {
        return T.Skip;
      }
      if v.state.SessionPending? {
        if me.reserved.Some? && me.reserved != Some(s) {
          return T.Skip;
        }
        return T.Bind;
      } else if v.state.SessionRecovering? {
        Ids.PrefixMeansStep(s, v.epoch, j);
        if me.reserved != Some(s) || me.epoch != v.epoch || !(Ids.RebuildPrefix(Ids.Decimal(s), v.epoch) <= Ids.NameOf(j)) {
          return T.Skip;
        }
      } else if !v.state.SessionActive? {
        return T.Skip;
      }
      return T.Take;
    }

    method Bind(w: WorkerID, s: SessionID)
      requires w in workers && s in sessions
      modifies this`sessions, this`workers, this`boxes
      ensures Db() == T.BindSession(old(Db()), w, s)
    {
      var box := workers[w].spec.box;
      sessions := sessions[s := sessions[s].(worker := Some(w), box := Some(box), state := SessionActive)];
      workers := workers[w := workers[w].(reserved := Some(s), epoch := sessions[s].epoch)];
      if box in boxes {
        boxes := boxes[box := boxes[box].(reserved := Some(s))];
      }
    }

    method TakeLease(w: WorkerID, j: JobID, now: Time, duration: int, hash: nat)
      requires w in workers && j in jobs
      modifies this`jobs, this`workers, this`attempts, this`leases
      ensures Db() == T.TakeLease(old(Db()), w, j, now, duration, hash)
    {
      var n := LastNumber(j);
      var a := AttemptID(j, n + 1);
      jobs := jobs[j := jobs[j].(state := JobLeased, updated := now)];
      workers := workers[w := workers[w].(freeSlots := workers[w].freeSlots - 1)];
      attempts := attempts[a := Attempt(w, workers[w].spec.box, AttemptLeased, None, None, hash)];
      leases := leases[a := Lease(w, now + duration)];
    }

    method RenewLease(w: WorkerID, a: AttemptID, now: Time, until: Time) returns (err: Error)
      modifies this`leases
      ensures Tx(Db(), err) == T.Renew(old(Db()), w, a, now, until)
      ensures Inv(old(Db())) ==> Inv(Db())
      ensures Inv(old(Db())) && err == Ok ==> forall c, at :: T.Complete(Db(), w, a, c, at).err == Ok <==> at < until
    {
      ghost var before := Db();
      err := Extend(w, a, now, until);
      if Inv(before) {
        RenewKeepsInv(before, w, a, now, until);
        if T.Renew(before, w, a, now, until).err == Ok {
          forall c, at ensures T.Complete(T.Renew(before, w, a, now, until).db, w, a, c, at).err == Ok <==> at < until {
            RenewalBuysTime(before, w, a, now, until, c, at);
          }
        }
      }
    }

    method Extend(w: WorkerID, a: AttemptID, now: Time, until: Time) returns (err: Error)
      modifies this`leases
      ensures Tx(Db(), err) == T.Renew(old(Db()), w, a, now, until)
    {
      if a in leases && leases[a].worker == w && leases[a].expires > now && Live(attempts, a) {
        leases := leases[a := leases[a].(expires := until)];
        return Ok;
      }
      return NotFound;
    }

    // Events and results

    method AppendAttemptEvent(w: WorkerID, a: AttemptID, e: Event) returns (err: Error)
      modifies this`jobs
      ensures Tx(Db(), err) == T.AppendEvent(old(Db()), w, a, e)
    {
      if a !in attempts || attempts[a].worker != w || a.job !in jobs {
        return NotFound;
      }
      if !attempts[a].state.Active() {
        return Conflict;
      }
      var repeated := FindEvent(jobs[a.job].log, a, e);
      if repeated {
        return Ok;
      }
      if T.Collides(jobs[a.job].log, a, e) {
        return Conflict;
      }
      Append(a.job, e.(attempt := Some(a)));
      return Ok;
    }

    method FindEvent(log: seq<Event>, a: AttemptID, e: Event) returns (found: bool)
      ensures found == T.Duplicate(log, a, e)
    {
      if e.key == "" {
        return false;
      }
      var i := 0;
      while i < |log|
        invariant 0 <= i <= |log|
        invariant forall k :: 0 <= k < i ==> log[k].attempt != Some(a) || log[k].key != e.key
      {
        if log[i].attempt == Some(a) && log[i].key == e.key {
          return true;
        }
        i := i + 1;
      }
      return false;
    }

    method SaveResult(w: WorkerID, a: AttemptID, status: int, data: seq<int>) returns (err: Error)
      modifies this`jobs
      ensures Tx(Db(), err) == T.SaveResult(old(Db()), w, a, status, data)
      ensures Inv(old(Db())) ==> Inv(Db())
      ensures Inv(old(Db())) && err == Ok ==>
        a.job in jobs && jobs[a.job].state.JobLeased? && a == Latest(attempts, a.job)
    {
      ghost var before := Db();
      err := Record(w, a, status, data);
      if Inv(before) {
        SaveResultKeepsInv(before, w, a, status, data);
        if T.SaveResult(before, w, a, status, data).err == Ok {
          ResultsAreLive(before, w, a, status, data);
        }
      }
    }

    method Record(w: WorkerID, a: AttemptID, status: int, data: seq<int>) returns (err: Error)
      modifies this`jobs
      ensures Tx(Db(), err) == T.SaveResult(old(Db()), w, a, status, data)
    {
      if a !in attempts || attempts[a].worker != w || a.job !in jobs {
        return NotFound;
      }
      if !attempts[a].state.Active() {
        return Conflict;
      }
      jobs := jobs[a.job := jobs[a.job].(result := Some(Result(a, status, data)))];
      return Ok;
    }

    // Workers

    method RegisterWorker(w: WorkerID, spec: WorkerSpec) returns (err: Error)
      modifies this`workers, this`boxes
      ensures Tx(Db(), err) == T.Register(old(Db()), w, spec)
      ensures Inv(old(Db())) ==> Inv(Db())
      ensures Inv(old(Db())) && err == Ok ==> T.Authenticated(Db(), w) && Idles(Db(), w, spec) && ActiveOf(attempts, w) == {}
      ensures Inv(old(Db())) && err == Ok ==> forall s :: Matches(Db(), s, w) <==> Awaits(old(Db()), s, spec.box)
    {
      ghost var before := Db();
      err := Enrol(w, spec);
      if Inv(before) {
        Safety.RegisterKeepsInv(before, w, spec);
        if err == Ok {
          NewcomerIsAdmitted(before, w, spec);
        }
      }
    }

    method Enrol(w: WorkerID, spec: WorkerSpec) returns (err: Error)
      modifies this`workers, this`boxes
      ensures Tx(Db(), err) == T.Register(old(Db()), w, spec)
    {
      if spec.maxSlots <= 0 || w in workers {
        return Conflict;
      }
      var hold := None;
      if spec.box in boxes {
        hold := boxes[spec.box].reserved;
      }
      var reserved, epoch := None, 0;
      if hold.Some? && hold.value in sessions && sessions[hold.value].state.SessionRecovering? {
        reserved, epoch := hold, sessions[hold.value].epoch;
      }
      workers := workers[w := Worker(spec, spec.maxSlots, reserved, epoch, Report("", map[]))];
      boxes := boxes[spec.box := Box(Some(w), spec.caps, "ready", hold)];
      return Ok;
    }

    /** The worker's report is accepted only if every attempt in it is the worker's own
        and is active, or belongs to a job that the worker must now cancel. */
    method HeartbeatWorker(w: WorkerID, freeSlots: int, reported: seq<AttemptID>, report: Report) returns (err: Error)
      modifies this`workers
      ensures Tx(Db(), err) == T.Heartbeat(old(Db()), w, freeSlots, reported, report)
    {
      if w !in workers {
        return NotFound;
      }
      if freeSlots < 0 || freeSlots > workers[w].spec.maxSlots {
        return Conflict;
      }
      var canceled := CountCancellations(w, reported);
      if canceled.None? {
        return Conflict;
      }
      workers := workers[w := workers[w].(
        freeSlots := Min(workers[w].spec.maxSlots, freeSlots + canceled.value), report := report)];
      return Ok;
    }

    method CountCancellations(w: WorkerID, reported: seq<AttemptID>) returns (canceled: Option<nat>)
      ensures canceled == T.Cancellations(Db(), w, reported)
    {
      var n, i := 0, 0;
      while i < |reported|
        invariant 0 <= i <= |reported|
        invariant T.Cancellations(Db(), w, reported[..i]) == Some(n)
      {
        var a := reported[i];
        assert reported[..i + 1][..i] == reported[..i] && reported[..i + 1][i] == a;
        if a !in attempts || attempts[a].worker != w {
          Refused(Db(), w, reported, i);
          return None;
        }
        if !attempts[a].state.Active() {
          if a.job !in jobs || !T.TellsToCancel(jobs[a.job].state) {
            Refused(Db(), w, reported, i);
            return None;
          }
          n := n + 1;
        }
        i := i + 1;
      }
      assert reported[..i] == reported;
      return Some(n);
    }

    // Sessions

    method CreateSession(s: SessionID, spec: SessionSpec, epoch: nat) returns (err: Error)
      modifies this`sessions
      ensures Tx(Db(), err) == T.CreateSession(old(Db()), s, spec, epoch)
      ensures Inv(old(Db())) ==> Inv(Db())
      ensures Inv(old(Db())) && err == Ok ==> Unknown(Db(), s) && Pends(Db(), s, spec, epoch)
    {
      if Inv(Db()) {
        Safety.OpenKeepsInv(Db(), s, spec, epoch);
        if T.CreateSession(Db(), s, spec, epoch).err == Ok {
          CreatedFresh(Db(), s, spec, epoch);
        }
      }
      if s in sessions || (spec.policy.RecoveryRebuild? && (spec.plan == [] || "" in spec.plan)) {
        return Conflict;
      }
      var first := if epoch == 0 then 1 else epoch;
      sessions := sessions[s := Session(spec, SessionPending, first, None, None, RecoveryIdle, 0, None, false)];
      return Ok;
    }

    method FinishSession(s: SessionID, to: SessionState, code: string, at: Time)
      requires s in sessions
      modifies this
      ensures Db() == T.FinishSession(old(Db()), s, to, code, at)
    {
      var v := sessions[s];
      if v.state.Terminal() {
        return;
      }
      var jobEnd, attemptEnd := JobCanceled, AttemptCanceled;
      if to.SessionLost? {
        jobEnd, attemptEnd := JobSessionLost, AttemptLost;
      }
      sessions := sessions[s := v.(state := to)];
      FinishSessionJobs(s, jobEnd, code, at);
      SameOwnership(old(jobs), jobs, attempts, leases, s, attemptEnd, code, at);
      FinishSessionAttempts(s, attemptEnd, code, at);
      ReleaseSeat(s, v);
    }

    method ReleaseSeat(s: SessionID, v: Session)
      modifies this`workers, this`boxes
      ensures workers == if v.worker.Some? && v.worker.value in old(workers) && old(workers)[v.worker.value].reserved == Some(s)
                         then old(workers)[v.worker.value := old(workers)[v.worker.value].(reserved := None)] else old(workers)
      ensures boxes == if v.box.Some? && v.box.value in old(boxes) && old(boxes)[v.box.value].reserved == Some(s)
                       then old(boxes)[v.box.value := T.Unreserve(old(boxes)[v.box.value])] else old(boxes)
    {
      if v.worker.Some? && v.worker.value in workers && workers[v.worker.value].reserved == Some(s) {
        workers := workers[v.worker.value := workers[v.worker.value].(reserved := None)];
      }
      if v.box.Some? && v.box.value in boxes && boxes[v.box.value].reserved == Some(s) {
        boxes := boxes[v.box.value := T.Unreserve(boxes[v.box.value])];
      }
    }

    // The unfinished jobs of the session end, and then each gets its event.
    method FinishSessionJobs(s: SessionID, to: JobState, code: string, at: Time)
      modifies this`jobs
      ensures jobs == T.FinishJobs(old(jobs), s, to, code, at)
    {
      var changed := set j | j in jobs && jobs[j].spec.session == Some(s) && !jobs[j].state.Terminal();
      SetStates(changed, to, at);
      AppendEach(changed, Event(JobTransition(to, code), None, at, 0, ""));
    }

    method SetStates(ids: set<JobID>, to: JobState, at: Time)
      modifies this`jobs
      ensures jobs.Keys == old(jobs).Keys
      ensures forall j :: j in jobs ==>
        jobs[j] == if j in ids then old(jobs)[j].(state := to, updated := at) else old(jobs)[j]
    {
      jobs := map j | j in jobs :: if j in ids then jobs[j].(state := to, updated := at) else jobs[j];
    }

    method AppendEach(ids: set<JobID>, e: Event)
      requires ids <= jobs.Keys
      modifies this`jobs
      ensures jobs.Keys == old(jobs).Keys
      ensures forall j :: j in jobs ==>
        jobs[j] == if j in ids then old(jobs)[j].(log := old(jobs)[j].log + [e]) else old(jobs)[j]
    {
      var todo := ids;
      while todo != {}
        invariant todo <= ids
        invariant jobs.Keys == old(jobs).Keys
        invariant forall j :: j in jobs ==>
          jobs[j] == if j in ids && j !in todo then old(jobs)[j].(log := old(jobs)[j].log + [e]) else old(jobs)[j]
        decreases todo
      {
        var j :| j in todo;
        Append(j, e);
        todo := todo - {j};
      }
    }

    method FinishSessionAttempts(s: SessionID, to: AttemptState, code: string, at: Time)
      modifies this`attempts, this`leases
      ensures attempts == T.FinishAttempts(jobs, old(attempts), s, to, code, at)
      ensures leases == map a | a in old(leases) && !T.OwnedBy(jobs, a.job, s) :: old(leases)[a]
    {
      attempts := map a | a in attempts ::
        if T.OwnedBy(jobs, a.job, s) && attempts[a].state.Active() then
          attempts[a].(state := to, failure := Some(Failure(code, false)), endedAt := Some(at))
        else attempts[a];
      leases := map a | a in leases && !T.OwnedBy(jobs, a.job, s) :: leases[a];
    }

    method CloseSession(s: SessionID, at: Time) returns (err: Error)
      modifies this
      ensures Tx(Db(), err) == T.CloseSession(old(Db()), s, at)
      ensures Inv(old(Db())) ==> Inv(Db())
      ensures Inv(old(Db())) && err == Ok ==> AllEnded(Db(), s)
    {
      if Inv(Db()) {
        Safety.CloseKeepsInv(Db(), s, at);
        if s in sessions {
          EndedOwnsNothing(T.CloseSession(Db(), s, at).db, s);
        }
      }
      if s !in sessions {
        return NotFound;
      }
      FinishSession(s, SessionClosed, "session_closed", at);
      return Ok;
    }

    method RequestRecovery(s: SessionID, at: Time) returns (err: Error)
      modifies this`sessions
      ensures Tx(Db(), err) == T.RequestRecovery(old(Db()), s, at)
      ensures Inv(old(Db())) ==> Inv(Db())
      ensures Inv(old(Db())) && err == Ok ==> Fenced(Db(), s) && ClaimableFrom(Db(), s, at)
    {
      ghost var before := Db();
      err := Restart(s, at);
      if Inv(before) {
        Safety.RecoverKeepsInv(before, s, at);
        if T.RequestRecovery(before, s, at).err == Ok {
          RecoveryFences(before, s, at);
        }
      }
    }

    method Restart(s: SessionID, at: Time) returns (err: Error)
      modifies this`sessions
      ensures Tx(Db(), err) == T.RequestRecovery(old(Db()), s, at)
    {
      if s !in sessions || !(sessions[s].state.SessionActive? || sessions[s].state.SessionRecovering?)
         || sessions[s].spec.policy.RecoveryNone? {
        return Conflict;
      }
      sessions := sessions[s := sessions[s].(
        state := SessionRecovering, recovery := RecoveryPending, epoch := sessions[s].epoch + 1,
        worker := None, box := None, acknowledged := false, recoveryAfter := Some(at))];
      return Ok;
    }

    method SetWorkerHealth(w: WorkerID, status: string, at: Time) returns (err: Error)
      modifies this
      ensures Tx(Db(), err) == T.SetHealth(old(Db()), w, status, at)
      ensures Inv(old(Db())) ==> Inv(Db())
      ensures Inv(old(Db())) && status == "dead" && err == Ok ==> ServesNobody(Db(), w)
      ensures w in old(workers) ==> HasStatus(Db(), w, status)
    {
      ghost var before := Db();
      err := NoteHealth(w, status, at);
      if w in before.workers {
        HealthRecorded(before, w, status, at);
      }
      if Inv(before) {
        SetHealthKeepsInv(before, w, status, at);
        if status == "dead" && T.SetHealth(before, w, status, at).err == Ok {
          DeadServesNobody(before, w, at);
        }
      }
    }

    method NoteHealth(w: WorkerID, status: string, at: Time) returns (err: Error)
      modifies this
      ensures Tx(Db(), err) == T.SetHealth(old(Db()), w, status, at)
    {
      if w !in workers {
        return NotFound;
      }
      workers := workers[w := workers[w].(report := workers[w].report.(status := status))];
      var hold := workers[w].reserved;
      if status != "dead" || hold.None? {
        return Ok;
      }
      if hold.value !in sessions {
        return NotFound;
      }
      if !sessions[hold.value].spec.policy.RecoveryNone? {
        err := Restart(hold.value, at);
        return;
      }
      FinishSession(hold.value, SessionLost, "session_lost", at);
      return Ok;
    }

    method ClaimRecovery(s: SessionID, at: Time) returns (err: Error)
      modifies this`sessions
      ensures Tx(Db(), err) == T.ClaimRecovery(old(Db()), s, at)
      ensures Inv(old(Db())) ==> Inv(Db())
      ensures err == Ok ==> Excluded(Db(), s)
    {
      ghost var before := Db();
      err := TakeUp(s, at);
      if err == Ok {
        ClaimExcludes(before, s, at);
      }
      if Inv(before) {
        R.ClaimedKeepsInv(before, s, at);
      }
    }

    method TakeUp(s: SessionID, at: Time) returns (err: Error)
      modifies this`sessions
      ensures Tx(Db(), err) == T.ClaimRecovery(old(Db()), s, at)
    {
      if s !in sessions || !sessions[s].state.SessionRecovering?
         || !(sessions[s].recovery.RecoveryPending? || sessions[s].recovery.RecoveryFailed?)
         || (sessions[s].recoveryAfter.Some? && sessions[s].recoveryAfter.value > at) {
        return Conflict;
      }
      sessions := sessions[s := sessions[s].(recovery := RecoveryProvisioning, recoveries := sessions[s].recoveries + 1)];
      return Ok;
    }

    method CompleteRecovery(s: SessionID, epoch: nat, w: WorkerID, box: BoxID) returns (err: Error)
      modifies this`sessions, this`workers
      ensures Tx(Db(), err) == T.CompleteRecovery(old(Db()), s, epoch, w, box)
      ensures Inv(old(Db())) && Matches(old(Db()), s, w) && box == old(workers)[w].spec.box ==>
        Inv(Db()) && (err == Ok ==> Serves(workers, sessions, s))
    {
      ghost var before := Db();
      err := Activate(s, epoch, w, box);
      if Inv(before) && Matches(before, s, w) && box == before.workers[w].spec.box && epoch == before.sessions[s].epoch {
        R.ActivateKeepsInv(before, s, w);
        if T.CompleteRecovery(before, s, epoch, w, box).err == Ok {
          CompletedServes(before, s, w);
        }
      }
    }

    method Activate(s: SessionID, epoch: nat, w: WorkerID, box: BoxID) returns (err: Error)
      modifies this`sessions, this`workers
      ensures Tx(Db(), err) == T.CompleteRecovery(old(Db()), s, epoch, w, box)
    {
      if s !in sessions || sessions[s].epoch != epoch || !sessions[s].state.SessionRecovering? || !sessions[s].acknowledged {
        return Conflict;
      }
      sessions := sessions[s := sessions[s].(
        state := SessionActive, recovery := RecoveryIdle, worker := Some(w), box := Some(box), recoveryAfter := None)];
      if w in workers {
        workers := workers[w := workers[w].(reserved := Some(s), epoch := epoch)];
      }
      return Ok;
    }

    method FreeWorkers(s: SessionID, epoch: nat)
      modifies this`workers
      ensures workers == T.Disband(old(workers), s, epoch)
    {
      workers := map w | w in workers ::
        if workers[w].reserved == Some(s) && workers[w].epoch == epoch
        then workers[w].(reserved := None, epoch := 0) else workers[w];
    }

    method FailRecovery(s: SessionID, epoch: nat, retryAt: Time) returns (err: Error)
      modifies this`sessions, this`workers
      ensures Tx(Db(), err) == T.FailRecovery(old(Db()), s, epoch, retryAt)
      ensures Inv(old(Db())) ==> Inv(Db())
      ensures err == Ok ==> Unmatched(Db(), s) && forall at :: T.ClaimRecovery(Db(), s, at).err == Ok <==> retryAt <= at
    {
      ghost var before := Db();
      err := Postpone(s, epoch, retryAt);
      if Inv(before) {
        R.FailRecoveryKeepsInv(before, s, epoch, retryAt);
      }
      if T.FailRecovery(before, s, epoch, retryAt).err == Ok {
        forall at ensures T.ClaimRecovery(T.FailRecovery(before, s, epoch, retryAt).db, s, at).err == Ok <==> retryAt <= at {
          FailedFrees(before, s, epoch, retryAt, at);
        }
        FailedFrees(before, s, epoch, retryAt, retryAt);
      }
    }

    method Postpone(s: SessionID, epoch: nat, retryAt: Time) returns (err: Error)
      modifies this`sessions, this`workers
      ensures Tx(Db(), err) == T.FailRecovery(old(Db()), s, epoch, retryAt)
    {
      if s !in sessions || sessions[s].epoch != epoch || !sessions[s].state.SessionRecovering? {
        return Conflict;
      }
      sessions := sessions[s := sessions[s].(recovery := RecoveryFailed, recoveryAfter := Some(retryAt))];
      FreeWorkers(s, epoch);
      return Ok;
    }

    method AcknowledgeRecovery(s: SessionID, epoch: nat, w: WorkerID) returns (err: Error)
      modifies this`sessions
      ensures Tx(Db(), err) == T.AcknowledgeRecovery(old(Db()), s, epoch, w)
      ensures Inv(old(Db())) ==> Inv(Db())
      ensures err == Ok ==> forall e, v, box :: T.CompleteRecovery(Db(), s, e, v, box).err == Ok <==> e == epoch
    {
      ghost var before := Db();
      err := Acknowledge(s, epoch, w);
      if err == Ok {
        forall e, v, box ensures T.CompleteRecovery(Db(), s, e, v, box).err == Ok <==> e == epoch {
          AcknowledgedOpens(before, s, epoch, w, e, v, box);
        }
      }
      if Inv(before) {
        R.AcknowledgedKeepsInv(before, s, epoch, w);
      }
    }

    method Acknowledge(s: SessionID, epoch: nat, w: WorkerID) returns (err: Error)
      modifies this`sessions
      ensures Tx(Db(), err) == T.AcknowledgeRecovery(old(Db()), s, epoch, w)
    {
      if s !in sessions || sessions[s].epoch != epoch || !sessions[s].state.SessionRecovering?
         || w !in workers || workers[w].reserved != Some(s) || workers[w].epoch != epoch {
        return Conflict;
      }
      sessions := sessions[s := sessions[s].(acknowledged := true, recovery := RecoveryRestoring)];
      return Ok;
    }

    method TerminalRecovery(s: SessionID, epoch: nat, at: Time) returns (err: Error)
      modifies this
      ensures Tx(Db(), err) == T.TerminalRecovery(old(Db()), s, epoch, at)
      ensures Inv(old(Db())) ==> Inv(Db())
      ensures Inv(old(Db())) && err == Ok ==> AllEnded(Db(), s) && Abandoned(Db(), s)
    {
      ghost var before := Db();
      err := Lose(s, epoch, at);
      if Inv(before) {
        TerminalRecoveryKeepsInv(before, s, epoch, at);
        if T.TerminalRecovery(before, s, epoch, at).err == Ok {
          TerminalAbandons(before, s, epoch, at);
          EndedOwnsNothing(T.TerminalRecovery(before, s, epoch, at).db, s);
        }
      }
    }

    method Lose(s: SessionID, epoch: nat, at: Time) returns (err: Error)
      modifies this
      ensures Tx(Db(), err) == T.TerminalRecovery(old(Db()), s, epoch, at)
    {
      if s !in sessions {
        return NotFound;
      }
      if sessions[s].epoch != epoch || !sessions[s].state.SessionRecovering? {
        return Conflict;
      }
      FinishSession(s, SessionLost, "recovery_failed", at);
      sessions := sessions[s := sessions[s].(recovery := RecoveryFailed)];
      FreeWorkers(s, epoch);
      boxes := map b | b in boxes :: if boxes[b].reserved == Some(s) then T.Unreserve(boxes[b]) else boxes[b];
      return Ok;
    }
  }
}
