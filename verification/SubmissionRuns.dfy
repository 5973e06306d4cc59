/** A job runs on the terms of the request that created it. */
module SubmissionRuns {
  import opened Domain
  import opened Tables
  import opened Transactions
  import opened Invariants
  import opened Progress
  import opened Protocol
  import opened Safety
  import opened Steps
  import opened Leasing
  import opened JobRuns
  import opened Outcomes
  import opened OutcomeRuns
  import opened Eligibility

  // Admission

  // What `CheckDeps` asks of the dependencies, given those it has seen.
  predicate DepsFit(jobs: Jobs, id: JobID, session: Option<SessionID>, deps: seq<JobID>) {
    && NoRepeats(deps)
    && forall d :: d in deps ==> d != id && d in jobs && jobs[d].spec.session == session
  }

  lemma {:induction false} DepsChecked(jobs: Jobs, id: JobID, session: Option<SessionID>, deps: seq<JobID>, seen: set<JobID>)
    ensures CheckDeps(jobs, id, session, deps, seen) == Ok <==>
      DepsFit(jobs, id, session, deps) && forall d :: d in deps ==> d !in seen
  {
    if deps != [] {
      var d, rest := deps[0], deps[1..];
      DepsChecked(jobs, id, session, rest, seen + {d});
      assert deps == [d] + rest && d in deps;
      HeadApart(d, rest);
      assert forall e :: e in deps <==> e == d || e in rest;
      if CheckDeps(jobs, id, session, deps, seen) == Ok {
        assert d !in rest by { assert d in seen + {d}; }
      }
    }
  }

  lemma HeadApart<T>(x: T, xs: seq<T>)
    ensures NoRepeats([x] + xs) <==> NoRepeats(xs) && x !in xs
  {
    var all := [x] + xs;
    if NoRepeats(all) {
      forall i, j | 0 <= i < j < |xs| ensures xs[i] != xs[j] {
        assert all[i + 1] != all[j + 1];
      }
      forall i | 0 <= i < |xs| ensures xs[i] != x {
        assert all[0] != all[i + 1];
      }
    }
  }

  /** A request is admitted if its key and its id are free, its dependencies are different
      jobs of its session of which none has ended without success, and its session is open. */
  predicate Admissible(db: DB, r: NewJob) {
    && (r.key.Some? ==> forall j :: j in db.jobs ==> db.jobs[j].spec.key != r.key)
    && r.id !in db.jobs
    && DepsFit(db.jobs, r.id, r.session, r.deps)
    && (forall d :: d in r.deps && d in db.jobs ==> !db.jobs[d].state.Doomed())
    && (r.session.Some? ==> r.session.value in db.sessions && !db.sessions[r.session.value].state.Terminal())
  }

  lemma AdmittedExactly(db: DB, r: NewJob)
    ensures var db' := CreateJob(db, r).db;
      if Admissible(db, r) then db' == db.(jobs := db.jobs[r.id := NewRow(db, r)]) else db' == db
  {
    DepsChecked(db.jobs, r.id, r.session, r.deps, {});
    if r.key.Some? {
      KeyFree(db.jobs, r.key.value);
    }
  }

  // The key of the request names a job already.
  predicate KeyTaken(jobs: Jobs, r: NewJob) {
    r.key.Some? && exists j :: j in jobs && jobs[j].spec.key == r.key
  }

  // What the request refers to and the store does not have.
  predicate Missing(db: DB, r: NewJob) {
    || (exists d :: d in r.deps && d !in db.jobs)
    || (r.session.Some? && r.session.value !in db.sessions)
  }

  lemma {:induction false} DepsMissing(jobs: Jobs, id: JobID, session: Option<SessionID>, deps: seq<JobID>, seen: set<JobID>)
    ensures CheckDeps(jobs, id, session, deps, seen) == NotFound ==> exists d :: d in deps && d !in jobs
  {
    if deps != [] {
      DepsMissing(jobs, id, session, deps[1..], seen + {deps[0]});
      if CheckDeps(jobs, id, session, deps, seen) == NotFound && deps[0] in jobs {
        var d :| d in deps[1..] && d !in jobs;
        assert d in deps;
      }
    }
  }

  /** A request is answered without an error exactly if it is admissible or its key names a
      job; it is not found only for want of a dependency or a session, or where the id alone
      is taken. */
  lemma AnsweredExactly(db: DB, r: NewJob)
    ensures CreateJob(db, r).err == Ok <==> Admissible(db, r) || KeyTaken(db.jobs, r)
    ensures CreateJob(db, r).err == NotFound ==> Missing(db, r) || r.id in db.jobs
  {
    DepsChecked(db.jobs, r.id, r.session, r.deps, {});
    DepsMissing(db.jobs, r.id, r.session, r.deps, {});
    if r.key.Some? {
      KeyFree(db.jobs, r.key.value);
    }
  }

  lemma KeyFree(jobs: Jobs, key: Key)
    ensures JobWith(jobs, key) == {} <==> forall j :: j in jobs ==> jobs[j].spec.key != Some(key)
  {
    if JobWith(jobs, key) == {} {
      forall j | j in jobs ensures jobs[j].spec.key != Some(key) {
        assert j !in JobWith(jobs, key);
      }
    }
  }

  // Every column that the request determines.
  ghost predicate OnTerms(spec: JobSpec, r: NewJob) {
    && spec.session == r.session
    && (forall d :: d in spec.deps <==> d in r.deps)
    && spec.key == r.key
    && spec.maxAttempts == r.maxAttempts
    && spec.backoff == r.backoff
    && spec.maxBackoff == r.maxBackoff
    && spec.maxElapsed == r.maxElapsed
    && spec.timeoutAt == r.timeoutAt
    && spec.view.id == r.id && spec.view.created == r.view.created && spec.view.want == r.view.want
  }

  // A job that nothing has happened to, on the terms of `r`.
  ghost predicate Starts(jobs: Jobs, row: Job, r: NewJob) {
    && OnTerms(row.spec, r)
    && row.nextAt.None? && row.log == [] && row.result.None?
    && (row.state.JobQueued? || row.state.JobWaiting?)
    && (row.state.JobQueued? <==> forall d :: d in r.deps && d in jobs ==> jobs[d].state.JobSucceeded?)
  }

  lemma NewRowStarts(db: DB, r: NewJob)
    ensures Starts(db.jobs, NewRow(db, r), r)
  {
  }

  // An admissible request adds its job and changes nothing else; any other changes nothing.
  ghost predicate Submits(db: DB, db': DB, r: NewJob) {
    if Admissible(db, r)
    then r.id in db'.jobs && db' == db.(jobs := db.jobs[r.id := db'.jobs[r.id]]) && Starts(db.jobs, db'.jobs[r.id], r)
    else db' == db
  }

  lemma SubmitStep(db: DB, r: NewJob)
    ensures Submits(db, CreateJob(db, r).db, r)
  {
    AdmittedExactly(db, r);
    NewRowStarts(db, r);
  }

  /** In every run, a submission adds its job, on the terms of the request, if and only if
      it is admissible; otherwise it changes nothing. */
  lemma SubmissionOutcome(states: seq<DB>, labels: seq<Label>, i: nat)
    requires IsRun(states, labels) && i < |labels| && labels[i].Submit?
    ensures Submits(states[i], states[i + 1], labels[i].request)
  {
    assert Follows(states, labels, i);
    SubmitStep(states[i], labels[i].request);
  }

  // The terms over a run

  /** Step `i` is a submission that adds the job of request `r`. */
  ghost predicate Adds(states: seq<DB>, labels: seq<Label>, i: nat, r: NewJob)
    requires i < |labels| && |states| == |labels| + 1
  {
    labels[i] == Submit(r) && r.id !in states[i].jobs && r.id in states[i + 1].jobs
  }

  lemma {:induction false} TermsStay(states: seq<DB>, labels: seq<Label>, i: nat, r: NewJob, k: nat)
    requires IsRun(states, labels) && i < k < |states| && Adds(states, labels, i, r)
    ensures r.id in states[k].jobs && OnTerms(states[k].jobs[r.id].spec, r)
    decreases k
  {
    if k == i + 1 {
      SubmissionOutcome(states, labels, i);
    } else {
      TermsStay(states, labels, i, r, k - 1);
      RunMoves(states, labels, k - 1);
      assert JobMoves(states[k - 1].jobs[r.id], states[k].jobs[r.id]);
    }
  }

  /** The deadline of the request holds: after any TimeoutJobs at or past it, the job is over
      for the rest of the run. */
  lemma DeadlineHolds(states: seq<DB>, labels: seq<Label>, i: nat, r: NewJob, k: nat, m: nat)
    requires IsRun(states, labels) && i < k < m < |states| && Adds(states, labels, i, r)
    requires labels[k].TimeoutJobs? && r.timeoutAt.Some? && r.timeoutAt.value <= labels[k].at
    ensures r.id in states[m].jobs && states[m].jobs[r.id].state.Terminal()
  {
    TermsStay(states, labels, i, r, k);
    TimeoutOutcome(states, labels, k);
    if states[k].jobs[r.id].state.Terminal() {
      TerminalFreeze(states, labels, k, k + 1, r.id);
    } else {
      assert r.id in Late(states[k], labels[k].at);
    }
    TerminalFreeze(states, labels, k + 1, m, r.id);
  }

  /** The retry limit of the request holds. */
  lemma LimitHolds(states: seq<DB>, labels: seq<Label>, i: nat, r: NewJob, k: nat)
    requires IsRun(states, labels) && i < k < |states| && Adds(states, labels, i, r)
    ensures |Made(states[k].attempts, r.id)| <= Max(1, r.maxAttempts)
  {
    TermsStay(states, labels, i, r, k);
    RunPaced(states, labels, k);
    MadeIsLast(states[k], r.id);
  }

  /** The key of the request holds: no later submission under it adds a job. */
  lemma KeyHolds(states: seq<DB>, labels: seq<Label>, i: nat, r: NewJob, k: nat)
    requires IsRun(states, labels) && i < k < |labels| && Adds(states, labels, i, r)
    requires labels[k].Submit? && r.key.Some? && labels[k].request.key == r.key
    ensures states[k + 1] == states[k]
  {
    TermsStay(states, labels, i, r, k);
    SubmissionOutcome(states, labels, k);
  }

  // Retries

  // Until the next attempt, job `j` is as it was when it was queued, or it is over.
  ghost predicate Idle(states: seq<DB>, j: JobID, k: nat, m: nat)
    requires k <= m < |states| && j in states[k].jobs
  {
    && j in states[m].jobs
    && var n, n' := MaxNumber(states[k].attempts.Keys, j), MaxNumber(states[m].attempts.Keys, j);
    && n <= n'
    && (n == n' ==> states[m].jobs[j] == states[k].jobs[j] || states[m].jobs[j].state.Terminal())
  }

  lemma IdleStep(x: Job, y: Job)
    requires JobMoves(x, y) && (x.state.JobQueued? || x.state.Terminal())
    ensures y == x || y.state.Terminal() || y.state.JobLeased?
  {
  }

  lemma {:induction false} IdleUntilRetry(states: seq<DB>, labels: seq<Label>, j: JobID, k: nat, m: nat)
    requires IsRun(states, labels) && k <= m < |states| && j in states[k].jobs && states[k].jobs[j].state.JobQueued?
    ensures Idle(states, j, k, m)
    decreases m
  {
    if k < m {
      IdleUntilRetry(states, labels, j, k, m - 1);
      RunMoves(states, labels, m - 1);
      NumbersStep(states[m - 1], states[m], j);
      var x, y := states[m - 1].jobs[j], states[m].jobs[j];
      assert JobMoves(x, y);
      if x.state.JobQueued? || x.state.Terminal() {
        IdleStep(x, y);
      }
    }
  }

  /** The backoff of the request holds: when an expired attempt `a` sends the job back to the
      queue, it gets its next attempt no earlier than the delay of `r` after the expiry. */
  lemma BackoffHolds(states: seq<DB>, labels: seq<Label>, i: nat, r: NewJob, k: nat, a: AttemptID, m: nat)
    requires IsRun(states, labels) && i < k < m < |labels| && Adds(states, labels, i, r)
    requires IsExpiry(labels[k]) && a in Lapsed(states[k], labels[k]) && a.job == r.id
    requires var b := AttemptID(r.id, a.number + 1); b !in states[m].attempts && b in states[m + 1].attempts
    ensures IsClaim(labels[m]) && a in states[k].attempts
    ensures exists delay :: Waits(r.backoff, r.maxBackoff, a.number, states[k].attempts[a].hash, delay)
                            && labels[k].at + delay <= labels[m].act.now
  {
    var b := AttemptID(r.id, a.number + 1);
    ExpiredThenQueued(states, labels, i, r, k, a);
    AttemptsAreEligible(states, labels, m, b);
    NextAttempt(states, labels, k, a, m);
    var delay := states[m].jobs[r.id].nextAt.value - labels[k].at;
    assert Waits(r.backoff, r.maxBackoff, a.number, states[k].attempts[a].hash, delay);
  }

  /** While the job waits for that attempt, its row says until when. */
  lemma RetryTime(states: seq<DB>, labels: seq<Label>, i: nat, r: NewJob, k: nat, a: AttemptID, m: nat)
    requires IsRun(states, labels) && i < k < m < |states| && Adds(states, labels, i, r)
    requires IsExpiry(labels[k]) && a in Lapsed(states[k], labels[k]) && a.job == r.id && a in states[k].attempts
    requires |Made(states[m].attempts, r.id)| == a.number && r.id in states[m].jobs && states[m].jobs[r.id].state.JobQueued?
    ensures states[m].jobs[r.id].nextAt.Some?
    ensures Waits(r.backoff, r.maxBackoff, a.number, states[k].attempts[a].hash, states[m].jobs[r.id].nextAt.value - labels[k].at)
  {
    ExpiredThenQueued(states, labels, i, r, k, a);
    if states[k + 1].jobs[r.id].state.Terminal() {
      TerminalFreeze(states, labels, k + 1, m, r.id);
    } else {
      RunPaced(states, labels, m);
      MadeIsLast(states[m], r.id);
      IdleUntilRetry(states, labels, r.id, k + 1, m);
    }
  }

  lemma ExpiredThenQueued(states: seq<DB>, labels: seq<Label>, i: nat, r: NewJob, k: nat, a: AttemptID)
    requires IsRun(states, labels) && i < k < |labels| && Adds(states, labels, i, r)
    requires IsExpiry(labels[k]) && a in Lapsed(states[k], labels[k]) && a.job == r.id
    ensures a in states[k].attempts && r.id in states[k].jobs && r.id in states[k + 1].jobs
    ensures ExpiryDecides(states[k].jobs[r.id], states[k + 1].jobs[r.id], a.number, states[k].attempts[a].hash, labels[k].at)
    ensures OnTerms(states[k].jobs[r.id].spec, r)
    ensures MaxNumber(states[k + 1].attempts.Keys, r.id) == a.number
  {
    TermsStay(states, labels, i, r, k);
    ExpiryOutcome(states, labels, k);
    RunPaced(states, labels, k);
    assert Live(states[k].attempts, a);
  }

  // The job waits unchanged from the expiry of `a` to the claim at step `m`.
  lemma NextAttempt(states: seq<DB>, labels: seq<Label>, k: nat, a: AttemptID, m: nat)
    requires IsRun(states, labels) && k < m < |labels|
    requires MaxNumber(states[k + 1].attempts.Keys, a.job) == a.number
    requires a.job in states[k + 1].jobs
    requires states[k + 1].jobs[a.job].state.JobQueued? || states[k + 1].jobs[a.job].state.Terminal()
    requires a.job in states[m].jobs && states[m].jobs[a.job].state.JobQueued?
    requires var b := AttemptID(a.job, a.number + 1); b !in states[m].attempts && b in states[m + 1].attempts
    ensures states[m].jobs[a.job] == states[k + 1].jobs[a.job]
  {
    if states[k + 1].jobs[a.job].state.Terminal() {
      TerminalFreeze(states, labels, k + 1, m, a.job);
    } else {
      IdleUntilRetry(states, labels, a.job, k + 1, m);
      RunMoves(states, labels, m);
      var db, db' := states[m], states[m + 1];
      assert Accepts(db, AttemptID(a.job, a.number + 1), db'.jobs, db'.attempts, db'.leases);
    }
  }
}
