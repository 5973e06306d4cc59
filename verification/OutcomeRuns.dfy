/** How jobs end, over whole runs. */
module OutcomeRuns {
  import opened Domain
  import opened Tables
  import opened Transactions
  import opened Invariants
  import opened Endings
  import opened JobSteps
  import opened Progress
  import opened Protocol
  import opened Safety
  import opened Steps
  import opened Leasing
  import opened JobRuns
  import opened Outcomes

  // What one step decides

  predicate IsCompletion(l: Label) {
    l.FromWorker? && l.act.CompleteJob?
  }

  predicate IsExpiry(l: Label) {
    l.ExpireLeases? || l.ExpireWorkerLeases?
  }

  // The leases that the sweep takes back.
  function Lapsed(db: DB, l: Label): set<AttemptID>
    requires IsExpiry(l)
  {
    if l.ExpireLeases? then set a | a in db.leases && db.leases[a].expires <= l.at
    else set a | a in db.leases && db.leases[a].worker == l.w
  }

  // The jobs that are past their deadline and not over yet.
  function Late(db: DB, at: Time): set<JobID> {
    set j | j in db.jobs && !db.jobs[j].state.Terminal() && Passed(db.jobs[j].spec.timeoutAt, at)
  }

  // The attempt, its lease and its worker's slot; the job; the job's dependents.
  ghost predicate Completes(db: DB, db': DB, w: WorkerID, a: AttemptID, c: Completion, at: Time) {
    && CompletionCloses(db, db', w, a, c, at)
    && a.job in db.jobs && a.job in db'.jobs && a.number == |Made(db.attempts, a.job)|
    && CompletionDecides(db.jobs[a.job], db'.jobs[a.job], |Made(db.attempts, a.job)|, c, at)
    && TouchedBut(db.jobs, db'.jobs, a.job)
  }

  lemma CompletionStep(db: DB, w: WorkerID, a: AttemptID, c: Completion, at: Time)
    requires Inv(db)
    ensures var t := Complete(db, w, a, c, at);
      if InTime(db, w, a, at) then t.err == Ok && Completes(db, t.db, w, a, c, at) else t.err != Ok && t.db == db
  {
    CompleteAccepts(db, w, a, c, at);
    if InTime(db, w, a, at) {
      NumberIsCount(db, a);
      CompleteCloses(db, w, a, c, at);
      CompleteDecides(db, w, a, c, at);
    }
  }

  lemma DueAreLapsed(db: DB, l: Label)
    requires Coherent(db.jobs, db.attempts, db.leases) && Enabled(db, l) && IsExpiry(l)
    ensures Elements(l.due) == Lapsed(db, l) && NoRepeats(l.due) && forall a :: a in l.due ==> Live(db.attempts, a)
  {
    assert forall a :: a in db.leases ==> Live(db.attempts, a);
  }

  lemma ExpiryStep(db: DB, l: Label)
    requires Inv(db) && Enabled(db, l) && IsExpiry(l)
    ensures Reaped(db, Lapsed(db, l), Apply(db, l), l.at)
  {
    DueAreLapsed(db, l);
    ExpireAllReaps(db, l.due, l.at);
  }

  lemma TimeoutStep(db: DB, l: Label)
    requires Inv(db) && Enabled(db, l) && l.TimeoutJobs?
    ensures TimedOut(db, Late(db, l.at), Apply(db, l), l.at)
  {
    assert Elements(l.overdue) == Late(db, l.at);
    TimeOutAllDecides(db, l.overdue, l.at);
  }

  /** In every run, a completion counts if and only if an authenticated worker sends it for
      its own active attempt before the lease runs out. Then the attempt ends, the slot is
      returned, and the job succeeds, fails, or is queued again exactly if the failure is
      retryable, fewer attempts were made than allowed, and the deadline is ahead. */
  lemma CompletionOutcome(states: seq<DB>, labels: seq<Label>, i: nat)
    requires IsRun(states, labels) && i < |labels| && IsCompletion(labels[i])
    ensures var db, db', w, act := states[i], states[i + 1], labels[i].w, labels[i].act;
      if Authenticated(db, w) && InTime(db, w, act.a, act.now) then Completes(db, db', w, act.a, act.completion, act.now)
      else db' == db
  {
    assert Follows(states, labels, i);
    Reachable(states, labels, i);
    CompletionApplies(states[i], labels[i].w, labels[i].act);
    CompletionStep(states[i], labels[i].w, labels[i].act.a, labels[i].act.completion, labels[i].act.now);
  }

  lemma CompletionApplies(db: DB, w: WorkerID, act: WorkerAct)
    requires act.CompleteJob?
    ensures Apply(db, FromWorker(w, act)) ==
      if Authenticated(db, w) then Complete(db, w, act.a, act.completion, act.now).db else db
  {
  }

  /** In every run, a sweep over the leases expires exactly the attempts whose lease has run
      out, or those of the dead worker. Their jobs time out if the deadline has passed, fail
      if attempts or time are used up, and otherwise are queued until the delay is over. */
  lemma ExpiryOutcome(states: seq<DB>, labels: seq<Label>, i: nat)
    requires IsRun(states, labels) && i < |labels| && IsExpiry(labels[i])
    ensures Reaped(states[i], Lapsed(states[i], labels[i]), states[i + 1], labels[i].at)
  {
    assert Follows(states, labels, i);
    Reachable(states, labels, i);
    ExpiryStep(states[i], labels[i]);
  }

  /** In every run, TimeoutJobs ends exactly the jobs that are past their deadline, with
      their active attempts, and returns the slots of those. */
  lemma TimeoutOutcome(states: seq<DB>, labels: seq<Label>, i: nat)
    requires IsRun(states, labels) && i < |labels| && labels[i].TimeoutJobs?
    ensures TimedOut(states[i], Late(states[i], labels[i].at), states[i + 1], labels[i].at)
  {
    assert Follows(states, labels, i);
    Reachable(states, labels, i);
    TimeoutStep(states[i], labels[i]);
  }

  lemma CancelStep(db: DB, j: JobID, at: Time)
    requires Inv(db)
    ensures var db' := Cancel(db, j, at).db;
      if j in db.jobs && !db.jobs[j].state.Terminal() then Canceled(db, j, db', at) else db' == db
  {
    if j in db.jobs && !db.jobs[j].state.Terminal() {
      CancelDecides(db, j, at);
    }
  }

  /** In every run, a cancellation ends exactly the job that it names, unless that is over. */
  lemma CancelOutcome(states: seq<DB>, labels: seq<Label>, i: nat)
    requires IsRun(states, labels) && i < |labels| && labels[i].CancelJob?
    ensures var db, db', j := states[i], states[i + 1], labels[i].job;
      if j in db.jobs && !db.jobs[j].state.Terminal() then Canceled(db, j, db', labels[i].at) else db' == db
  {
    assert Follows(states, labels, i);
    Reachable(states, labels, i);
    CancelStep(states[i], labels[i].job, labels[i].at);
  }

  lemma SessionStep(db: DB, l: Label)
    requires Inv(db) && Enabled(db, l) && OnSessions(l)
    ensures Outgrows(db, Apply(db, l))
  {
    if l.AdoptReplacement? {
      AdoptStepOutgrows(db, l.s, l.w, l.at);
    } else {
      SessionStepOutgrows(db, l);
    }
  }

  /** In every run, a step on sessions and workers changes exactly the unfinished jobs and
      the active attempts of the sessions that it ends: they are lost with a lost session
      and canceled with a closed one. */
  lemma SessionEndOutcome(states: seq<DB>, labels: seq<Label>, i: nat)
    requires IsRun(states, labels) && i < |labels| && OnSessions(labels[i])
    ensures Outgrows(states[i], states[i + 1])
  {
    assert Follows(states, labels, i);
    Reachable(states, labels, i);
    SessionStep(states[i], labels[i]);
  }

  // Which jobs fail

  // The step ends attempt `a` by a completion or an expiry, and decides its job.
  ghost predicate Concludes(db: DB, l: Label, db': DB, a: AttemptID) {
    && Live(db.attempts, a) && a in db'.attempts && a.job in db.jobs && a.job in db'.jobs
    && var x, y, at := db.jobs[a.job], db'.jobs[a.job], db'.attempts[a].endedAt;
    && at.Some?
    && (|| (IsCompletion(l) && l.act.completion.Success?
            && AttemptEnds(db.attempts[a], db'.attempts[a], AttemptSucceeded, None, at.value)
            && y.state.JobSucceeded?)
        || (IsCompletion(l) && l.act.completion.Failed?
            && AttemptEnds(db.attempts[a], db'.attempts[a], AttemptFailed, Some(l.act.completion.failure), at.value)
            && CompletionDecides(x, y, a.number, l.act.completion, at.value))
        || (IsExpiry(l) && AttemptEnds(db.attempts[a], db'.attempts[a], AttemptExpired, Some(LAPSED), at.value)
            && ExpiryDecides(x, y, a.number, db.attempts[a].hash, at.value)))
  }

  predicate Withdrawn(x: Attempt, y: Attempt) {
    y == x || y.state.AttemptCanceled? || y.state.AttemptLost?
  }

  // What the step does to attempt `a` and job `j`, as far as failures go.
  ghost predicate AttemptFated(db: DB, l: Label, db': DB, a: AttemptID)
    requires a in db.attempts
  {
    a in db'.attempts && (Withdrawn(db.attempts[a], db'.attempts[a]) || Concludes(db, l, db', a))
  }

  ghost predicate JobFated(db: DB, l: Label, db': DB, j: JobID)
    requires j in db.jobs
  {
    && j in db'.jobs
    && (db'.jobs[j].state.JobFailed? && !db.jobs[j].state.JobFailed? ==> exists a: AttemptID :: a.job == j && Concludes(db, l, db', a))
  }

  // New jobs have no result, and an end only where their session has one.
  ghost predicate Fresh(db: DB, db': DB) {
    forall j :: j in db'.jobs && j !in db.jobs ==> Entered(db'.jobs[j])
  }

  ghost predicate Fated(db: DB, l: Label, db': DB) {
    && Fresh(db, db')
    && (forall a :: a in db.attempts ==> AttemptFated(db, l, db', a))
    && (forall j :: j in db.jobs ==> JobFated(db, l, db', j))
  }

  lemma SessionFated(db: DB, l: Label, db': DB)
    requires Outgrows(db, db')
    ensures Fated(db, l, db')
  {
    forall a | a in db.attempts ensures AttemptFated(db, l, db', a) {
    }
    forall j | j in db.jobs ensures JobFated(db, l, db', j) {
    }
  }

  lemma QuietFated(db: DB, l: Label, db': DB)
    requires forall a :: a in db.attempts ==> a in db'.attempts && db'.attempts[a] == db.attempts[a]
    requires forall j :: j in db.jobs ==> j in db'.jobs && (db'.jobs[j].state.JobFailed? ==> db.jobs[j].state.JobFailed?)
    requires Fresh(db, db')
    ensures Fated(db, l, db')
  {
  }

  lemma CanceledFated(db: DB, l: Label, db': DB, j: JobID, at: Time)
    requires Canceled(db, j, db', at)
    ensures Fated(db, l, db')
  {
    forall a | a in db.attempts ensures AttemptFated(db, l, db', a) {
      assert a !in ActiveIn(db.attempts, {j}) ==> db'.attempts[a] == db.attempts[a];
    }
    forall k | k in db.jobs ensures JobFated(db, l, db', k) {
      assert k != j ==> Touched(db.jobs[k], db'.jobs[k]);
    }
  }

  lemma LateFated(db: DB, l: Label, db': DB, late: set<JobID>, at: Time)
    requires TimedOut(db, late, db', at)
    ensures Fated(db, l, db')
  {
    forall a | a in db.attempts ensures AttemptFated(db, l, db', a) {
      assert a !in ActiveIn(db.attempts, late) ==> db'.attempts[a] == db.attempts[a];
    }
    forall k | k in db.jobs ensures JobFated(db, l, db', k) {
      assert k !in late ==> Touched(db.jobs[k], db'.jobs[k]);
    }
  }

  lemma LapsedConcludes(db: DB, l: Label, db': DB, a: AttemptID)
    requires Coherent(db.jobs, db.attempts, db.leases) && IsExpiry(l) && Reaped(db, Lapsed(db, l), db', l.at)
    requires a in Lapsed(db, l)
    ensures Concludes(db, l, db', a)
  {
    assert Live(db.attempts, a);
  }

  lemma ExpiryFated(db: DB, l: Label, db': DB)
    requires Coherent(db.jobs, db.attempts, db.leases) && IsExpiry(l) && Reaped(db, Lapsed(db, l), db', l.at)
    ensures Fated(db, l, db')
  {
    forall a | a in db.attempts ensures AttemptFated(db, l, db', a) {
      if a in Lapsed(db, l) {
        LapsedConcludes(db, l, db', a);
      }
    }
    forall j | j in db.jobs ensures JobFated(db, l, db', j) {
      if a :| a in Lapsed(db, l) && a.job == j {
        LapsedConcludes(db, l, db', a);
      } else {
        assert Touched(db.jobs[j], db'.jobs[j]);
      }
    }
  }

  lemma CompletionFated(db: DB, l: Label, db': DB)
    requires IsCompletion(l) && Live(db.attempts, l.act.a) && l.act.a.job in db.jobs
    requires TouchedBut(db.jobs, db'.jobs, l.act.a.job) && CompletionCloses(db, db', l.w, l.act.a, l.act.completion, l.act.now)
    requires CompletionDecides(db.jobs[l.act.a.job], db'.jobs[l.act.a.job], l.act.a.number, l.act.completion, l.act.now)
    ensures Fated(db, l, db')
  {
    assert Concludes(db, l, db', l.act.a);
    forall j | j in db.jobs ensures JobFated(db, l, db', j) {
      assert j != l.act.a.job ==> Touched(db.jobs[j], db'.jobs[j]);
    }
  }

  lemma NumberIsCount(db: DB, a: AttemptID)
    requires Paced(db) && Live(db.attempts, a)
    ensures a.job in db.jobs && a.number == |Made(db.attempts, a.job)|
  {
    assert a == Latest(db.attempts, a.job);
    MadeIsLast(db, a.job);
  }

  lemma CompletionStepFated(db: DB, l: Label)
    requires Inv(db) && IsCompletion(l)
    ensures Fated(db, l, Complete(db, l.w, l.act.a, l.act.completion, l.act.now).db)
  {
    var db' := Complete(db, l.w, l.act.a, l.act.completion, l.act.now).db;
    CompletionStep(db, l.w, l.act.a, l.act.completion, l.act.now);
    if InTime(db, l.w, l.act.a, l.act.now) {
      CompletionFated(db, l, db');
    } else {
      QuietFated(db, l, db);
    }
  }

  lemma ClaimFated(db: DB, l: Label)
    requires Capped(db.workers, db.attempts) && Enabled(db, l) && IsClaim(l)
    ensures Fated(db, l, Apply(db, l))
  {
    RankingRespectsLoad(db, l.w, l.act.config, l.act.ranked, l.act.now);
    ClaimQuiet(db, l.w, l.act.ranked, l.act.now, l.act.duration, l.act.hash);
    QuietFated(db, l, Apply(db, l));
  }

  lemma ClaimQuiet(db: DB, w: WorkerID, ranked: seq<JobID>, now: Time, duration: int, hash: nat)
    requires forall j :: j in ranked ==> j in db.jobs
    ensures var db' := Claim(db, w, ranked, now, duration, hash).db;
      && (forall a :: a in db.attempts ==> a in db'.attempts && db'.attempts[a] == db.attempts[a])
      && (forall j :: j in db.jobs ==> j in db'.jobs && (db'.jobs[j].state.JobFailed? ==> db.jobs[j].state.JobFailed?))
  {
  }

  // No attempt and no state of a job changes.
  ghost predicate SameStates(db: DB, db': DB) {
    && db'.attempts == db.attempts && db'.jobs.Keys == db.jobs.Keys
    && forall j :: j in db.jobs ==> db'.jobs[j].state == db.jobs[j].state
  }

  lemma EventSameStates(db: DB, w: WorkerID, a: AttemptID, e: Event)
    ensures SameStates(db, AppendEvent(db, w, a, e).db)
  {
  }

  lemma ResultSameStates(db: DB, w: WorkerID, a: AttemptID, status: int, data: seq<int>)
    ensures SameStates(db, SaveResult(db, w, a, status, data).db)
  {
  }

  lemma SilentSameStates(db: DB, w: WorkerID, act: WorkerAct)
    requires act.Beat? || act.RenewLease? || act.AcknowledgeRestore?
    ensures SameStates(db, Act(db, w, act))
  {
    if act.AcknowledgeRestore? {
      FailSameWork(db, act.s, act.epoch, act.retryAt);
      AcknowledgeSameWork(db, act.s, act.epoch, w);
    }
  }

  // A worker's requests other than claims and completions end nothing.
  lemma ReportQuiet(db: DB, w: WorkerID, act: WorkerAct)
    requires !act.ClaimJob? && !act.CompleteJob?
    ensures SameStates(db, Act(db, w, act))
  {
    match act
    case SendEvent(a, e) => EventSameStates(db, w, a, e);
    case SendResult(a, status, data) => ResultSameStates(db, w, a, status, data);
    case _ => SilentSameStates(db, w, act);
  }

  lemma ActFated(db: DB, l: Label)
    requires Inv(db) && l.FromWorker? && !IsClaim(l)
    ensures Fated(db, l, Act(db, l.w, l.act))
  {
    if IsCompletion(l) {
      CompletionStepFated(db, l);
      assert Act(db, l.w, l.act) == Complete(db, l.w, l.act.a, l.act.completion, l.act.now).db;
    } else {
      ReportFated(db, l);
    }
  }

  lemma ReportFated(db: DB, l: Label)
    requires l.FromWorker? && !IsClaim(l) && !IsCompletion(l)
    ensures Fated(db, l, Act(db, l.w, l.act))
  {
    ReportQuiet(db, l.w, l.act);
    QuietFated(db, l, Act(db, l.w, l.act));
  }

  lemma WorkerStepFated(db: DB, l: Label)
    requires Inv(db) && Enabled(db, l) && l.FromWorker?
    ensures Fated(db, l, Apply(db, l))
  {
    if !Authenticated(db, l.w) {
      QuietFated(db, l, db);
    } else if IsClaim(l) {
      ClaimFated(db, l);
    } else {
      ActFated(db, l);
    }
  }

  lemma SubmitFated(db: DB, l: Label)
    requires l.Submit?
    ensures Fated(db, l, Apply(db, l))
  {
    var r := l.request;
    CreateAdds(db, r);
    if r.id in db.jobs || r.id !in CreateJob(db, r).db.jobs {
      QuietFated(db, l, db);
    } else {
      QuietFated(db, l, db.(jobs := db.jobs[r.id := NewRow(db, r)]));
    }
  }

  lemma CancelFated(db: DB, l: Label)
    requires Inv(db) && l.CancelJob?
    ensures Fated(db, l, Apply(db, l))
  {
    CancelStep(db, l.job, l.at);
    if l.job in db.jobs && !db.jobs[l.job].state.Terminal() {
      CanceledFated(db, l, Apply(db, l), l.job, l.at);
    } else {
      QuietFated(db, l, db);
    }
  }

  lemma SweepFated(db: DB, l: Label)
    requires Inv(db) && Enabled(db, l) && (IsExpiry(l) || l.TimeoutJobs?)
    ensures Fated(db, l, Apply(db, l))
  {
    if IsExpiry(l) {
      ExpiryStep(db, l);
      ExpiryFated(db, l, Apply(db, l));
    } else {
      TimeoutStep(db, l);
      LateFated(db, l, Apply(db, l), Late(db, l.at), l.at);
    }
  }

  /** Only a completion or an expiry ends an attempt in any other way than by withdrawing it,
      and only they fail a job. */
  lemma StepFated(db: DB, l: Label)
    requires Inv(db) && Enabled(db, l)
    ensures Fated(db, l, Apply(db, l))
  {
    if OnSessions(l) {
      SessionStep(db, l);
      SessionFated(db, l, Apply(db, l));
    } else if l.FromWorker? {
      WorkerStepFated(db, l);
    } else if l.Submit? {
      SubmitFated(db, l);
    } else if l.CancelJob? {
      CancelFated(db, l);
    } else {
      SweepFated(db, l);
    }
  }

  /** After an attempt that ended like this there is no retry: it failed for good, or with
      the attempts used up, or past the deadline; or its lease ran out before the deadline,
      with the attempts or the time used up. */
  predicate NoRetry(spec: JobSpec, number: nat, x: Attempt) {
    || (&& x.state.AttemptFailed? && x.failure.Some?
        && (|| !x.failure.value.retryable || spec.maxAttempts <= number
            || (x.endedAt.Some? && Passed(spec.timeoutAt, x.endedAt.value))))
    || (&& x.state.AttemptExpired? && x.endedAt.Some? && !Passed(spec.timeoutAt, x.endedAt.value)
        && (spec.maxAttempts <= number || 0 < spec.maxElapsed <= x.endedAt.value - spec.view.created))
  }

  // Attempt `a` leaves its job no retry.
  predicate Dooms(db: DB, a: AttemptID) {
    a in db.attempts && a.job in db.jobs && NoRetry(db.jobs[a.job].spec, a.number, db.attempts[a])
  }

  /** The jobs that have failed are exactly those with an attempt that leaves no retry, and
      that is their last one. */
  ghost predicate Accounted(db: DB) {
    && (forall a :: Dooms(db, a) ==> a == Latest(db.attempts, a.job) && db.jobs[a.job].state.JobFailed?)
    && (forall j :: j in db.jobs && db.jobs[j].state.JobFailed? ==> Dooms(db, Latest(db.attempts, j)))
  }

  lemma ConcludesDooms(db: DB, l: Label, db': DB, a: AttemptID)
    requires Concludes(db, l, db', a)
    ensures Dooms(db', a) <==> db'.jobs[a.job].state.JobFailed?
  {
  }

  lemma SameLatest(db: DB, db': DB, j: JobID)
    requires AttemptsOf(db'.attempts, j) == AttemptsOf(db.attempts, j)
    ensures Latest(db'.attempts, j) == Latest(db.attempts, j)
  {
    var k, k' := MaxNumber(db.attempts.Keys, j), MaxNumber(db'.attempts.Keys, j);
    assert forall a :: a in db.attempts && a.job == j <==> a in AttemptsOf(db.attempts, j);
    assert forall a :: a in db'.attempts && a.job == j <==> a in AttemptsOf(db'.attempts, j);
    assert k > 0 ==> AttemptID(j, k) in db'.attempts;
    assert k' > 0 ==> AttemptID(j, k') in db.attempts;
  }

  // A job that has failed stays as it is, with its last attempt.
  lemma DoomedStays(db: DB, db': DB, a: AttemptID)
    requires Coherent(db.jobs, db.attempts, db.leases) && Moves(db, db')
    requires Dooms(db, a) && a == Latest(db.attempts, a.job) && db.jobs[a.job].state.JobFailed?
    ensures Dooms(db', a) && a == Latest(db'.attempts, a.job) && db'.jobs[a.job].state.JobFailed?
  {
    FrozenStep(db, db', a.job);
    SameLatest(db, db', a.job);
    assert a in AttemptsOf(db.attempts, a.job);
    assert AttemptsOf(db'.attempts, a.job)[a] == db.attempts[a];
  }

  // A step that ends an attempt adds none.
  lemma ConcludedIsLatest(db: DB, l: Label, db': DB, a: AttemptID)
    requires Coherent(db.jobs, db.attempts, db.leases) && Concludes(db, l, db', a)
    requires db'.attempts.Keys == db.attempts.Keys
    ensures a == Latest(db'.attempts, a.job)
  {
    assert a == Latest(db.attempts, a.job);
  }

  // What the step below relies on.
  ghost predicate Concluding(db: DB, l: Label, db': DB) {
    && Coherent(db.jobs, db.attempts, db.leases) && (forall a :: a in db.attempts ==> a.job in db.jobs)
    && Moves(db, db') && Fated(db, l, db')
    && (!IsClaim(l) ==> db'.attempts.Keys == db.attempts.Keys)
  }

  lemma NewIsLeased(db: DB, db': DB, a: AttemptID)
    requires Moves(db, db') && a in db'.attempts && a !in db.attempts
    ensures db'.attempts[a].state.AttemptLeased?
  {
    assert Accepts(db, a, db'.jobs, db'.attempts, db'.leases);
  }

  lemma DoomsIsLast(db: DB, l: Label, db': DB, a: AttemptID)
    requires Concluding(db, l, db') && Accounted(db) && Dooms(db', a)
    ensures a == Latest(db'.attempts, a.job) && db'.jobs[a.job].state.JobFailed?
  {
    if a !in db.attempts {
      NewIsLeased(db, db', a);
    } else {
      assert AttemptFated(db, l, db', a);
      if Concludes(db, l, db', a) {
        ConcludesDooms(db, l, db', a);
        ConcludedIsLatest(db, l, db', a);
      } else {
        UnchangedDooms(db, db', a);
        DoomedStays(db, db', a);
      }
    }
  }

  lemma UnchangedDooms(db: DB, db': DB, a: AttemptID)
    requires Moves(db, db') && Coherent(db.jobs, db.attempts, db.leases) && a in db.attempts && Dooms(db', a)
    requires Withdrawn(db.attempts[a], db'.attempts[a]) && a.job in db.jobs
    ensures Dooms(db, a)
  {
    assert JobMoves(db.jobs[a.job], db'.jobs[a.job]);
  }

  lemma StillFailed(db: DB, db': DB, j: JobID)
    requires Coherent(db.jobs, db.attempts, db.leases) && Moves(db, db') && Accounted(db)
    requires j in db.jobs && db.jobs[j].state.JobFailed?
    ensures Dooms(db', Latest(db'.attempts, j))
  {
    DoomedStays(db, db', Latest(db.attempts, j));
  }

  lemma FailedIsDoomed(db: DB, l: Label, db': DB, j: JobID)
    requires Coherent(db.jobs, db.attempts, db.leases) && j in db.jobs && JobFated(db, l, db', j)
    requires (!IsClaim(l) ==> db'.attempts.Keys == db.attempts.Keys) && db'.jobs[j].state.JobFailed? && !db.jobs[j].state.JobFailed?
    ensures Dooms(db', Latest(db'.attempts, j))
  {
    var a: AttemptID :| a.job == j && Concludes(db, l, db', a);
    NewlyFailed(db, l, db', a);
  }

  lemma NewlyFailed(db: DB, l: Label, db': DB, a: AttemptID)
    requires Coherent(db.jobs, db.attempts, db.leases) && Concludes(db, l, db', a) && db'.jobs[a.job].state.JobFailed?
    requires db'.attempts.Keys == db.attempts.Keys
    ensures Dooms(db', Latest(db'.attempts, a.job))
  {
    ConcludesDooms(db, l, db', a);
    ConcludedIsLatest(db, l, db', a);
  }

  lemma AccountedStep(db: DB, l: Label, db': DB)
    requires Concluding(db, l, db') && Accounted(db)
    ensures Accounted(db')
  {
    forall a | Dooms(db', a) ensures a == Latest(db'.attempts, a.job) && db'.jobs[a.job].state.JobFailed? {
      DoomsIsLast(db, l, db', a);
    }
    forall j | j in db'.jobs && db'.jobs[j].state.JobFailed? ensures Dooms(db', Latest(db'.attempts, j)) {
      if db.jobs[j].state.JobFailed? {
        StillFailed(db, db', j);
      } else {
        assert JobFated(db, l, db', j);
        FailedIsDoomed(db, l, db', j);
      }
    }
  }

  lemma StepConcludes(db: DB, l: Label)
    requires Inv(db) && Enabled(db, l)
    ensures Concluding(db, l, Apply(db, l))
  {
    StepMoves(db, l);
    StepFated(db, l);
    if !IsClaim(l) {
      OtherStepsKeys(db, l);
    }
  }

  ghost predicate Audited(db: DB) {
    Inv(db) && Accounted(db)
  }

  lemma AuditedKept(db: DB, l: Label)
    requires Audited(db) && Enabled(db, l)
    ensures Audited(Apply(db, l))
  {
    StepKeepsInv(db, l);
    StepConcludes(db, l);
    AccountedStep(db, l, Apply(db, l));
  }

  lemma EmptyAudited()
    ensures Audited(EMPTY)
  {
    EmptyInv();
  }

  lemma RunAccounted(states: seq<DB>, labels: seq<Label>, i: nat)
    requires IsRun(states, labels) && i < |states|
    ensures Accounted(states[i])
  {
    var keep := (db: DB) => Audited(db);
    forall db, l | keep(db) && Enabled(db, l) ensures keep(Apply(db, l)) {
      AuditedKept(db, l);
    }
    EmptyAudited();
    RunInduction(keep, states, labels, i);
  }

  /** In every reachable state, an attempt that failed for good is the last one of its job,
      and the job has failed. */
  lemma PermanentFailure(states: seq<DB>, labels: seq<Label>, i: nat, a: AttemptID)
    requires IsRun(states, labels) && i < |states| && a in states[i].attempts
    requires var x := states[i].attempts[a]; x.state.AttemptFailed? && x.failure.Some? && !x.failure.value.retryable
    ensures a.job in states[i].jobs && states[i].jobs[a.job].state.JobFailed?
    ensures forall b :: b in states[i].attempts && b.job == a.job ==> b.number <= a.number
  {
    RunAccounted(states, labels, i);
    RunPaced(states, labels, i);
    assert Dooms(states[i], a);
  }

  /** In every reachable state, a job has failed if and only if its last attempt failed for
      good, or ended with the attempts or the time of the job used up. */
  lemma FailedExactly(states: seq<DB>, labels: seq<Label>, i: nat, j: JobID)
    requires IsRun(states, labels) && i < |states| && j in states[i].jobs
    ensures var db := states[i]; var a := Latest(db.attempts, j);
      db.jobs[j].state.JobFailed? <==> a in db.attempts && NoRetry(db.jobs[j].spec, a.number, db.attempts[a])
  {
    RunAccounted(states, labels, i);
    assert Dooms(states[i], Latest(states[i].attempts, j)) ==> states[i].jobs[j].state.JobFailed?;
  }
}
