/** What the rows of a job tell about its past: its result and the end of its log. */
module RecordRuns {
  import opened Domain
  import opened Tables
  import opened Transactions
  import opened Invariants
  import opened Endings
  import opened JobSteps
  import opened Progress
  import opened Protocol
  import opened Safety
  import opened Steps
  import opened Leasing
  import opened JobRuns
  import opened Outcomes
  import opened OutcomeRuns

  /** The worker of an active attempt of `j` sends a result. */
  predicate Saves(db: DB, l: Label, j: JobID) {
    && l.FromWorker? && l.act.SendResult? && l.act.a.job == j
    && Authenticated(db, l.w)
    && Live(db.attempts, l.act.a) && db.attempts[l.act.a].worker == l.w
  }

  predicate RowKept(x: Job, y: Job) {
    y.result == x.result && (OnRecord(x) ==> OnRecord(y))
  }

  ghost predicate RowsKept(jobs: Jobs, jobs': Jobs) {
    forall j :: j in jobs ==> j in jobs' && RowKept(jobs[j], jobs'[j])
  }

  lemma SessionRowsKept(db: DB, db': DB)
    requires Outgrows(db, db')
    ensures RowsKept(db.jobs, db'.jobs)
  {
  }

  lemma CanceledRowsKept(db: DB, j: JobID, db': DB, at: Time)
    requires Canceled(db, j, db', at)
    ensures RowsKept(db.jobs, db'.jobs)
  {
    forall k | k in db.jobs ensures RowKept(db.jobs[k], db'.jobs[k]) {
      assert k != j ==> Touched(db.jobs[k], db'.jobs[k]);
    }
  }

  lemma LateRowsKept(db: DB, late: set<JobID>, db': DB, at: Time)
    requires TimedOut(db, late, db', at)
    ensures RowsKept(db.jobs, db'.jobs)
  {
    forall k | k in db.jobs ensures RowKept(db.jobs[k], db'.jobs[k]) {
      assert k !in late ==> Touched(db.jobs[k], db'.jobs[k]);
      assert k in late ==> EndsAs(db.jobs[k], db'.jobs[k], JobTimedOut, at);
    }
  }

  lemma DecidedRowKept(x: Job, y: Job, at: Time)
    requires Decided(x, y, at)
    ensures RowKept(x, y)
  {
  }

  lemma ReapedRowsKept(db: DB, gone: set<AttemptID>, db': DB, at: Time)
    requires Reaped(db, gone, db', at) && gone <= db.attempts.Keys
    ensures RowsKept(db.jobs, db'.jobs)
  {
    forall k | k in db.jobs ensures RowKept(db.jobs[k], db'.jobs[k]) {
      if a :| a in gone && a.job == k {
        assert ExpiryDecides(db.jobs[k], db'.jobs[k], a.number, db.attempts[a].hash, at);
        DecidedRowKept(db.jobs[k], db'.jobs[k], at);
      } else {
        assert Touched(db.jobs[k], db'.jobs[k]);
      }
    }
  }

  lemma CompletedRowsKept(jobs: Jobs, jobs': Jobs, j: JobID, made: nat, c: Completion, at: Time)
    requires j in jobs && TouchedBut(jobs, jobs', j) && CompletionDecides(jobs[j], jobs'[j], made, c, at)
    ensures RowsKept(jobs, jobs')
  {
    forall k | k in jobs ensures RowKept(jobs[k], jobs'[k]) {
      if k == j {
        DecidedRowKept(jobs[j], jobs'[j], at);
      } else {
        assert Touched(jobs[k], jobs'[k]);
      }
    }
  }

  lemma ClaimRowsKept(db: DB, w: WorkerID, ranked: seq<JobID>, now: Time, duration: int, hash: nat)
    requires forall j :: j in ranked ==> j in db.jobs
    ensures RowsKept(db.jobs, Claim(db, w, ranked, now, duration, hash).db.jobs)
  {
  }

  lemma EventRowsKept(db: DB, w: WorkerID, a: AttemptID, e: Event)
    requires Coherent(db.jobs, db.attempts, db.leases)
    ensures RowsKept(db.jobs, AppendEvent(db, w, a, e).db.jobs)
  {
    if Live(db.attempts, a) {
      assert db.jobs[a.job].state.JobLeased?;
    }
  }

  // Requests that say nothing about a job.
  lemma SilentRowsKept(db: DB, w: WorkerID, act: WorkerAct)
    requires act.Beat? || act.RenewLease? || act.AcknowledgeRestore?
    ensures Act(db, w, act).jobs == db.jobs
  {
  }

  lemma CompleteRowsKept(db: DB, w: WorkerID, a: AttemptID, c: Completion, at: Time)
    requires Inv(db)
    ensures RowsKept(db.jobs, Complete(db, w, a, c, at).db.jobs)
  {
    CompletionStep(db, w, a, c, at);
    if InTime(db, w, a, at) {
      CompletedRowsKept(db.jobs, Complete(db, w, a, c, at).db.jobs, a.job, a.number, c, at);
    }
  }

  lemma ActRowsKept(db: DB, w: WorkerID, act: WorkerAct)
    requires Inv(db) && !act.ClaimJob? && !act.SendResult?
    ensures RowsKept(db.jobs, Act(db, w, act).jobs)
  {
    match act
    case CompleteJob(a, c, now) => CompleteRowsKept(db, w, a, c, now);
    case SendEvent(a, e) => EventRowsKept(db, w, a, e);
    case _ => SilentRowsKept(db, w, act);
  }

  lemma WorkerRowsKept(db: DB, w: WorkerID, act: WorkerAct)
    requires Inv(db) && Enabled(db, FromWorker(w, act)) && !act.SendResult?
    ensures RowsKept(db.jobs, Apply(db, FromWorker(w, act)).jobs)
  {
    if act.ClaimJob? {
      RankingRespectsLoad(db, w, act.config, act.ranked, act.now);
      ClaimRowsKept(db, w, act.ranked, act.now, act.duration, act.hash);
    } else {
      ActRowsKept(db, w, act);
    }
  }

  lemma SubmitRowsKept(db: DB, r: NewJob)
    ensures RowsKept(db.jobs, CreateJob(db, r).db.jobs)
  {
    CreateAdds(db, r);
  }

  lemma CancelRowsKept(db: DB, j: JobID, at: Time)
    requires Inv(db)
    ensures RowsKept(db.jobs, Cancel(db, j, at).db.jobs)
  {
    CancelStep(db, j, at);
    if j in db.jobs && !db.jobs[j].state.Terminal() {
      CanceledRowsKept(db, j, Cancel(db, j, at).db, at);
    }
  }

  lemma LapsedAreAttempts(db: DB, l: Label)
    requires Coherent(db.jobs, db.attempts, db.leases) && IsExpiry(l)
    ensures Lapsed(db, l) <= db.attempts.Keys
  {
    forall a | a in Lapsed(db, l) ensures a in db.attempts {
      assert Live(db.attempts, a);
    }
  }

  lemma SweepRowsKept(db: DB, l: Label)
    requires Inv(db) && Enabled(db, l) && (IsExpiry(l) || l.TimeoutJobs?)
    ensures RowsKept(db.jobs, Apply(db, l).jobs)
  {
    if IsExpiry(l) {
      ExpiryStep(db, l);
      LapsedAreAttempts(db, l);
      ReapedRowsKept(db, Lapsed(db, l), Apply(db, l), l.at);
    } else {
      TimeoutStep(db, l);
      LateRowsKept(db, Late(db, l.at), Apply(db, l), l.at);
    }
  }

  predicate SendsResult(l: Label) {
    l.FromWorker? && l.act.SendResult?
  }

  lemma StepRowsKept(db: DB, l: Label)
    requires Inv(db) && Enabled(db, l) && !SendsResult(l)
    ensures RowsKept(db.jobs, Apply(db, l).jobs)
  {
    if OnSessions(l) {
      SessionStep(db, l);
      SessionRowsKept(db, Apply(db, l));
    } else if l.FromWorker? {
      WorkerRowsKept(db, l.w, l.act);
    } else if l.Submit? {
      SubmitRowsKept(db, l.request);
    } else if l.CancelJob? {
      CancelRowsKept(db, l.job, l.at);
    } else {
      SweepRowsKept(db, l);
    }
  }

  // Only the accepted result of the job's own attempt changes the row, and nothing else of it.
  lemma ResultStored(db: DB, l: Label, j: JobID)
    requires Coherent(db.jobs, db.attempts, db.leases) && SendsResult(l) && j in db.jobs
    ensures j in Apply(db, l).jobs
    ensures Apply(db, l).jobs[j] ==
      if Saves(db, l, j) then db.jobs[j].(result := Some(Result(l.act.a, l.act.status, l.act.data))) else db.jobs[j]
  {
  }

  // Results

  /** The result in the last request that saved one for `j`. */
  ghost function LastResult(states: seq<DB>, labels: seq<Label>, j: JobID, k: nat): Option<Result>
    requires |states| == |labels| + 1 && k < |states|
  {
    if k == 0 then None
    else
      var l := labels[k - 1];
      if Saves(states[k - 1], l, j) then Some(Result(l.act.a, l.act.status, l.act.data))
      else LastResult(states, labels, j, k - 1)
  }

  // What the step does to the result of job `j`.
  ghost predicate ResultStep(db: DB, l: Label, db': DB, j: JobID) {
    && (j !in db.jobs && j in db'.jobs ==> db'.jobs[j].result.None?)
    && (j !in db'.jobs ==> j !in db.jobs)
    && (Saves(db, l, j) ==>
          j in db.jobs && j in db'.jobs && db'.jobs[j].result == Some(Result(l.act.a, l.act.status, l.act.data)))
    && (j in db.jobs && !Saves(db, l, j) ==> db'.jobs[j].result == db.jobs[j].result)
  }

  lemma RunFated(states: seq<DB>, labels: seq<Label>, i: nat)
    requires IsRun(states, labels) && i < |labels|
    ensures Fated(states[i], labels[i], states[i + 1])
  {
    assert Follows(states, labels, i);
    Reachable(states, labels, i);
    StepFated(states[i], labels[i]);
  }

  lemma SavesKnown(db: DB, l: Label, j: JobID)
    requires Coherent(db.jobs, db.attempts, db.leases) && Saves(db, l, j)
    ensures j in db.jobs
  {
    assert Live(db.attempts, l.act.a);
  }

  lemma RunRowsKept(states: seq<DB>, labels: seq<Label>, i: nat)
    requires IsRun(states, labels) && i < |labels| && !SendsResult(labels[i])
    ensures RowsKept(states[i].jobs, states[i + 1].jobs)
  {
    assert Follows(states, labels, i);
    Reachable(states, labels, i);
    StepRowsKept(states[i], labels[i]);
  }

  lemma RunResultStep(states: seq<DB>, labels: seq<Label>, i: nat, j: JobID)
    requires IsRun(states, labels) && i < |labels|
    ensures ResultStep(states[i], labels[i], states[i + 1], j)
  {
    var db, l := states[i], labels[i];
    RunFated(states, labels, i);
    assert j in db.jobs ==> JobFated(db, l, states[i + 1], j);
    if SendsResult(l) {
      RunPaced(states, labels, i);
      assert Follows(states, labels, i);
      if j in db.jobs {
        ResultStored(db, l, j);
      } else if Saves(db, l, j) {
        SavesKnown(db, l, j);
      }
    } else {
      RunRowsKept(states, labels, i);
    }
  }

  lemma {:induction false} LastResultStored(states: seq<DB>, labels: seq<Label>, j: JobID, k: nat)
    requires |states| == |labels| + 1 && k < |states| && j !in states[0].jobs
    requires forall i :: 0 <= i < k ==> ResultStep(states[i], labels[i], states[i + 1], j)
    ensures if j in states[k].jobs then states[k].jobs[j].result == LastResult(states, labels, j, k)
            else LastResult(states, labels, j, k).None?
  {
    if k > 0 {
      LastResultStored(states, labels, j, k - 1);
      assert ResultStep(states[k - 1], labels[k - 1], states[k], j);
    }
  }

  /** In every reachable state, the result of a job is the one in the last request that the
      worker of an active attempt of this job sent, with its status and data, and none if
      there was no such request. */
  lemma ResultProvenance(states: seq<DB>, labels: seq<Label>, j: JobID, k: nat)
    requires IsRun(states, labels) && k < |states| && j in states[k].jobs
    ensures states[k].jobs[j].result == LastResult(states, labels, j, k)
  {
    forall i | 0 <= i < k ensures ResultStep(states[i], labels[i], states[i + 1], j) {
      RunResultStep(states, labels, i, j);
    }
    LastResultStored(states, labels, j, k);
  }

  // Logs

  ghost predicate AllOnRecord(db: DB) {
    forall j :: j in db.jobs ==> OnRecord(db.jobs[j])
  }

  lemma ResultOnRecord(db: DB, l: Label)
    requires Coherent(db.jobs, db.attempts, db.leases) && SendsResult(l) && AllOnRecord(db) && Fresh(db, Apply(db, l))
    ensures AllOnRecord(Apply(db, l))
  {
    forall j | j in Apply(db, l).jobs ensures OnRecord(Apply(db, l).jobs[j]) {
      if j in db.jobs {
        ResultStored(db, l, j);
        assert OnRecord(db.jobs[j]);
      }
    }
  }

  lemma RecordKept(db: DB, l: Label)
    requires Inv(db) && AllOnRecord(db) && Enabled(db, l)
    ensures AllOnRecord(Apply(db, l))
  {
    StepFated(db, l);
    if SendsResult(l) {
      ResultOnRecord(db, l);
    } else {
      StepRowsKept(db, l);
      KeptOnRecord(db, Apply(db, l));
    }
  }

  lemma KeptOnRecord(db: DB, db': DB)
    requires RowsKept(db.jobs, db'.jobs) && Fresh(db, db') && AllOnRecord(db)
    ensures AllOnRecord(db')
  {
    forall j | j in db'.jobs ensures OnRecord(db'.jobs[j]) {
      if j in db.jobs {
        assert RowKept(db.jobs[j], db'.jobs[j]);
      }
    }
  }

  /** In every reachable state, the log of a job that has ended ends with the event that
      says how. */
  lemma EndIsOnRecord(states: seq<DB>, labels: seq<Label>, i: nat, j: JobID)
    requires IsRun(states, labels) && i < |states| && j in states[i].jobs && states[i].jobs[j].state.Terminal()
    ensures var job := states[i].jobs[j]; job.log != [] && Records(job.log[|job.log| - 1], job.state)
  {
    var keep := (db: DB) => Inv(db) && AllOnRecord(db);
    forall db, l | keep(db) && Enabled(db, l) ensures keep(Apply(db, l)) {
      StepKeepsInv(db, l);
      RecordKept(db, l);
    }
    EmptyInv();
    RunInduction(keep, states, labels, i);
    assert OnRecord(states[i].jobs[j]);
  }
}
