/** Attempts come into being in one way only: a worker claims a job. */
module Leasing {
  import opened Domain
  import opened Tables
  import opened Transactions
  import opened Invariants
  import opened Endings
  import opened Recovery
  import opened Progress
  import opened Protocol
  import opened Safety
  import opened Steps

  predicate IsClaim(l: Label) {
    l.FromWorker? && l.act.ClaimJob?
  }

  lemma WorkerStepKeys(db: DB, w: WorkerID, act: WorkerAct)
    requires !act.ClaimJob?
    ensures Apply(db, FromWorker(w, act)).attempts.Keys == db.attempts.Keys
  {
    ReportKeys(db, w, act);
  }

  lemma ReportKeys(db: DB, w: WorkerID, act: WorkerAct)
    requires !act.ClaimJob?
    ensures Act(db, w, act).attempts.Keys == db.attempts.Keys
  {
  }

  lemma SubmitKeys(db: DB, r: NewJob)
    ensures CreateJob(db, r).db.attempts.Keys == db.attempts.Keys
  {
  }

  lemma CancelKeys(db: DB, j: JobID, at: Time)
    ensures Cancel(db, j, at).db.attempts.Keys == db.attempts.Keys
  {
  }

  lemma SessionStepKeys(db: DB, l: Label)
    requires Inv(db) && Enabled(db, l) && OnSessions(l)
    ensures Apply(db, l).attempts.Keys == db.attempts.Keys
  {
    if l.AdoptReplacement? {
      AdoptStepOutgrows(db, l.s, l.w, l.at);
    } else {
      SessionStepOutgrows(db, l);
    }
  }

  lemma ReapKeys(db: DB, due: seq<AttemptID>, at: Time)
    requires Inv(db)
    ensures ExpireAll(db, due, at).attempts.Keys == db.attempts.Keys
  {
    ExpireAllSweeps(db, due, at);
  }

  lemma TimeoutKeys(db: DB, overdue: seq<JobID>, at: Time)
    requires Inv(db) && forall j :: j in overdue ==> j in db.jobs && !db.jobs[j].state.Terminal()
    ensures TimeOutAll(db, overdue, at).attempts.Keys == db.attempts.Keys
  {
    TimeOutAllSweeps(db, overdue, at);
  }

  lemma OtherStepsKeys(db: DB, l: Label)
    requires Inv(db) && Enabled(db, l) && !IsClaim(l)
    ensures Apply(db, l).attempts.Keys == db.attempts.Keys
  {
    if OnSessions(l) {
      SessionStepKeys(db, l);
    } else if l.ExpireLeases? || l.ExpireWorkerLeases? || l.TimeoutJobs? {
      SweepKeys(db, l);
    } else {
      match l
      case Submit(r) => SubmitKeys(db, r);
      case CancelJob(j, at) => CancelKeys(db, j, at);
      case FromWorker(w, act) => WorkerStepKeys(db, w, act);
    }
  }

  lemma SweepKeys(db: DB, l: Label)
    requires Inv(db) && Enabled(db, l) && (l.ExpireLeases? || l.ExpireWorkerLeases? || l.TimeoutJobs?)
    ensures Apply(db, l).attempts.Keys == db.attempts.Keys
  {
    if l.TimeoutJobs? {
      TimeoutKeys(db, l.overdue, l.at);
    } else {
      ReapKeys(db, l.due, l.at);
    }
  }

  /** Label `l` leases job `a.job` to the worker that sent it, as attempt `a`. */
  ghost predicate Grants(db: DB, l: Label, a: AttemptID)
    requires Enabled(db, l)
  {
    && IsClaim(l)
    && Authenticated(db, l.w)
    && a.job in l.act.ranked
    && a.job in db.jobs && db.jobs[a.job].state.JobQueued?
    && FirstOpen(db, l.w, l.act.ranked) == Some(a.job)
    && GateOf(db, l.w, a.job) != Skip
    && var db' := Apply(db, l);
    && a in db'.attempts
    && db'.attempts[a].worker == l.w
    && db'.attempts[a].box == db.workers[l.w].spec.box
    && db'.sessions == (if GateOf(db, l.w, a.job) == Bind
                        then BindSession(db, l.w, db.jobs[a.job].spec.session.value).sessions else db.sessions)
  }

  lemma ClaimAdds(db: DB, w: WorkerID, ranked: seq<JobID>, now: Time, duration: int, hash: nat, a: AttemptID)
    requires forall j :: j in ranked ==> j in db.jobs
    requires a in Claim(db, w, ranked, now, duration, hash).db.attempts && a !in db.attempts
    ensures w in db.workers && FirstOpen(db, w, ranked) == Some(a.job)
    ensures var db' := Claim(db, w, ranked, now, duration, hash).db;
      && db'.attempts[a].worker == w && db'.attempts[a].box == db.workers[w].spec.box
      && db'.sessions == (if GateOf(db, w, a.job) == Bind
                          then BindSession(db, w, db.jobs[a.job].spec.session.value).sessions else db.sessions)
  {
  }

  /** Whatever the step, an attempt that it adds was claimed by an authenticated
      worker, and is that worker's. */
  lemma StepGrants(db: DB, l: Label, a: AttemptID)
    requires Inv(db) && Enabled(db, l) && a in Apply(db, l).attempts && a !in db.attempts
    ensures Grants(db, l, a)
  {
    if IsClaim(l) {
      RankingRespectsLoad(db, l.w, l.act.config, l.act.ranked, l.act.now);
      ClaimAdds(db, l.w, l.act.ranked, l.act.now, l.act.duration, l.act.hash, a);
    } else {
      OtherStepsKeys(db, l);
    }
  }
}
