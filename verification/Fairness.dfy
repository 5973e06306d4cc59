/** How far a claim may leave an older job behind. */
module Fairness {
  import opened Domain
  import opened Tables
  import opened Transactions
  import opened Protocol
  import opened Invariants
  import opened Safety
  import S = Scheduler

  // Everything ahead of the first open job is closed to the worker.
  lemma {:induction false} FirstOpenIsFirst(db: DB, w: WorkerID, ranked: seq<JobID>, k: nat)
    requires w in db.workers && (forall j :: j in ranked ==> j in db.jobs) && k < |ranked|
    requires FirstOpen(db, w, ranked).Some? && GateOf(db, w, ranked[k]) != Skip
    ensures exists i :: 0 <= i <= k && ranked[i] == FirstOpen(db, w, ranked).value
  {
    if GateOf(db, w, ranked[0]) == Skip {
      FirstOpenIsFirst(db, w, ranked[1..], k - 1);
      var i :| 0 <= i <= k - 1 && ranked[1..][i] == FirstOpen(db, w, ranked[1..]).value;
      assert ranked[i + 1] == FirstOpen(db, w, ranked).value;
    } else {
      assert ranked[0] == FirstOpen(db, w, ranked).value;
    }
  }

  // The worker may take either of two jobs without a session, or neither.
  lemma SameGate(db: DB, w: WorkerID, i: JobID, j: JobID)
    requires w in db.workers && i in db.jobs && j in db.jobs
    requires db.jobs[i].spec.session.None? && db.jobs[j].spec.session.None?
    ensures GateOf(db, w, i) == GateOf(db, w, j)
  {
  }

  // A job that is not outranked by an older one is not much younger.
  lemma AheadMeansClose(r: S.Request, older: Candidate, ahead: Candidate, bound: real)
    requires S.Moderate(r, bound) && bound >= 0.0 && ahead.created <= r.now
    requires !S.Before(S.DEFAULT, r, older, ahead)
    ensures (ahead.created - older.created) as real / S.MINUTE as real <= 51.0 + bound
  {
    if (ahead.created - older.created) as real / S.MINUTE as real > 51.0 + bound {
      S.BoundedOvertaking(r, older, ahead, bound);
    }
  }

  /** Among jobs without a session, a claim under the default weights never takes a job
      while an eligible one waits that is older by more than 51 minutes plus the
      dearest upstream. */
  lemma ClaimsAreFair(db: DB, w: WorkerID, ranked: seq<JobID>, now: Time, older: JobID, bound: real)
    requires w in db.workers && Ranking(db, w, S.DEFAULT, ranked, now)
    requires S.Moderate(RequestOf(db, w, now), bound) && bound >= 0.0
    requires forall j :: j in ranked ==> db.jobs[j].spec.view.created <= now
    requires FirstOpen(db, w, ranked).Some?
    requires older in ranked && db.jobs[older].spec.session.None?
    ensures var j := FirstOpen(db, w, ranked).value;
      db.jobs[j].spec.session.None? && j != older ==>
        (db.jobs[j].spec.view.created - db.jobs[older].spec.view.created) as real / S.MINUTE as real <= 51.0 + bound
  {
    var j := FirstOpen(db, w, ranked).value;
    if db.jobs[j].spec.session.None? && j != older {
      SameGate(db, w, older, j);
      var k :| 0 <= k < |ranked| && ranked[k] == older;
      FirstOpenIsFirst(db, w, ranked, k);
      var i :| 0 <= i <= k && ranked[i] == j;
      AheadMeansClose(RequestOf(db, w, now), db.jobs[older].spec.view, db.jobs[j].spec.view, bound);
    }
  }

  // A claim under the default weights that ranks `older`, a job without a session, at a
  // time when every upstream is moderate and no ranked job is from the future.
  ghost predicate Considers(db: DB, l: Label, older: JobID, bound: real) {
    && l.FromWorker? && l.act.ClaimJob? && l.act.config == S.DEFAULT
    && l.w in db.workers && S.Moderate(RequestOf(db, l.w, l.act.now), bound) && bound >= 0.0
    && (forall j :: j in l.act.ranked ==> j in db.jobs && db.jobs[j].spec.view.created <= l.act.now)
    && older in l.act.ranked && db.jobs[older].spec.session.None?
  }

  /** The same, along runs: what the claim leases. */
  lemma BoundedOvertakingInRuns(states: seq<DB>, labels: seq<Label>, i: nat, older: JobID, bound: real)
    requires IsRun(states, labels) && i < |labels| && Considers(states[i], labels[i], older, bound)
    ensures var db, db' := states[i], states[i + 1];
      forall j :: j in db.jobs && db.jobs[j].spec.session.None? && j != older
                  && db.jobs[j].state.JobQueued? && j in db'.jobs && db'.jobs[j].state.JobLeased? ==>
        (db.jobs[j].spec.view.created - db.jobs[older].spec.view.created) as real / S.MINUTE as real <= 51.0 + bound
  {
    assert Follows(states, labels, i);
    var db, db', l := states[i], states[i + 1], labels[i];
    if db'.jobs != db.jobs {
      ClaimsAreFair(db, l.w, l.act.ranked, l.act.now, older, bound);
    }
  }
}
