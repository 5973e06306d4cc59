/** Where a worker's free slots come from and go to. */
module SlotRuns {
  import opened Domain
  import opened Tables
  import opened Transactions
  import opened Invariants
  import opened Endings
  import opened JobSteps
  import opened Progress
  import opened Protocol
  import opened Safety
  import opened Steps
  import opened Leasing
  import opened JobRuns
  import opened Outcomes
  import opened OutcomeRuns
  import opened Eligibility

  // Heartbeats

  /** The worker may report its own attempts: those that are active, and those that it is
      still running although their job was canceled, timed out or lost. */
  predicate Reportable(db: DB, w: WorkerID, a: AttemptID) {
    && a in db.attempts && db.attempts[a].worker == w
    && (|| db.attempts[a].state.Active()
        || (&& a.job in db.jobs
            && (db.jobs[a.job].state.JobCanceled? || db.jobs[a.job].state.JobTimedOut? || db.jobs[a.job].state.JobSessionLost?)))
  }

  // The places in the report of attempts that are not active any more.
  function Dead(db: DB, reported: seq<AttemptID>): set<nat> {
    set i: nat | i < |reported| && !Live(db.attempts, reported[i])
  }

  lemma DeadGrows(db: DB, init: seq<AttemptID>, a: AttemptID)
    ensures |Dead(db, init + [a])| == |Dead(db, init)| + if Live(db.attempts, a) then 0 else 1
  {
    assert Dead(db, init + [a]) == if Live(db.attempts, a) then Dead(db, init) else Dead(db, init) + {|init|};
  }

  lemma {:induction false} CancellationsCount(db: DB, w: WorkerID, reported: seq<AttemptID>)
    ensures Cancellations(db, w, reported).Some? <==> forall a :: a in reported ==> Reportable(db, w, a)
    ensures Cancellations(db, w, reported).Some? ==> Cancellations(db, w, reported).value == |Dead(db, reported)|
    decreases |reported|
  {
    if reported != [] {
      var init, n := reported[..|reported| - 1], |reported| - 1;
      CancellationsCount(db, w, init);
      assert reported == init + [reported[n]];
      assert reported[n] in reported && forall a :: a in reported <==> a in init || a == reported[n];
      DeadGrows(db, init, reported[n]);
    } else {
      assert Dead(db, reported) == {};
    }
  }

  // The handler takes the report at its word, plus a slot for each attempt that is over.
  ghost predicate Believed(db: DB, db': DB, w: WorkerID, act: WorkerAct)
    requires act.Beat?
  {
    && w in db.workers && w in db'.workers && db' == db.(workers := db.workers[w := db'.workers[w]])
    && var x, y := db.workers[w], db'.workers[w];
    && y == x.(freeSlots := y.freeSlots, report := act.report)
    && y.freeSlots == Min(x.spec.maxSlots, act.freeSlots + |Dead(db, act.reported)|)
  }

  /** In every run, a heartbeat counts if and only if the reported slots are in range and
      every reported attempt is the worker's own and not over, or over in a way that the
      worker is told about. */
  lemma HeartbeatOutcome(states: seq<DB>, labels: seq<Label>, i: nat)
    requires IsRun(states, labels) && i < |labels| && labels[i].FromWorker? && labels[i].act.Beat?
    ensures var db, db', w, act := states[i], states[i + 1], labels[i].w, labels[i].act;
      if Authenticated(db, w) && 0 <= act.freeSlots <= db.workers[w].spec.maxSlots
         && (forall a :: a in act.reported ==> Reportable(db, w, a))
      then Believed(db, db', w, act)
      else db' == db
  {
    assert Follows(states, labels, i);
    CancellationsCount(states[i], labels[i].w, labels[i].act.reported);
  }

  // Everything else

  // Labels that take or return slots.
  predicate MovesSlots(l: Label) {
    IsExpiry(l) || l.TimeoutJobs? || (l.FromWorker? && (l.act.Beat? || l.act.ClaimJob? || l.act.CompleteJob?))
  }

  lemma ActKeepsSlots(db: DB, w: WorkerID, act: WorkerAct)
    requires !act.Beat? && !act.ClaimJob? && !act.CompleteJob?
    ensures SameSlots(db.workers, Act(db, w, act).workers)
  {
    if act.AcknowledgeRestore? {
      FailSameWork(db, act.s, act.epoch, act.retryAt);
      AcknowledgeSameWork(db, act.s, act.epoch, w);
    }
  }

  lemma OthersKeepSlots(db: DB, l: Label)
    requires Inv(db) && Enabled(db, l) && !MovesSlots(l)
    ensures SameSlots(db.workers, Apply(db, l).workers)
  {
    if OnSessions(l) {
      SessionStep(db, l);
    } else if l.FromWorker? {
      ActKeepsSlots(db, l.w, l.act);
    } else if l.CancelJob? {
      CancelStep(db, l.job, l.at);
    } else {
      CreateAdds(db, l.request);
    }
  }

  /** In every run, the free slots of a worker change only when it claims, completes or
      reports, and in the sweeps over leases and deadlines. Cancellation and the end of a
      session keep a slot taken until the worker reports. */
  lemma SlotsStay(states: seq<DB>, labels: seq<Label>, i: nat)
    requires IsRun(states, labels) && i < |labels| && !MovesSlots(labels[i])
    ensures SameSlots(states[i].workers, states[i + 1].workers)
  {
    assert Follows(states, labels, i);
    Reachable(states, labels, i);
    OthersKeepSlots(states[i], labels[i]);
  }

  // Leases

  lemma ClaimWindow(db: DB, db': DB, w: WorkerID, j: JobID, now: Time, duration: int, hash: nat, at: Time)
    requires LeasedTo(db, db', w, j, now, duration, hash)
    ensures InTime(db', w, AttemptID(j, MaxNumber(db.attempts.Keys, j) + 1), at) <==> at < now + duration
  {
  }

  /** In every run, what an authenticated worker claims it can complete, if nothing comes
      in between, exactly for the duration of the lease. */
  lemma LeaseWindow(states: seq<DB>, labels: seq<Label>, i: nat, a: AttemptID, at: Time)
    requires IsRun(states, labels) && i < |labels| && a in states[i + 1].attempts && a !in states[i].attempts
    ensures IsClaim(labels[i])
    ensures InTime(states[i + 1], labels[i].w, a, at) <==> at < labels[i].act.now + labels[i].act.duration
  {
    AttemptsAreEligible(states, labels, i, a);
    var db, db', w, act := states[i], states[i + 1], labels[i].w, labels[i].act;
    ClaimTakesTheBest(states, labels, i);
    var j :| Best(db, w, act.config, j, act.now) && LeasedTo(db, db', w, j, act.now, act.duration, act.hash);
    ClaimWindow(db, db', w, j, act.now, act.duration, act.hash, at);
  }
}
