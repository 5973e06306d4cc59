/** The transactions on sessions, workers and reservations keep the invariant. */
module SessionSteps {
  import opened Domain
  import opened Tables
  import opened Transactions
  import opened Invariants
  import opened Settlement
  import opened DependencyGraph
  import opened Endings

  // finishSessionTx

  lemma FinishJobsSettles(jobs: Jobs, s: SessionID, to: JobState, code: string, at: Time)
    requires to.Doomed()
    ensures JobsSettle(jobs, FinishJobs(jobs, s, to, code, at))
    ensures forall j :: j in jobs && jobs[j].spec.session == Some(s) ==> FinishJobs(jobs, s, to, code, at)[j].state.Terminal()
    ensures forall j :: j in jobs && (jobs[j].spec.session != Some(s) || jobs[j].state.Terminal()) ==>
      FinishJobs(jobs, s, to, code, at)[j] == jobs[j]
  {
  }

  lemma FinishSettles(db: DB, s: SessionID, to: SessionState, code: string, at: Time)
    requires Coherent(db.jobs, db.attempts, db.leases)
    requires s in db.sessions && to.Terminal() && !db.sessions[s].state.Terminal()
    ensures Settles(db, FinishSession(db, s, to, code, at))
  {
    var db' := FinishSession(db, s, to, code, at);
    FinishJobsSettles(db.jobs, s, if to.SessionLost? then JobSessionLost else JobCanceled, code, at);
    FinishAttemptsSettle(db, s, to, code, at);
    forall k | k in db.jobs && db.jobs[k].state.JobLeased? && Latest(db.attempts, k) in db.attempts
      ensures var a := Latest(db.attempts, k);
        && (db'.attempts[a].state.Active() <==> db'.jobs[k].state.JobLeased?)
        && (db'.attempts[a].state.AttemptSucceeded? <==> db'.jobs[k].state.JobSucceeded?)
        && (db'.jobs[k].state.JobQueued? ==> a.number < db.jobs[k].spec.maxAttempts)
    {
      FinishInStep(db, s, to, code, at, k);
    }
  }

  lemma FinishAttemptsSettle(db: DB, s: SessionID, to: SessionState, code: string, at: Time)
    requires forall a :: a in db.leases <==> Live(db.attempts, a)
    requires s in db.sessions && to.Terminal() && !db.sessions[s].state.Terminal()
    ensures var db' := FinishSession(db, s, to, code, at);
      AttemptsSettle(db.attempts, db'.attempts) && LeasesSettle(db.leases, db'.attempts, db'.leases)
  {
    assert FinishSession(db, s, to, code, at).attempts.Keys == db.attempts.Keys;
  }

  lemma FinishInStep(db: DB, s: SessionID, to: SessionState, code: string, at: Time, k: JobID)
    requires s in db.sessions && to.Terminal() && !db.sessions[s].state.Terminal()
    requires k in db.jobs && db.jobs[k].state.JobLeased? && Live(db.attempts, Latest(db.attempts, k))
    ensures var db' := FinishSession(db, s, to, code, at); var a := Latest(db.attempts, k);
      && k in db'.jobs && a in db'.attempts
      && (db'.attempts[a].state.Active() <==> db'.jobs[k].state.JobLeased?)
      && !db'.attempts[a].state.AttemptSucceeded? && !db'.jobs[k].state.JobSucceeded? && !db'.jobs[k].state.JobQueued?
  {
  }

  // Dependencies never cross sessions, so ending a whole session strands no waiting job.
  lemma FinishKeepsDependencies(jobs: Jobs, s: SessionID, to: JobState, code: string, at: Time)
    requires Dependencies(jobs) && to.Doomed()
    ensures Dependencies(FinishJobs(jobs, s, to, code, at))
  {
    var after := FinishJobs(jobs, s, to, code, at);
    KeepsLayered(jobs, after);
    FinishKeepsOrdered(jobs, s, to, code, at);
    FinishKeepsWaiting(jobs, s, to, code, at);
  }

  lemma FinishKeepsOrdered(jobs: Jobs, s: SessionID, to: JobState, code: string, at: Time)
    requires Layered(jobs) && Ordered(jobs) && to.Doomed()
    ensures Ordered(FinishJobs(jobs, s, to, code, at))
  {
    KeepsOrdered(jobs, FinishJobs(jobs, s, to, code, at));
  }

  lemma FinishKeepsWaiting(jobs: Jobs, s: SessionID, to: JobState, code: string, at: Time)
    requires Layered(jobs) && Waiting(jobs) && to.Doomed()
    ensures Waiting(FinishJobs(jobs, s, to, code, at))
  {
    var after := FinishJobs(jobs, s, to, code, at);
    forall j | j in after && after[j].state.JobWaiting? ensures Held(after, j) && Hopeful(after, j, None) {
      assert Held(jobs, j);
      FinishLeavesHeld(jobs, s, to, code, at, j);
    }
  }

  lemma FinishLeavesHeld(jobs: Jobs, s: SessionID, to: JobState, code: string, at: Time, j: JobID)
    requires Layered(jobs) && to.Doomed() && j in jobs && Held(jobs, j) && Hopeful(jobs, j, None)
    requires jobs[j].spec.session != Some(s)
    ensures Held(FinishJobs(jobs, s, to, code, at), j) && Hopeful(FinishJobs(jobs, s, to, code, at), j, None)
  {
    StaysHeld(jobs, FinishJobs(jobs, s, to, code, at), j);
  }

  lemma FinishKeepsReserved(db: DB, s: SessionID, to: SessionState, code: string, at: Time)
    requires Reserved(db.workers, db.sessions)
    requires s in db.sessions && to.Terminal()
    ensures var db' := FinishSession(db, s, to, code, at); Reserved(db'.workers, db'.sessions)
  {
    var db' := FinishSession(db, s, to, code, at);
    forall t | t in db'.sessions && db'.sessions[t].state.SessionActive? ensures Serves(db'.workers, db'.sessions, t) {
      assert Serves(db.workers, db.sessions, t);
    }
  }

  lemma FinishKeepsInv(db: DB, s: SessionID, to: SessionState, code: string, at: Time)
    requires Inv(db) && s in db.sessions && to.Terminal()
    ensures Inv(FinishSession(db, s, to, code, at))
  {
    var db' := FinishSession(db, s, to, code, at);
    if !db.sessions[s].state.Terminal() {
      FinishSettles(db, s, to, code, at);
      SettledWork(db, db');
      FinishKeepsDependencies(db.jobs, s, if to.SessionLost? then JobSessionLost else JobCanceled, code, at);
      FinishKeepsReserved(db, s, to, code, at);
      FinishKeepsOwned(db, s, to, code, at);
      FinishKeepsCapped(db, s, to, code, at);
      FinishKeepsPlanned(db, s, to, code, at);
    }
  }

  lemma SettledWork(db: DB, db': DB)
    requires Inv(db) && Settles(db, db')
    ensures Coherent(db'.jobs, db'.attempts, db'.leases) && Numbered(db'.jobs, db'.attempts) && Credited(db'.jobs, db'.attempts)
  {
    KeepsCoherent(db, db');
    KeepsNumbered(db, db');
    KeepsCredited(db, db');
  }

  lemma FinishKeepsCapped(db: DB, s: SessionID, to: SessionState, code: string, at: Time)
    requires Capped(db.workers, db.attempts) && s in db.sessions && to.Terminal()
    requires AttemptsSettle(db.attempts, FinishSession(db, s, to, code, at).attempts)
    ensures var db' := FinishSession(db, s, to, code, at); Capped(db'.workers, db'.attempts)
  {
    KeepsCapped(db, FinishSession(db, s, to, code, at));
  }

  lemma FinishKeepsPlanned(db: DB, s: SessionID, to: SessionState, code: string, at: Time)
    requires Planned(db.jobs, db.sessions) && s in db.sessions && to.Terminal()
    ensures var db' := FinishSession(db, s, to, code, at); Planned(db'.jobs, db'.sessions)
  {
    var db' := FinishSession(db, s, to, code, at);
    KeepsPlanned(db.jobs, db'.jobs, db.sessions, db'.sessions);
  }

  lemma FinishKeepsOwned(db: DB, s: SessionID, to: SessionState, code: string, at: Time)
    requires Owned(db.jobs, db.sessions)
    requires s in db.sessions && to.Terminal() && !db.sessions[s].state.Terminal()
    ensures var db' := FinishSession(db, s, to, code, at); Owned(db'.jobs, db'.sessions)
  {
    FinishJobsSettles(db.jobs, s, if to.SessionLost? then JobSessionLost else JobCanceled, code, at);
  }

  // Transactions that leave jobs, attempts and leases alone

  // Sessions keep their specification, move forward and do not end.
  ghost predicate SessionsAdvance(sessions: Sessions, sessions': Sessions) {
    && sessions.Keys <= sessions'.Keys
    && (forall s :: s in sessions ==>
          && sessions'[s].spec == sessions[s].spec
          && sessions[s].epoch <= sessions'[s].epoch
          && (sessions'[s].state.Terminal() ==> sessions[s].state.Terminal())
          && (sessions'[s].state.SessionPending? ==> sessions[s].state.SessionPending?))
  }

  ghost predicate Roster(db: DB) {
    Reserved(db.workers, db.sessions) && Capped(db.workers, db.attempts)
  }

  ghost predicate Advances(db: DB, db': DB) {
    && db'.jobs == db.jobs && db'.attempts == db.attempts && db'.leases == db.leases
    && SessionsAdvance(db.sessions, db'.sessions)
    && Roster(db')
  }

  lemma AdvancesKeepsInv(db: DB, db': DB)
    requires Inv(db) && Advances(db, db')
    ensures Inv(db')
  {
    KeepsOwned(db.jobs, db'.jobs, db.sessions, db'.sessions);
    KeepsPlanned(db.jobs, db'.jobs, db.sessions, db'.sessions);
  }

  // What one session may become, when nothing else changes.
  ghost predicate MayBecome(workers: Workers, sessions: Sessions, s: SessionID, v: Session) {
    && (s in sessions ==>
          && v.spec == sessions[s].spec
          && sessions[s].epoch <= v.epoch
          && (v.state.Terminal() ==> sessions[s].state.Terminal())
          && (v.state.SessionPending? ==> sessions[s].state.SessionPending?))
    && (v.state.SessionActive? ==> Serves(workers, sessions[s := v], s))
    && (v.state.SessionPending? || v.state.SessionRecovering? ==> v.worker.None?)
  }

  lemma OneSessionKeepsReserved(workers: Workers, sessions: Sessions, s: SessionID, v: Session)
    requires Reserved(workers, sessions) && MayBecome(workers, sessions, s, v)
    ensures Reserved(workers, sessions[s := v])
  {
    var after := sessions[s := v];
    forall t | t in after && after[t].state.SessionActive? ensures Serves(workers, after, t) {
      assert t != s ==> Serves(workers, sessions, t);
    }
  }

  lemma OneSessionAdvances(db: DB, s: SessionID, v: Session)
    requires Roster(db) && MayBecome(db.workers, db.sessions, s, v)
    ensures Advances(db, db.(sessions := db.sessions[s := v]))
  {
    OneSessionKeepsReserved(db.workers, db.sessions, s, v);
  }

  lemma StillAdvances(db: DB)
    requires Roster(db)
    ensures Advances(db, db)
  {
  }

  lemma CreateSessionAdvances(db: DB, s: SessionID, spec: SessionSpec, epoch: nat)
    requires Roster(db)
    ensures Advances(db, CreateSession(db, s, spec, epoch).db)
  {
    var db' := CreateSession(db, s, spec, epoch).db;
    if db' == db {
      StillAdvances(db);
    } else {
      OneSessionAdvances(db, s, db'.sessions[s]);
    }
  }

  lemma RequestRecoveryAdvances(db: DB, s: SessionID, at: Time)
    requires Roster(db)
    ensures Advances(db, RequestRecovery(db, s, at).db)
  {
    var db' := RequestRecovery(db, s, at).db;
    if db' == db {
      StillAdvances(db);
    } else {
      OneSessionAdvances(db, s, db'.sessions[s]);
    }
  }

  lemma ClaimRecoveryAdvances(db: DB, s: SessionID, at: Time)
    requires Roster(db)
    ensures Advances(db, ClaimRecovery(db, s, at).db)
  {
    var db' := ClaimRecovery(db, s, at).db;
    if db' == db {
      StillAdvances(db);
    } else {
      OneSessionAdvances(db, s, db'.sessions[s]);
    }
  }

  // The controller completes a recovery with a worker that is reserved at the session's epoch.
  predicate Matches(db: DB, s: SessionID, w: WorkerID) {
    s in db.sessions && w in db.workers && db.workers[w].reserved == Some(s) && db.workers[w].epoch == db.sessions[s].epoch
  }

  lemma CompleteRecoveryAdvances(db: DB, s: SessionID, w: WorkerID)
    requires Roster(db) && Matches(db, s, w)
    ensures Advances(db, CompleteRecovery(db, s, db.sessions[s].epoch, w, db.workers[w].spec.box).db)
  {
    var db' := CompleteRecovery(db, s, db.sessions[s].epoch, w, db.workers[w].spec.box).db;
    if db' == db {
      StillAdvances(db);
    } else {
      assert db'.workers == db.workers;
      OneSessionAdvances(db, s, db'.sessions[s]);
      assert db' == db.(sessions := db.sessions[s := db'.sessions[s]]);
    }
  }

  lemma AcknowledgeAdvances(db: DB, s: SessionID, epoch: nat, w: WorkerID)
    requires Roster(db)
    ensures Advances(db, AcknowledgeRecovery(db, s, epoch, w).db)
  {
    var db' := AcknowledgeRecovery(db, s, epoch, w).db;
    if db' == db {
      StillAdvances(db);
    } else {
      OneSessionAdvances(db, s, db'.sessions[s]);
    }
  }

  // Freeing the workers of a session that is not active disturbs no active session.
  lemma DisbandKeepsReserved(workers: Workers, sessions: Sessions, s: SessionID, epoch: nat)
    requires Reserved(workers, sessions)
    requires s in sessions ==> !sessions[s].state.SessionActive?
    ensures Reserved(Disband(workers, s, epoch), sessions)
  {
    var after := Disband(workers, s, epoch);
    forall t | t in sessions && sessions[t].state.SessionActive? ensures Serves(after, sessions, t) {
      assert Serves(workers, sessions, t);
    }
  }

  lemma FailRecoveryAdvances(db: DB, s: SessionID, epoch: nat, retryAt: Time)
    requires Roster(db)
    ensures Advances(db, FailRecovery(db, s, epoch, retryAt).db)
  {
    if FailRecovery(db, s, epoch, retryAt).err == Ok {
      OneSessionKeepsReserved(db.workers, db.sessions, s,
                              db.sessions[s].(recovery := RecoveryFailed, recoveryAfter := Some(retryAt)));
      DisbandKeepsReserved(db.workers, FailRecovery(db, s, epoch, retryAt).db.sessions, s, epoch);
      DisbandKeepsCapped(db.workers, db.attempts, s, epoch);
    }
  }

  lemma DisbandKeepsCapped(workers: Workers, attempts: Attempts, s: SessionID, epoch: nat)
    requires Capped(workers, attempts)
    ensures Capped(Disband(workers, s, epoch), attempts)
  {
  }

  // After the session itself has ended, TerminalRecovery only lets go of its replacements.
  lemma AbandonAdvances(db: DB, s: SessionID, epoch: nat)
    requires Roster(db) && s in db.sessions && db.sessions[s].state.Terminal()
    ensures Advances(db, Abandon(db, s, epoch))
  {
    OneSessionKeepsReserved(db.workers, db.sessions, s, db.sessions[s].(recovery := RecoveryFailed));
    DisbandKeepsReserved(db.workers, Abandon(db, s, epoch).sessions, s, epoch);
    DisbandKeepsCapped(db.workers, db.attempts, s, epoch);
  }

  lemma TerminalRecoveryKeepsInv(db: DB, s: SessionID, epoch: nat, at: Time)
    requires Inv(db)
    ensures Inv(TerminalRecovery(db, s, epoch, at).db)
  {
    if TerminalRecovery(db, s, epoch, at).err == Ok {
      var finished := FinishSession(db, s, SessionLost, "recovery_failed", at);
      FinishKeepsInv(db, s, SessionLost, "recovery_failed", at);
      AbandonAdvances(finished, s, epoch);
      AdvancesKeepsInv(finished, Abandon(finished, s, epoch));
    }
  }

  lemma SameWorkersAdvances(db: DB, workers: Workers)
    requires Roster(db) && SameWorkers(db.workers, workers)
    ensures Advances(db, db.(workers := workers))
  {
    KeepsReserved(db.workers, workers, db.sessions);
  }

  lemma HeartbeatAdvances(db: DB, w: WorkerID, freeSlots: int, reported: seq<AttemptID>, report: Report)
    requires Roster(db)
    ensures Advances(db, Heartbeat(db, w, freeSlots, reported, report).db)
  {
    var db' := Heartbeat(db, w, freeSlots, reported, report).db;
    HeartbeatSame(db, w, freeSlots, reported, report);
    SameWorkersAdvances(db, db'.workers);
  }

  lemma HeartbeatSame(db: DB, w: WorkerID, freeSlots: int, reported: seq<AttemptID>, report: Report)
    requires Capped(db.workers, db.attempts)
    ensures var db' := Heartbeat(db, w, freeSlots, reported, report).db;
      SameWorkers(db.workers, db'.workers) && db' == db.(workers := db'.workers)
  {
    var db' := Heartbeat(db, w, freeSlots, reported, report).db;
    ReturnSlotSame(db.workers, db.attempts, w);
    if db' != db {
      OneWorkerSame(db.workers, db.attempts, w, db'.workers[w]);
    }
  }

  lemma SetHealthKeepsInv(db: DB, w: WorkerID, status: string, at: Time)
    requires Inv(db)
    ensures Inv(SetHealth(db, w, status, at).db)
  {
    if w in db.workers {
      MarkedKeepsInv(db, w, status);
      if db.workers[w].reserved.Some? && db.workers[w].reserved.value in db.sessions {
        DeathKeepsInv(Marked(db, w, status), db.workers[w].reserved.value, at);
      }
      SetHealthCases(db, w, status, at);
    }
  }

  lemma SetHealthCases(db: DB, w: WorkerID, status: string, at: Time)
    requires w in db.workers
    ensures var db', marked, hold := SetHealth(db, w, status, at).db, Marked(db, w, status), db.workers[w].reserved;
      || db' == marked
      || (hold.Some? && hold.value in db.sessions
          && (|| db' == RequestRecovery(marked, hold.value, at).db
              || db' == FinishSession(marked, hold.value, SessionLost, "session_lost", at)))
  {
  }

  lemma MarkedKeepsInv(db: DB, w: WorkerID, status: string)
    requires Inv(db) && w in db.workers
    ensures Inv(Marked(db, w, status))
  {
    MarkedAdvances(db, w, status);
    AdvancesKeepsInv(db, Marked(db, w, status));
  }

  lemma DeathKeepsInv(db: DB, s: SessionID, at: Time)
    requires Inv(db) && s in db.sessions
    ensures Inv(RequestRecovery(db, s, at).db)
    ensures Inv(FinishSession(db, s, SessionLost, "session_lost", at))
  {
    RequestRecoveryAdvances(db, s, at);
    AdvancesKeepsInv(db, RequestRecovery(db, s, at).db);
    FinishKeepsInv(db, s, SessionLost, "session_lost", at);
  }

  lemma MarkedAdvances(db: DB, w: WorkerID, status: string)
    requires Roster(db) && w in db.workers
    ensures Advances(db, Marked(db, w, status))
  {
    SameWorkersAdvances(db, Marked(db, w, status).workers);
  }

  lemma RegisterAdvances(db: DB, w: WorkerID, spec: WorkerSpec)
    requires Roster(db)
    ensures Advances(db, Register(db, w, spec).db)
  {
    if Register(db, w, spec).err == Ok {
      RegisterKeepsReserved(db, w, spec);
      RegisterKeepsCapped(db, w, spec);
    }
  }

  lemma RegisterKeepsReserved(db: DB, w: WorkerID, spec: WorkerSpec)
    requires Reserved(db.workers, db.sessions)
    ensures Reserved(Register(db, w, spec).db.workers, db.sessions)
  {
    var db' := Register(db, w, spec).db;
    forall t | t in db.sessions && db.sessions[t].state.SessionActive? ensures Serves(db'.workers, db.sessions, t) {
      assert Serves(db.workers, db.sessions, t);
    }
  }

  lemma RegisterKeepsCapped(db: DB, w: WorkerID, spec: WorkerSpec)
    requires Capped(db.workers, db.attempts) && Register(db, w, spec).err == Ok
    ensures Capped(Register(db, w, spec).db.workers, db.attempts)
  {
    assert ActiveOf(db.attempts, w) == {};
  }
}
