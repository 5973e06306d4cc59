/** How sessions and reservations change from one commit to the next. */
module Fences {
  import opened Domain
  import opened Tables
  import opened Transactions
  import opened Invariants
  import opened Settlement
  import opened Endings
  import opened SessionSteps
  import opened JobSteps
  import opened Recovery

  /** Epochs and the recovery count only grow, an ended session stays as it ended,
      and within one epoch an active session keeps its worker and its sandbox. */
  predicate SessionMoves(v: Session, v': Session) {
    && v'.spec == v.spec
    && v.epoch <= v'.epoch
    && v.recoveries <= v'.recoveries
    && (v.state.Terminal() ==> v'.state == v.state)
    && (v'.state.SessionPending? ==> v.state.SessionPending?)
    && (v.state.SessionActive? && v'.epoch == v.epoch ==>
          v'.state.Terminal() || (v'.state.SessionActive? && v'.worker == v.worker && v'.box == v.box))
  }

  ghost predicate SessionsMove(sessions: Sessions, sessions': Sessions) {
    forall s :: s in sessions ==> s in sessions' && SessionMoves(sessions[s], sessions'[s])
  }

  /** The worker is reserved for an epoch that its session has left behind. */
  predicate Behind(workers: Workers, sessions: Sessions, w: WorkerID) {
    && w in workers
    && workers[w].reserved.Some?
    && workers[w].reserved.value in sessions
    && workers[w].epoch < sessions[workers[w].reserved.value].epoch
  }

  ghost predicate WorkersMove(db: DB, db': DB) {
    && (forall w :: w in db.workers ==> w in db'.workers && db'.workers[w].spec == db.workers[w].spec)
    && (forall w :: Behind(db.workers, db.sessions, w) ==>
          db'.workers[w].reserved == db.workers[w].reserved && db'.workers[w].epoch == db.workers[w].epoch)
  }

  ghost predicate Guards(db: DB, db': DB) {
    SessionsMove(db.sessions, db'.sessions) && WorkersMove(db, db')
  }

  lemma SameSessionsGuards(db: DB, db': DB)
    requires db'.sessions == db.sessions && SameWorkers(db.workers, db'.workers)
    ensures Guards(db, db')
  {
  }

  lemma GuardsTransitive(x: DB, y: DB, z: DB)
    requires Guards(x, y) && Guards(y, z)
    ensures Guards(x, z)
  {
    forall w | Behind(x.workers, x.sessions, w)
      ensures w in z.workers && z.workers[w].reserved == x.workers[w].reserved && z.workers[w].epoch == x.workers[w].epoch
    {
      assert Behind(y.workers, y.sessions, w);
    }
    forall s | s in x.sessions ensures s in z.sessions && SessionMoves(x.sessions[s], z.sessions[s]) {
      assert SessionMoves(x.sessions[s], y.sessions[s]) && SessionMoves(y.sessions[s], z.sessions[s]);
    }
  }

  // An active session ends together with the reservation of its own worker only.
  lemma FinishGuards(db: DB, s: SessionID, to: SessionState, code: string, at: Time)
    requires Reserved(db.workers, db.sessions) && s in db.sessions && to.Terminal()
    ensures Guards(db, FinishSession(db, s, to, code, at))
  {
    var v := db.sessions[s];
    if v.state.SessionActive? {
      assert Serves(db.workers, db.sessions, s);
    }
    FinishGuardsFresh(db, s, to, code, at);
  }

  lemma FinishGuardsFresh(db: DB, s: SessionID, to: SessionState, code: string, at: Time)
    requires s in db.sessions && to.Terminal()
    requires var v := db.sessions[s];
      v.worker.Some? && !v.state.Terminal() ==> v.worker.value in db.workers && db.workers[v.worker.value].epoch == v.epoch
    ensures Guards(db, FinishSession(db, s, to, code, at))
  {
  }

  lemma FailRecoveryGuards(db: DB, s: SessionID, epoch: nat, retryAt: Time)
    ensures Guards(db, FailRecovery(db, s, epoch, retryAt).db)
  {
  }

  lemma TerminalRecoveryGuards(db: DB, s: SessionID, epoch: nat, at: Time)
    requires Reserved(db.workers, db.sessions)
    ensures Guards(db, TerminalRecovery(db, s, epoch, at).db)
  {
    if TerminalRecovery(db, s, epoch, at).err == Ok {
      var finished := FinishSession(db, s, SessionLost, "recovery_failed", at);
      FinishGuards(db, s, SessionLost, "recovery_failed", at);
      AbandonGuards(finished, s, epoch);
      GuardsTransitive(db, finished, Abandon(finished, s, epoch));
    }
  }

  lemma AbandonGuards(db: DB, s: SessionID, epoch: nat)
    requires s in db.sessions && db.sessions[s].epoch == epoch
    ensures Guards(db, Abandon(db, s, epoch))
  {
  }

  lemma RequestRecoveryGuards(db: DB, s: SessionID, at: Time)
    ensures Guards(db, RequestRecovery(db, s, at).db)
  {
  }

  lemma ClaimRecoveryGuards(db: DB, s: SessionID, at: Time)
    ensures Guards(db, ClaimRecovery(db, s, at).db)
  {
  }

  lemma AcknowledgeGuards(db: DB, s: SessionID, epoch: nat, w: WorkerID)
    ensures Guards(db, AcknowledgeRecovery(db, s, epoch, w).db)
  {
  }

  lemma CompleteRecoveryGuards(db: DB, s: SessionID, w: WorkerID)
    requires Matches(db, s, w)
    ensures Guards(db, CompleteRecovery(db, s, db.sessions[s].epoch, w, db.workers[w].spec.box).db)
  {
    assert CompleteRecovery(db, s, db.sessions[s].epoch, w, db.workers[w].spec.box).db.workers == db.workers;
  }

  lemma CreateSessionGuards(db: DB, s: SessionID, spec: SessionSpec, epoch: nat)
    ensures Guards(db, CreateSession(db, s, spec, epoch).db)
  {
  }

  lemma RegisterGuards(db: DB, w: WorkerID, spec: WorkerSpec)
    ensures Guards(db, Register(db, w, spec).db)
  {
  }

  lemma BindGuards(db: DB, w: WorkerID, s: SessionID)
    requires w in db.workers && s in db.sessions && db.sessions[s].state.SessionPending?
    requires db.workers[w].reserved.None?
    ensures Guards(db, BindSession(db, w, s))
  {
  }
}
