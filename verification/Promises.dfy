/** What the short transactions promise to whoever calls them. */
module Promises {
  import opened Domain
  import opened Tables
  import opened Transactions
  import opened Invariants
  import opened Endings
  import opened SessionSteps
  import opened Recovery
  import opened Fences

  // Sessions

  /** Nothing in the store refers to a session before it is created. */
  ghost predicate Unknown(db: DB, s: SessionID) {
    && (forall w :: w in db.workers ==> db.workers[w].reserved != Some(s))
    && (forall j :: j in db.jobs ==> db.jobs[j].spec.session != Some(s))
  }

  // The session waits for its first worker, as it was asked for; no epoch is zero.
  predicate Pends(db: DB, s: SessionID, spec: SessionSpec, epoch: nat) {
    && s in db.sessions && db.sessions[s].state.SessionPending? && db.sessions[s].spec == spec
    && db.sessions[s].epoch == Max(1, epoch) && db.sessions[s].recoveries == 0 && !db.sessions[s].acknowledged
  }

  lemma CreatedFresh(db: DB, s: SessionID, spec: SessionSpec, epoch: nat)
    requires Reserved(db.workers, db.sessions) && Owned(db.jobs, db.sessions) && CreateSession(db, s, spec, epoch).err == Ok
    ensures var db' := CreateSession(db, s, spec, epoch).db; Unknown(db', s) && Pends(db', s, spec, epoch)
  {
  }

  /** The session has ended, and with it all its work. */
  ghost predicate AllEnded(db: DB, s: SessionID) {
    && s in db.sessions && db.sessions[s].state.Terminal()
    && (forall j :: OwnedBy(db.jobs, j, s) ==> db.jobs[j].state.Terminal())
    && (forall a: AttemptID :: OwnedBy(db.jobs, a.job, s) ==> a !in db.leases && !Live(db.attempts, a))
  }

  lemma EndedOwnsNothing(db: DB, s: SessionID)
    requires Owned(db.jobs, db.sessions) && Coherent(db.jobs, db.attempts, db.leases)
    requires s in db.sessions && db.sessions[s].state.Terminal()
    ensures AllEnded(db, s)
  {
  }

  /** The fence: every worker that holds a reservation of the session is stale. */
  ghost predicate Fenced(db: DB, s: SessionID) {
    forall w :: w in db.workers && db.workers[w].reserved == Some(s) ==> Behind(db.workers, db.sessions, w)
  }

  // A controller can claim the recovery exactly from `at` on.
  ghost predicate ClaimableFrom(db: DB, s: SessionID, at: Time) {
    forall when :: ClaimRecovery(db, s, when).err == Ok <==> at <= when
  }

  lemma RecoveryFences(db: DB, s: SessionID, at: Time)
    requires Reserved(db.workers, db.sessions) && RequestRecovery(db, s, at).err == Ok
    ensures Fenced(RequestRecovery(db, s, at).db, s) && ClaimableFrom(RequestRecovery(db, s, at).db, s, at)
  {
  }

  ghost predicate ServesNobody(db: DB, w: WorkerID) {
    forall s :: s in db.sessions && db.sessions[s].state.SessionActive? ==> db.sessions[s].worker != Some(w)
  }

  /** A worker that was declared dead serves no session any more. */
  lemma DeadServesNobody(db: DB, w: WorkerID, at: Time)
    requires Reserved(db.workers, db.sessions) && SetHealth(db, w, "dead", at).err == Ok
    ensures ServesNobody(SetHealth(db, w, "dead", at).db, w)
  {
    var db' := SetHealth(db, w, "dead", at).db;
    forall s | s in db'.sessions && db'.sessions[s].state.SessionActive? ensures db'.sessions[s].worker != Some(w) {
      assert s in db.sessions && db.sessions[s].state.SessionActive?;
      assert Serves(db.workers, db.sessions, s);
    }
  }

  // What the worker last said of itself, or others of it.
  predicate HasStatus(db: DB, w: WorkerID, status: string) {
    w in db.workers && db.workers[w].report.status == status
  }

  lemma HealthRecorded(db: DB, w: WorkerID, status: string, at: Time)
    requires w in db.workers
    ensures HasStatus(SetHealth(db, w, status, at).db, w, status)
  {
  }

  // Recovery

  /** One controller at a time: nobody can claim the recovery, whatever the time. */
  ghost predicate Excluded(db: DB, s: SessionID) {
    forall at :: ClaimRecovery(db, s, at).err == Conflict
  }

  lemma ClaimExcludes(db: DB, s: SessionID, at: Time)
    requires ClaimRecovery(db, s, at).err == Ok
    ensures Excluded(ClaimRecovery(db, s, at).db, s)
  {
  }

  /** After an acknowledgement at `epoch` the recovery can be completed, at that epoch only. */
  lemma AcknowledgedOpens(db: DB, s: SessionID, epoch: nat, w: WorkerID, e: nat, v: WorkerID, box: BoxID)
    requires AcknowledgeRecovery(db, s, epoch, w).err == Ok
    ensures CompleteRecovery(AcknowledgeRecovery(db, s, epoch, w).db, s, e, v, box).err == Ok <==> e == epoch
  {
  }

  /** A recovery that is completed with a matching worker leaves the session served by it. */
  lemma CompletedServes(db: DB, s: SessionID, w: WorkerID)
    requires Matches(db, s, w) && CompleteRecovery(db, s, db.sessions[s].epoch, w, db.workers[w].spec.box).err == Ok
    ensures var db' := CompleteRecovery(db, s, db.sessions[s].epoch, w, db.workers[w].spec.box).db;
      s in db'.sessions && db'.sessions[s].state.SessionActive? && Serves(db'.workers, db'.sessions, s)
  {
  }

  ghost predicate Unmatched(db: DB, s: SessionID) {
    forall w :: !Matches(db, s, w)
  }

  /** After a failure no worker matches the session, and the next claim succeeds exactly
      from the time of the retry on. */
  lemma FailedFrees(db: DB, s: SessionID, epoch: nat, retryAt: Time, at: Time)
    requires FailRecovery(db, s, epoch, retryAt).err == Ok
    ensures var db' := FailRecovery(db, s, epoch, retryAt).db;
      Unmatched(db', s) && (ClaimRecovery(db', s, at).err == Ok <==> retryAt <= at)
  {
  }

  ghost predicate Abandoned(db: DB, s: SessionID) {
    && Unmatched(db, s)
    && (forall b :: b in db.boxes ==> db.boxes[b].reserved != Some(s))
  }

  lemma TerminalAbandons(db: DB, s: SessionID, epoch: nat, at: Time)
    requires TerminalRecovery(db, s, epoch, at).err == Ok
    ensures var db' := TerminalRecovery(db, s, epoch, at).db;
      Abandoned(db', s) && s in db'.sessions && db'.sessions[s].state.SessionLost?
  {
  }

  /** Whatever the provider answers, a positive budget is never exceeded by a session that
      is not lost. */
  predicate InBudget(db: DB, s: SessionID, limit: int) {
    s in db.sessions && (db.sessions[s].recoveries <= limit || db.sessions[s].state.SessionLost?)
  }

  lemma ProvisionInBudget(db: DB, s: SessionID, limit: int, outcome: Outcome, at: Time, retryAt: Time)
    requires limit > 0 && Provision(db, s, limit, outcome, at, retryAt).err == Ok
    ensures InBudget(Provision(db, s, limit, outcome, at, retryAt).db, s, limit)
  {
  }

  // Attempts

  /** A renewed lease can be completed, by its worker, exactly until the new expiry. */
  lemma RenewalBuysTime(db: DB, w: WorkerID, a: AttemptID, now: Time, until: Time, c: Completion, at: Time)
    requires Coherent(db.jobs, db.attempts, db.leases) && Renew(db, w, a, now, until).err == Ok
    ensures Complete(Renew(db, w, a, now, until).db, w, a, c, at).err == Ok <==> at < until
  {
    assert Live(db.attempts, a);
  }

  /** A result is only ever written for the latest attempt of a leased job. */
  lemma ResultsAreLive(db: DB, w: WorkerID, a: AttemptID, status: int, data: seq<int>)
    requires Coherent(db.jobs, db.attempts, db.leases) && SaveResult(db, w, a, status, data).err == Ok
    ensures a.job in db.jobs && db.jobs[a.job].state.JobLeased? && a == Latest(db.attempts, a.job)
  {
    assert Live(db.attempts, a);
  }

  /** A new worker passes authentication and runs nothing. */
  lemma NewcomerIsAdmitted(db: DB, w: WorkerID, spec: WorkerSpec)
    requires Capped(db.workers, db.attempts) && Register(db, w, spec).err == Ok
    ensures Authenticated(Register(db, w, spec).db, w) && ActiveOf(db.attempts, w) == {}
    ensures Idles(Register(db, w, spec).db, w, spec)
    ensures forall s :: Matches(Register(db, w, spec).db, s, w) <==> Awaits(db, s, spec.box)
  {
  }

  // The sandbox was made for this session, which is still recovering.
  predicate Awaits(db: DB, s: SessionID, box: BoxID) {
    s in db.sessions && db.sessions[s].state.SessionRecovering? && box in db.boxes && db.boxes[box].reserved == Some(s)
  }

  // The worker has all its slots, in a sandbox of its own.
  predicate Idles(db: DB, w: WorkerID, spec: WorkerSpec) {
    && w in db.workers && db.workers[w].spec == spec && db.workers[w].freeSlots == spec.maxSlots
    && spec.box in db.boxes && db.boxes[spec.box].worker == Some(w) && db.boxes[spec.box].caps == spec.caps
  }
}
