/** The recovery controller: what one pass does with a session that is recovering. */
module Recovery {
  import opened Domain
  import opened Tables
  import opened Transactions
  import opened Invariants
  import opened SessionSteps
  import opened JobSteps

  const ANYTHING := Constraints([], map[], "", "", "", "", "", None, "", None)

  // Step `i` of the plan depends on the step before it and is tried once.
  function RebuildRequest(s: SessionID, epoch: nat, plan: seq<string>, i: nat, at: Time): NewJob
    requires i < |plan|
  {
    NewJob(Rebuild(s, epoch, i), Some(RebuildKey(s, epoch, plan[i])), Some(s),
           if i == 0 then [] else [Rebuild(s, epoch, i - 1)], 1, 0, 0, 0, None,
           Candidate(Rebuild(s, epoch, i), at, ANYTHING))
  }

  function EnqueueStep(db: DB, s: SessionID, epoch: nat, plan: seq<string>, i: nat, at: Time): Tx
    requires i < |plan|
  {
    CreateJob(db, RebuildRequest(s, epoch, plan, i, at))
  }

  /** enqueueRebuild, from step `i` on. A conflict does not stop it; other errors
      do, and leave the steps that were already created. */
  function Enqueue(db: DB, s: SessionID, epoch: nat, plan: seq<string>, i: nat, at: Time): Tx
    decreases |plan| - i
  {
    if i >= |plan| then Tx(db, Ok)
    else
      var t := EnqueueStep(db, s, epoch, plan, i, at);
      if t.err == NotFound then t else Enqueue(t.db, s, epoch, plan, i + 1, at)
  }

  // The jobs that rebuildValidated looks at.
  predicate InRebuild(jobs: Jobs, s: SessionID, epoch: nat, j: JobID) {
    j in jobs && j.Rebuild? && j.session == s && j.epoch == epoch && jobs[j].spec.session == Some(s)
  }

  ghost predicate RebuildDoomed(jobs: Jobs, s: SessionID, epoch: nat) {
    exists j :: InRebuild(jobs, s, epoch, j) && jobs[j].state.Doomed()
  }

  ghost predicate RebuildDone(jobs: Jobs, s: SessionID, epoch: nat) {
    forall j :: InRebuild(jobs, s, epoch, j) ==> jobs[j].state.JobSucceeded?
  }

  // enqueueRebuild for a session that is recovering.
  function Enqueued(db: DB, s: SessionID, at: Time): Tx
    requires s in db.sessions
  {
    Enqueue(db, s, db.sessions[s].epoch, db.sessions[s].spec.plan, 0, at)
  }

  // rebuildValidated after the enqueueing, and the activation that follows it.
  ghost function Validate(db: DB, s: SessionID, w: WorkerID, at: Time): Tx
    requires s in db.sessions && w in db.workers
  {
    var epoch := db.sessions[s].epoch;
    if RebuildDoomed(db.jobs, s, epoch) then TerminalRecovery(db, s, epoch, at)
    else if !RebuildDone(db.jobs, s, epoch) then Tx(db, Ok)
    else
      var ack := if db.sessions[s].acknowledged then Tx(db, Ok) else AcknowledgeRecovery(db, s, epoch, w);
      if ack.err != Ok then ack else CompleteRecovery(ack.db, s, epoch, w, db.workers[w].spec.box)
  }

  /** The controller meets worker `w`, reserved for session `s` at its epoch. */
  ghost function Adopt(db: DB, s: SessionID, w: WorkerID, at: Time): Tx {
    if !Matches(db, s, w) || !db.sessions[s].state.SessionRecovering? then Tx(db, Conflict)
    else if db.sessions[s].spec.policy.RecoveryRebuild? then
      var t := Enqueued(db, s, at);
      if t.err != Ok || s !in t.db.sessions || w !in t.db.workers then t else Validate(t.db, s, w, at)
    else if !db.sessions[s].acknowledged then Tx(db, Ok)
    else CompleteRecovery(db, s, db.sessions[s].epoch, w, db.workers[w].spec.box)
  }

  datatype Outcome = Created(id: BoxID, box: Box) | CreateFailed | Aborted

  function Reserve(db: DB, s: SessionID, id: BoxID, box: Box): DB {
    db.(boxes := db.boxes[id := box.(reserved := if id in db.boxes then db.boxes[id].reserved else Some(s))])
  }

  // The recovery budget: `limit` attempts over the life of the session; none when it is not positive.
  predicate WithinBudget(limit: int, recoveries: nat) {
    limit <= 0 || recoveries <= limit
  }

  /** The controller claims the recovery and asks for a replacement, or gives up. */
  function Provision(db: DB, s: SessionID, limit: int, outcome: Outcome, at: Time, retryAt: Time): Tx {
    var t := ClaimRecovery(db, s, at);
    if t.err != Ok then t
    else
      var v := t.db.sessions[s];
      if !WithinBudget(limit, v.recoveries) then TerminalRecovery(t.db, s, v.epoch, at)
      else match outcome
        case Created(id, box) => Tx(Reserve(t.db, s, id, box), Ok)
        case CreateFailed => FailRecovery(t.db, s, v.epoch, retryAt)
        case Aborted => t
  }

  /** A replacement that never registered is given up. */
  ghost function DropReplacement(db: DB, s: SessionID, retryAt: Time): Tx {
    if s in db.sessions && db.sessions[s].state.SessionRecovering?
       && (db.sessions[s].recovery.RecoveryProvisioning? || db.sessions[s].recovery.RecoveryRestoring?)
       && !(exists w :: Matches(db, s, w))
    then FailRecovery(db, s, db.sessions[s].epoch, retryAt)
    else Tx(db, Conflict)
  }

  /** A worker reports how its restore went. */
  function Acknowledge(db: DB, w: WorkerID, s: SessionID, epoch: nat, failed: bool, retryAt: Time): Tx {
    if w !in db.workers || db.workers[w].reserved != Some(s) || db.workers[w].epoch != epoch then Tx(db, Conflict)
    else if failed then FailRecovery(db, s, epoch, retryAt)
    else AcknowledgeRecovery(db, s, epoch, w)
  }

  // These steps keep the invariant

  // What the controller reads of a session it rebuilds.
  predicate Rebuilding(db: DB, s: SessionID, epoch: nat, plan: seq<string>) {
    && s in db.sessions
    && !db.sessions[s].state.SessionPending?
    && db.sessions[s].spec.policy.RecoveryRebuild?
    && plan == db.sessions[s].spec.plan
    && epoch <= db.sessions[s].epoch
  }

  lemma StepIsLegitimate(db: DB, s: SessionID, epoch: nat, plan: seq<string>, i: nat, at: Time)
    requires Rebuilding(db, s, epoch, plan) && i < |plan|
    ensures Legitimate(db, RebuildRequest(s, epoch, plan, i, at))
    ensures Rebuilding(EnqueueStep(db, s, epoch, plan, i, at).db, s, epoch, plan)
  {
  }

  lemma StepKeepsInv(db: DB, s: SessionID, epoch: nat, plan: seq<string>, i: nat, at: Time)
    requires Inv(db) && Rebuilding(db, s, epoch, plan) && i < |plan|
    ensures Inv(EnqueueStep(db, s, epoch, plan, i, at).db)
  {
    StepIsLegitimate(db, s, epoch, plan, i, at);
    CreateJobKeepsInv(db, RebuildRequest(s, epoch, plan, i, at));
  }

  // What every step keeps, the whole enqueueing keeps.
  lemma {:induction false} EnqueueInduction(keep: DB -> bool, db: DB, s: SessionID, epoch: nat, plan: seq<string>, i: nat, at: Time)
    requires keep(db)
    requires forall d, k :: keep(d) && 0 <= k < |plan| ==> keep(EnqueueStep(d, s, epoch, plan, k, at).db)
    ensures keep(Enqueue(db, s, epoch, plan, i, at).db)
    decreases |plan| - i
  {
    if i < |plan| {
      EnqueueInduction(keep, EnqueueStep(db, s, epoch, plan, i, at).db, s, epoch, plan, i + 1, at);
    }
  }

  lemma EnqueueKeepsInv(db: DB, s: SessionID, epoch: nat, plan: seq<string>, i: nat, at: Time)
    requires Inv(db) && Rebuilding(db, s, epoch, plan)
    ensures Inv(Enqueue(db, s, epoch, plan, i, at).db)
  {
    var keep := (d: DB) => Inv(d) && Rebuilding(d, s, epoch, plan);
    forall d, k | keep(d) && 0 <= k < |plan| ensures keep(EnqueueStep(d, s, epoch, plan, k, at).db) {
      StepIsLegitimate(d, s, epoch, plan, k, at);
      StepKeepsInv(d, s, epoch, plan, k, at);
    }
    EnqueueInduction(keep, db, s, epoch, plan, i, at);
  }

  // A job that nothing has happened to.
  predicate Newborn(job: Job) {
    job.state.Unstarted() && job.result.None? && job.log == []
  }

  // Enqueueing only adds jobs.
  ghost predicate Extends(db: DB, db': DB) {
    && db' == db.(jobs := db'.jobs)
    && (forall j :: j in db.jobs ==> j in db'.jobs && db'.jobs[j] == db.jobs[j])
    && (forall j :: j in db'.jobs && j !in db.jobs ==> Newborn(db'.jobs[j]))
  }

  lemma EnqueueExtends(db: DB, s: SessionID, epoch: nat, plan: seq<string>, i: nat, at: Time)
    ensures Extends(db, Enqueue(db, s, epoch, plan, i, at).db)
  {
    EnqueueInduction((d: DB) => Extends(db, d), db, s, epoch, plan, i, at);
  }

  // The four ways a validation can end.
  lemma ValidateCases(db: DB, s: SessionID, w: WorkerID, at: Time)
    requires Matches(db, s, w)
    ensures var db' := Validate(db, s, w, at).db; var epoch := db.sessions[s].epoch; var box := db.workers[w].spec.box;
      var acked := AcknowledgeRecovery(db, s, epoch, w).db;
      || db' == db
      || db' == TerminalRecovery(db, s, epoch, at).db
      || (db' == CompleteRecovery(db, s, epoch, w, box).db && db.sessions[s].acknowledged)
      || db' == acked
      || db' == CompleteRecovery(acked, s, epoch, w, box).db
  {
  }

  lemma ValidateKeepsInv(db: DB, s: SessionID, w: WorkerID, at: Time)
    requires Inv(db) && Matches(db, s, w)
    ensures Inv(Validate(db, s, w, at).db)
  {
    ValidateCases(db, s, w, at);
    TerminalRecoveryKeepsInv(db, s, db.sessions[s].epoch, at);
    ActivateKeepsInv(db, s, w);
    AckedActivateKeepsInv(db, s, w);
  }

  lemma AckedActivateKeepsInv(db: DB, s: SessionID, w: WorkerID)
    requires Inv(db) && Matches(db, s, w)
    ensures var acked := AcknowledgeRecovery(db, s, db.sessions[s].epoch, w).db;
      Inv(acked) && Inv(CompleteRecovery(acked, s, db.sessions[s].epoch, w, db.workers[w].spec.box).db)
  {
    AcknowledgedMatches(db, s, w);
    AcknowledgedKeepsInv(db, s, db.sessions[s].epoch, w);
    ActivateKeepsInv(AcknowledgeRecovery(db, s, db.sessions[s].epoch, w).db, s, w);
  }

  lemma AcknowledgedMatches(db: DB, s: SessionID, w: WorkerID)
    requires Matches(db, s, w)
    ensures var db' := AcknowledgeRecovery(db, s, db.sessions[s].epoch, w).db;
      Matches(db', s, w) && db'.sessions[s].epoch == db.sessions[s].epoch && db'.workers == db.workers
  {
  }

  lemma ClaimedKeepsInv(db: DB, s: SessionID, at: Time)
    requires Inv(db)
    ensures Inv(ClaimRecovery(db, s, at).db)
  {
    ClaimRecoveryAdvances(db, s, at);
    AdvancesKeepsInv(db, ClaimRecovery(db, s, at).db);
  }

  lemma AcknowledgedKeepsInv(db: DB, s: SessionID, epoch: nat, w: WorkerID)
    requires Inv(db)
    ensures Inv(AcknowledgeRecovery(db, s, epoch, w).db)
  {
    AcknowledgeAdvances(db, s, epoch, w);
    AdvancesKeepsInv(db, AcknowledgeRecovery(db, s, epoch, w).db);
  }

  lemma ActivateKeepsInv(db: DB, s: SessionID, w: WorkerID)
    requires Inv(db) && Matches(db, s, w)
    ensures Inv(CompleteRecovery(db, s, db.sessions[s].epoch, w, db.workers[w].spec.box).db)
  {
    CompleteRecoveryAdvances(db, s, w);
    AdvancesKeepsInv(db, CompleteRecovery(db, s, db.sessions[s].epoch, w, db.workers[w].spec.box).db);
  }

  lemma AdoptCases(db: DB, s: SessionID, w: WorkerID, at: Time)
    ensures var db' := Adopt(db, s, w, at).db;
      || db' == db
      || (Matches(db, s, w) && db.sessions[s].state.SessionRecovering?
          && (|| db' == CompleteRecovery(db, s, db.sessions[s].epoch, w, db.workers[w].spec.box).db
              || (db.sessions[s].spec.policy.RecoveryRebuild?
                  && s in Enqueued(db, s, at).db.sessions && w in Enqueued(db, s, at).db.workers
                  && (db' == Enqueued(db, s, at).db || db' == Validate(Enqueued(db, s, at).db, s, w, at).db))))
  {
    if s in db.sessions {
      EnqueueExtends(db, s, db.sessions[s].epoch, db.sessions[s].spec.plan, 0, at);
    }
  }

  lemma AdoptKeepsInv(db: DB, s: SessionID, w: WorkerID, at: Time)
    requires Inv(db)
    ensures Inv(Adopt(db, s, w, at).db)
  {
    AdoptCases(db, s, w, at);
    if Matches(db, s, w) && db.sessions[s].state.SessionRecovering? {
      ActivateKeepsInv(db, s, w);
      if db.sessions[s].spec.policy.RecoveryRebuild? {
        EnqueuedKeepsInv(db, s, w, at);
      }
    }
  }

  lemma EnqueuedKeepsInv(db: DB, s: SessionID, w: WorkerID, at: Time)
    requires Inv(db) && Matches(db, s, w) && db.sessions[s].state.SessionRecovering?
    requires db.sessions[s].spec.policy.RecoveryRebuild?
    ensures Matches(Enqueued(db, s, at).db, s, w)
    ensures Inv(Enqueued(db, s, at).db) && Inv(Validate(Enqueued(db, s, at).db, s, w, at).db)
  {
    EnqueueExtends(db, s, db.sessions[s].epoch, db.sessions[s].spec.plan, 0, at);
    EnqueueKeepsInv(db, s, db.sessions[s].epoch, db.sessions[s].spec.plan, 0, at);
    ValidateKeepsInv(Enqueued(db, s, at).db, s, w, at);
  }

  lemma ReserveKeepsInv(db: DB, s: SessionID, id: BoxID, box: Box)
    requires Inv(db)
    ensures Inv(Reserve(db, s, id, box))
  {
  }

  lemma ProvisionCases(db: DB, s: SessionID, limit: int, outcome: Outcome, at: Time, retryAt: Time)
    ensures var t := ClaimRecovery(db, s, at); var db' := Provision(db, s, limit, outcome, at, retryAt).db;
      if t.err != Ok then db' == t.db
      else if !WithinBudget(limit, t.db.sessions[s].recoveries) then db' == TerminalRecovery(t.db, s, t.db.sessions[s].epoch, at).db
      else || (outcome.Aborted? && db' == t.db)
           || (outcome.CreateFailed? && db' == FailRecovery(t.db, s, t.db.sessions[s].epoch, retryAt).db)
           || (outcome.Created? && db' == Reserve(t.db, s, outcome.id, outcome.box))
  {
  }

  lemma ProvisionKeepsInv(db: DB, s: SessionID, limit: int, outcome: Outcome, at: Time, retryAt: Time)
    requires Inv(db)
    ensures Inv(Provision(db, s, limit, outcome, at, retryAt).db)
  {
    ProvisionCases(db, s, limit, outcome, at, retryAt);
    ClaimedKeepsInv(db, s, at);
    ProvisionedKeepsInv(ClaimRecovery(db, s, at).db, s, outcome, at, retryAt);
  }

  lemma ProvisionedKeepsInv(db: DB, s: SessionID, outcome: Outcome, at: Time, retryAt: Time)
    requires Inv(db)
    ensures s in db.sessions ==> Inv(TerminalRecovery(db, s, db.sessions[s].epoch, at).db)
    ensures s in db.sessions ==> Inv(FailRecovery(db, s, db.sessions[s].epoch, retryAt).db)
    ensures outcome.Created? ==> Inv(Reserve(db, s, outcome.id, outcome.box))
  {
    if s in db.sessions {
      TerminalRecoveryKeepsInv(db, s, db.sessions[s].epoch, at);
      FailRecoveryKeepsInv(db, s, db.sessions[s].epoch, retryAt);
    }
    if outcome.Created? {
      ReserveKeepsInv(db, s, outcome.id, outcome.box);
    }
  }

  lemma FailRecoveryKeepsInv(db: DB, s: SessionID, epoch: nat, retryAt: Time)
    requires Inv(db)
    ensures Inv(FailRecovery(db, s, epoch, retryAt).db)
  {
    FailRecoveryAdvances(db, s, epoch, retryAt);
    AdvancesKeepsInv(db, FailRecovery(db, s, epoch, retryAt).db);
  }

  lemma AcknowledgeKeepsInv(db: DB, w: WorkerID, s: SessionID, epoch: nat, failed: bool, retryAt: Time)
    requires Inv(db)
    ensures Inv(Acknowledge(db, w, s, epoch, failed, retryAt).db)
  {
    FailRecoveryKeepsInv(db, s, epoch, retryAt);
    AcknowledgedKeepsInv(db, s, epoch, w);
  }
}
