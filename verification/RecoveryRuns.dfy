/** What every run guarantees about recovery: its budget, its acknowledgement and
    what an ended session lets go of. */
module RecoveryRuns {
  import opened Domain
  import opened Tables
  import opened Transactions
  import opened Invariants
  import opened SessionSteps
  import opened Recovery
  import opened Fences
  import opened Protocol
  import opened Safety
  import opened Epochs
  import opened SessionTurns
  import opened SessionRuns

  lemma RunTurns(states: seq<DB>, labels: seq<Label>, i: nat)
    requires IsRun(states, labels) && i < |labels|
    ensures Turns(states[i], labels[i], states[i + 1].sessions)
  {
    assert Follows(states, labels, i);
    Reachable(states, labels, i);
    StepTurns(states[i], labels[i]);
  }

  // The budget

  /** The controller turns to the provider for a replacement of session `s`, to create or
      to restore one, whatever comes of it. */
  predicate Provisions(db: DB, l: Label, s: SessionID) {
    && l.ProvisionReplacement? && l.s == s
    && s in db.sessions
    && ClaimRecovery(db, s, l.at).err == Ok
    && WithinBudget(l.limit, db.sessions[s].recoveries + 1)
  }

  // How many of the first `n` steps do so.
  function ProvisionsIn(states: seq<DB>, labels: seq<Label>, s: SessionID, n: nat): nat
    requires n <= |labels| && |states| == |labels| + 1
  {
    if n == 0 then 0
    else ProvisionsIn(states, labels, s, n - 1) + (if Provisions(states[n - 1], labels[n - 1], s) then 1 else 0)
  }

  // Provisions so far, in a state of the run.
  predicate Counted(sessions: Sessions, s: SessionID, limit: int, asked: nat) {
    asked <= limit && (if s in sessions then asked <= sessions[s].recoveries else asked == 0)
  }

  // A step of a controller whose limit is `limit` counts what it asks for.
  ghost predicate Counts(db: DB, l: Label, db': DB, s: SessionID) {
    && (s in db.sessions ==> s in db'.sessions && db.sessions[s].recoveries <= db'.sessions[s].recoveries)
    && (Provisions(db, l, s) ==> s in db'.sessions && db'.sessions[s].recoveries == db.sessions[s].recoveries + 1)
  }

  lemma ProvisionsClaim(db: DB, l: Label, s: SessionID)
    requires Provisions(db, l, s)
    ensures var db' := Apply(db, l);
      s in db'.sessions && db'.sessions[s].recoveries == db.sessions[s].recoveries + 1
  {
  }

  lemma CountsInRun(states: seq<DB>, labels: seq<Label>, i: nat, s: SessionID)
    requires IsRun(states, labels) && i < |labels|
    ensures Counts(states[i], labels[i], states[i + 1], s)
  {
    RunTurns(states, labels, i);
    assert Follows(states, labels, i);
    if Provisions(states[i], labels[i], s) {
      ProvisionsClaim(states[i], labels[i], s);
    }
  }

  lemma CountedStep(db: DB, l: Label, db': DB, s: SessionID, limit: int, asked: nat)
    requires Counted(db.sessions, s, limit, asked) && Counts(db, l, db', s)
    requires limit > 0 && (l.ProvisionReplacement? && l.s == s ==> l.limit == limit)
    ensures Counted(db'.sessions, s, limit, asked + if Provisions(db, l, s) then 1 else 0)
  {
  }

  lemma {:induction false} CountedSteps(states: seq<DB>, labels: seq<Label>, s: SessionID, limit: int, n: nat)
    requires n <= |labels| && |states| == |labels| + 1 && limit > 0
    requires states[0].sessions == map[]
    requires forall i :: 0 <= i < n ==> Counts(states[i], labels[i], states[i + 1], s)
    requires forall i :: 0 <= i < n && labels[i].ProvisionReplacement? && labels[i].s == s ==> labels[i].limit == limit
    ensures Counted(states[n].sessions, s, limit, ProvisionsIn(states, labels, s, n))
  {
    if n > 0 {
      CountedSteps(states, labels, s, limit, n - 1);
      CountedStep(states[n - 1], labels[n - 1], states[n], s, limit, ProvisionsIn(states, labels, s, n - 1));
    }
  }

  /** Over any run, across all epochs, a controller with a positive limit turns to the
      provider at most that often for a session. */
  lemma BoundedRecovery(states: seq<DB>, labels: seq<Label>, s: SessionID, limit: int, n: nat)
    requires IsRun(states, labels) && n <= |labels| && limit > 0
    requires forall i :: 0 <= i < n && labels[i].ProvisionReplacement? && labels[i].s == s ==> labels[i].limit == limit
    ensures ProvisionsIn(states, labels, s, n) <= limit
  {
    forall i | 0 <= i < n ensures Counts(states[i], labels[i], states[i + 1], s) {
      CountsInRun(states, labels, i, s);
    }
    CountedSteps(states, labels, s, limit, n);
  }

  // Acknowledgement

  // Step `i` sets the session's acknowledgement at epoch `e`, on behalf of a worker that is
  // reserved for the session at `e`.
  ghost predicate AcknowledgedAt(states: seq<DB>, labels: seq<Label>, s: SessionID, e: nat, i: nat)
    requires i < |labels| && |states| == |labels| + 1
  {
    && Acknowledges(states[i], labels[i], s)
    && states[i].sessions[s].epoch == e && !states[i].sessions[s].acknowledged
    && s in states[i + 1].sessions
    && states[i + 1].sessions[s].epoch == e && states[i + 1].sessions[s].acknowledged
  }

  // An acknowledgement is carried over from the state before, or given in this step.
  predicate Carries(db: DB, l: Label, db': DB, s: SessionID) {
    s in db'.sessions && db'.sessions[s].acknowledged ==>
      && s in db.sessions && db.sessions[s].epoch == db'.sessions[s].epoch
      && (db.sessions[s].acknowledged || Acknowledges(db, l, s))
  }

  lemma NewSessionsUnacknowledged(db: DB, l: Label, s: SessionID)
    requires Inv(db) && Enabled(db, l) && s !in db.sessions && s in Apply(db, l).sessions
    ensures !Apply(db, l).sessions[s].acknowledged
  {
    if l.OpenSession? {
      assert Apply(db, l) == CreateSession(db, l.s, l.spec, l.epoch).db;
    } else {
      KnownSessions(db, l);
    }
  }

  lemma CarriesInRun(states: seq<DB>, labels: seq<Label>, i: nat, s: SessionID)
    requires IsRun(states, labels) && i < |labels|
    ensures Carries(states[i], labels[i], states[i + 1], s)
  {
    RunTurns(states, labels, i);
    if s !in states[i].sessions && s in states[i + 1].sessions {
      assert Follows(states, labels, i);
      Reachable(states, labels, i);
      NewSessionsUnacknowledged(states[i], labels[i], s);
    }
  }

  lemma {:induction false} AcknowledgedBefore(states: seq<DB>, labels: seq<Label>, s: SessionID, k: nat)
    requires k < |states| && |states| == |labels| + 1 && states[0].sessions == map[]
    requires forall i :: 0 <= i < k ==> Carries(states[i], labels[i], states[i + 1], s)
    requires s in states[k].sessions && states[k].sessions[s].acknowledged
    ensures exists i :: 0 <= i < k && AcknowledgedAt(states, labels, s, states[k].sessions[s].epoch, i)
  {
    if k > 0 {
      assert Carries(states[k - 1], labels[k - 1], states[k], s);
      if !states[k - 1].sessions[s].acknowledged {
        assert AcknowledgedAt(states, labels, s, states[k].sessions[s].epoch, k - 1);
      } else {
        AcknowledgedBefore(states, labels, s, k - 1);
      }
    }
  }

  /** A session goes from recovering to active at epoch `e` only if some step, this one or
      an earlier one, has set its acknowledgement at `e` for a worker reserved at `e`. */
  lemma ActivationIsAcknowledged(states: seq<DB>, labels: seq<Label>, s: SessionID, k: nat)
    requires IsRun(states, labels) && k < |labels|
    requires s in states[k].sessions && states[k].sessions[s].state.SessionRecovering?
    requires s in states[k + 1].sessions && states[k + 1].sessions[s].state.SessionActive?
    ensures states[k + 1].sessions[s].epoch == states[k].sessions[s].epoch
    ensures exists i :: 0 <= i <= k && AcknowledgedAt(states, labels, s, states[k].sessions[s].epoch, i)
  {
    RunTurns(states, labels, k);
    assert Turn(states[k], labels[k], s, states[k + 1].sessions[s]);
    forall i | 0 <= i < k + 1 ensures Carries(states[i], labels[i], states[i + 1], s) {
      CarriesInRun(states, labels, i, s);
    }
    AcknowledgedBefore(states, labels, s, k + 1);
  }

  // What an ended session lets go of

  // The session no longer holds its worker or its sandbox, and the sandbox takes no new work.
  predicate LetsGo(v: Session, boxes: Boxes, db': DB, s: SessionID) {
    && (v.worker.Some? && v.worker.value in db'.workers ==> db'.workers[v.worker.value].reserved != Some(s))
    && (v.box.Some? && v.box.value in db'.boxes ==> db'.boxes[v.box.value].reserved != Some(s))
    && (v.box.Some? && v.box.value in boxes && boxes[v.box.value].reserved == Some(s) ==>
          && v.box.value in db'.boxes && db'.boxes[v.box.value].caps == boxes[v.box.value].caps
          && db'.boxes[v.box.value].state != "ready" && db'.boxes[v.box.value].state != "running")
  }

  lemma FinishLetsGo(db: DB, mid: DB, s: SessionID, to: SessionState, code: string, at: Time)
    requires mid.sessions == db.sessions && mid.boxes == db.boxes && s in db.sessions && !db.sessions[s].state.Terminal()
    ensures LetsGo(db.sessions[s], db.boxes, FinishSession(mid, s, to, code, at), s)
  {
  }

  lemma EndingLetsGo(db: DB, l: Label, s: SessionID)
    requires l.CloseJobSession? || l.Health?
    requires s in db.sessions && db.sessions[s].state.SessionActive?
    requires s in Apply(db, l).sessions && Apply(db, l).sessions[s].state.Terminal()
    ensures LetsGo(db.sessions[s], db.boxes, Apply(db, l), s)
  {
    if l.CloseJobSession? {
      FinishLetsGo(db, db, s, SessionClosed, "session_closed", l.at);
    } else {
      DeathLetsGo(db, l.w, l.status, l.at, s);
    }
  }

  lemma DeathLetsGo(db: DB, w: WorkerID, status: string, at: Time, s: SessionID)
    requires s in db.sessions && db.sessions[s].state.SessionActive?
    requires var db' := SetHealth(db, w, status, at).db; s in db'.sessions && db'.sessions[s].state.Terminal()
    ensures LetsGo(db.sessions[s], db.boxes, SetHealth(db, w, status, at).db, s)
  {
    FinishLetsGo(db, Marked(db, w, status), s, SessionLost, "session_lost", at);
  }

  /** The step that ends an active session, whether it is closed or lost, frees the
      worker and the sandbox that served it. */
  lemma ClosureReleases(states: seq<DB>, labels: seq<Label>, i: nat, s: SessionID)
    requires IsRun(states, labels) && i < |labels|
    requires s in states[i].sessions && states[i].sessions[s].state.SessionActive?
    requires s in states[i + 1].sessions && states[i + 1].sessions[s].state.Terminal()
    ensures LetsGo(states[i].sessions[s], states[i].boxes, states[i + 1], s)
  {
    RunTurns(states, labels, i);
    assert Turn(states[i], labels[i], s, states[i + 1].sessions[s]);
    assert Follows(states, labels, i);
    EndingLetsGo(states[i], labels[i], s);
  }

  // What becomes of a session that meets its replacement

  /** A rebuild job of this epoch has ended without success. */
  ghost predicate RebuildFailed(jobs: Jobs, s: SessionID, epoch: nat) {
    exists j :: j in jobs && j.Rebuild? && j.session == s && j.epoch == epoch && jobs[j].state.Doomed()
  }

  ghost predicate AllRebuilt(jobs: Jobs, s: SessionID, epoch: nat) {
    forall j :: j in jobs && j.Rebuild? && j.session == s && j.epoch == epoch ==> jobs[j].state.JobSucceeded?
  }

  // Every rebuild job belongs to its session.
  ghost predicate OwnRebuilds(jobs: Jobs) {
    forall j :: j in jobs && j.Rebuild? ==> jobs[j].spec.session == Some(j.session)
  }

  lemma ValidateOutcome(db: DB, s: SessionID, w: WorkerID, at: Time)
    requires Matches(db, s, w) && db.sessions[s].state.SessionRecovering? && OwnRebuilds(db.jobs)
    ensures var db', epoch := Validate(db, s, w, at).db, db.sessions[s].epoch;
      && s in db'.sessions
      && (RebuildFailed(db.jobs, s, epoch) ==> db'.sessions[s].state.SessionLost?)
      && (!RebuildFailed(db.jobs, s, epoch) && !AllRebuilt(db.jobs, s, epoch) ==> db' == db)
      && (!RebuildFailed(db.jobs, s, epoch) && AllRebuilt(db.jobs, s, epoch) ==> Serving(db', s, w))
  {
    var epoch := db.sessions[s].epoch;
    assert RebuildFailed(db.jobs, s, epoch) <==> RebuildDoomed(db.jobs, s, epoch) by { SameFailures(db.jobs, s, epoch); }
    assert AllRebuilt(db.jobs, s, epoch) <==> RebuildDone(db.jobs, s, epoch) by { SameFailures(db.jobs, s, epoch); }
  }

  lemma SameFailures(jobs: Jobs, s: SessionID, epoch: nat)
    requires OwnRebuilds(jobs)
    ensures RebuildFailed(jobs, s, epoch) <==> RebuildDoomed(jobs, s, epoch)
    ensures AllRebuilt(jobs, s, epoch) <==> RebuildDone(jobs, s, epoch)
  {
    if j :| j in jobs && j.Rebuild? && j.session == s && j.epoch == epoch && jobs[j].state.Doomed() {
      assert InRebuild(jobs, s, epoch, j);
    }
    if AllRebuilt(jobs, s, epoch) {
      forall j | InRebuild(jobs, s, epoch, j) ensures jobs[j].state.JobSucceeded? {
      }
    }
    if RebuildDone(jobs, s, epoch) {
      forall j | j in jobs && j.Rebuild? && j.session == s && j.epoch == epoch ensures jobs[j].state.JobSucceeded? {
        assert InRebuild(jobs, s, epoch, j);
      }
    }
  }

  predicate Serving(db: DB, s: SessionID, w: WorkerID) {
    && s in db.sessions && w in db.workers
    && db.sessions[s].state.SessionActive? && db.sessions[s].worker == Some(w)
    && db.sessions[s].box == Some(db.workers[w].spec.box) && db.workers[w].reserved == Some(s)
  }

  lemma EnqueuedFailures(db: DB, mid: DB, s: SessionID, epoch: nat)
    requires Extends(db, mid)
    ensures RebuildFailed(mid.jobs, s, epoch) <==> RebuildFailed(db.jobs, s, epoch)
  {
    if j :| j in db.jobs && j.Rebuild? && j.session == s && j.epoch == epoch && db.jobs[j].state.Doomed() {
      assert j in mid.jobs && mid.jobs[j].state.Doomed();
    }
  }

  /** How a pass over a session that recovers by rebuilding ends, once all steps are enqueued:
      lost if a step has failed, active on the worker if all have succeeded, and otherwise as
      it was. */
  ghost predicate Rebuilt(db: DB, db': DB, s: SessionID, w: WorkerID)
    requires s in db.sessions
  {
    && s in db'.sessions
    && var epoch := db.sessions[s].epoch;
    if RebuildFailed(db.jobs, s, epoch) then db'.sessions[s].state.SessionLost?
    else if AllRebuilt(db'.jobs, s, epoch) then Serving(db', s, w)
    else db'.sessions == db.sessions && db'.workers == db.workers
  }

  lemma ValidateKeepsJobs(db: DB, s: SessionID, w: WorkerID, at: Time)
    requires Matches(db, s, w) && !RebuildDoomed(db.jobs, s, db.sessions[s].epoch)
    ensures Validate(db, s, w, at).db.jobs == db.jobs
  {
  }

  lemma RebuildPass(db: DB, mid: DB, s: SessionID, w: WorkerID, at: Time)
    requires Extends(db, mid) && Matches(mid, s, w) && mid.sessions[s].state.SessionRecovering? && OwnRebuilds(mid.jobs)
    ensures Rebuilt(db, Validate(mid, s, w, at).db, s, w)
  {
    var epoch := mid.sessions[s].epoch;
    EnqueuedFailures(db, mid, s, epoch);
    ValidateOutcome(mid, s, w, at);
    SameFailures(mid.jobs, s, epoch);
    if !RebuildFailed(mid.jobs, s, epoch) {
      ValidateKeepsJobs(mid, s, w, at);
    }
  }

  lemma AdoptStep(db: DB, s: SessionID, w: WorkerID, at: Time)
    requires Matches(db, s, w) && db.sessions[s].state.SessionRecovering?
    requires db.sessions[s].spec.policy.RecoveryRebuild? ==> OwnRebuilds(Enqueued(db, s, at).db.jobs)
    ensures var db', v := Adopt(db, s, w, at).db, db.sessions[s];
      && (v.spec.policy.RecoveryRebuild? && Enqueued(db, s, at).err == Ok ==> Rebuilt(db, db', s, w))
      && (v.spec.policy.RecoveryRebuild? && Enqueued(db, s, at).err != Ok ==> db'.sessions == db.sessions)
      && (!v.spec.policy.RecoveryRebuild? && v.acknowledged ==> Serving(db', s, w))
      && (!v.spec.policy.RecoveryRebuild? && !v.acknowledged ==> db' == db)
  {
    EnqueueExtends(db, s, db.sessions[s].epoch, db.sessions[s].spec.plan, 0, at);
    if db.sessions[s].spec.policy.RecoveryRebuild? && Enqueued(db, s, at).err == Ok {
      RebuildPass(db, Enqueued(db, s, at).db, s, w, at);
    }
  }

  lemma EnqueuedOwnRebuilds(db: DB, s: SessionID, w: WorkerID, at: Time)
    requires Inv(db) && Matches(db, s, w) && db.sessions[s].state.SessionRecovering?
    requires db.sessions[s].spec.policy.RecoveryRebuild?
    ensures OwnRebuilds(Enqueued(db, s, at).db.jobs)
  {
    EnqueuedKeepsInv(db, s, w, at);
  }

  /** In every run, when the controller meets a worker that is reserved for a recovering
      session at its epoch: by checkpoint, the session becomes active on it iff the restore
      was acknowledged; by rebuild, it is lost if a step of this epoch has failed, active if
      all its jobs have succeeded, and waits otherwise. */
  lemma AdoptionOutcome(states: seq<DB>, labels: seq<Label>, i: nat)
    requires IsRun(states, labels) && i < |labels| && labels[i].AdoptReplacement?
    requires Matches(states[i], labels[i].s, labels[i].w) && states[i].sessions[labels[i].s].state.SessionRecovering?
    ensures var db, db', s, w := states[i], states[i + 1], labels[i].s, labels[i].w; var v := db.sessions[s];
      && (v.spec.policy.RecoveryRebuild? && Enqueued(db, s, labels[i].at).err == Ok ==> Rebuilt(db, db', s, w))
      && (v.spec.policy.RecoveryRebuild? && Enqueued(db, s, labels[i].at).err != Ok ==> db'.sessions == db.sessions)
      && (!v.spec.policy.RecoveryRebuild? && v.acknowledged ==> Serving(db', s, w))
      && (!v.spec.policy.RecoveryRebuild? && !v.acknowledged ==> db' == db)
  {
    assert Follows(states, labels, i);
    Reachable(states, labels, i);
    var db, s, w, at := states[i], labels[i].s, labels[i].w, labels[i].at;
    if db.sessions[s].spec.policy.RecoveryRebuild? {
      EnqueuedOwnRebuilds(db, s, w, at);
    }
    AdoptStep(db, s, w, at);
  }

  // What becomes of a recovery that is given up or provided for

  /** The step gives the recovery of `s` up: no worker came of a replacement, the reserved
      worker reports that its restore failed, or the provider refused. */
  ghost predicate Drops(db: DB, l: Label, s: SessionID) {
    && s in db.sessions && db.sessions[s].state.SessionRecovering?
    && (|| (&& l.GiveUpReplacement? && l.s == s && !(exists w :: Matches(db, s, w))
            && (db.sessions[s].recovery.RecoveryProvisioning? || db.sessions[s].recovery.RecoveryRestoring?))
        || (&& l.FromWorker? && l.act.AcknowledgeRestore? && l.act.s == s && l.act.failed
            && l.act.epoch == db.sessions[s].epoch && Authenticated(db, l.w) && Matches(db, s, l.w))
        || (Provisions(db, l, s) && l.outcome.CreateFailed?))
  }

  // The session waits for its next claim, and nobody is reserved for it.
  ghost predicate Dropped(db: DB, db': DB, s: SessionID, retryAt: Time)
    requires s in db.sessions
  {
    && s in db'.sessions && db'.sessions[s].state.SessionRecovering? && db'.sessions[s].epoch == db.sessions[s].epoch
    && db'.sessions[s].recovery.RecoveryFailed? && db'.sessions[s].recoveryAfter == Some(retryAt)
    && forall w :: !Matches(db', s, w)
  }

  lemma FailDrops(db: DB, mid: DB, s: SessionID, retryAt: Time)
    requires s in db.sessions && s in mid.sessions && mid.sessions[s].epoch == db.sessions[s].epoch
    requires mid.sessions[s].state.SessionRecovering?
    ensures Dropped(db, FailRecovery(mid, s, mid.sessions[s].epoch, retryAt).db, s, retryAt)
  {
  }

  /** In every run, a recovery that is given up waits for its next claim until the retry
      time, with no worker reserved for it. */
  lemma DropOutcome(states: seq<DB>, labels: seq<Label>, i: nat, s: SessionID)
    requires IsRun(states, labels) && i < |labels| && Drops(states[i], labels[i], s)
    ensures Dropped(states[i], states[i + 1], s, if labels[i].FromWorker? then labels[i].act.retryAt else labels[i].retryAt)
  {
    assert Follows(states, labels, i);
    DropStep(states[i], labels[i], s);
  }

  lemma DropStep(db: DB, l: Label, s: SessionID)
    requires Drops(db, l, s)
    ensures Dropped(db, Apply(db, l), s, if l.FromWorker? then l.act.retryAt else l.retryAt)
  {
    if l.ProvisionReplacement? {
      FailDrops(db, ClaimRecovery(db, s, l.at).db, s, l.retryAt);
    } else if l.GiveUpReplacement? {
      FailDrops(db, db, s, l.retryAt);
    } else {
      FailDrops(db, db, s, l.act.retryAt);
    }
  }

  /** In every run, a sandbox that the provider creates for a recovery is reserved for the
      session, unless the store already knew it. */
  lemma ProvisionOutcome(states: seq<DB>, labels: seq<Label>, i: nat, s: SessionID)
    requires IsRun(states, labels) && i < |labels| && Provisions(states[i], labels[i], s) && labels[i].outcome.Created?
    ensures var db, db', id := states[i], states[i + 1], labels[i].outcome.id;
      && s in db'.sessions && db'.sessions[s].recovery.RecoveryProvisioning?
      && id in db'.boxes && db'.boxes == db.boxes[id := db'.boxes[id]]
      && db'.boxes[id].reserved == if id in db.boxes then db.boxes[id].reserved else Some(s)
  {
    assert Follows(states, labels, i);
  }
}
