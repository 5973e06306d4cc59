/** What every run guarantees about sessions that are rebuilt from their plan. */
module RebuildRuns {
  import opened Domain
  import opened Tables
  import opened Transactions
  import opened Invariants
  import opened SessionSteps
  import opened JobSteps
  import R = Recovery
  import opened Protocol
  import opened Safety
  import opened SessionTurns
  import opened Leasing
  import opened SessionRuns
  import opened RecoveryRuns
  import S = Scheduler

  // Some job carries the key of step `i`.
  predicate Keyed(jobs: Jobs, s: SessionID, epoch: nat, plan: seq<string>, i: nat)
    requires i < |plan|
  {
    JobWith(jobs, RebuildKey(s, epoch, plan[i])) != {}
  }

  lemma KeyedStays(db: DB, db': DB, s: SessionID, epoch: nat, plan: seq<string>, i: nat)
    requires R.Extends(db, db') && i < |plan| && Keyed(db.jobs, s, epoch, plan, i)
    ensures Keyed(db'.jobs, s, epoch, plan, i)
  {
    var j :| j in JobWith(db.jobs, RebuildKey(s, epoch, plan[i]));
    assert j in JobWith(db'.jobs, RebuildKey(s, epoch, plan[i]));
  }

  lemma DoomedStays(db: DB, db': DB, s: SessionID, epoch: nat)
    requires R.Extends(db, db') && R.RebuildDoomed(db.jobs, s, epoch)
    ensures R.RebuildDoomed(db'.jobs, s, epoch)
  {
    var j :| R.InRebuild(db.jobs, s, epoch, j) && db.jobs[j].state.Doomed();
    assert R.InRebuild(db'.jobs, s, epoch, j);
  }

  predicate Unfinished(db: DB, s: SessionID) {
    s in db.sessions && !db.sessions[s].state.Terminal()
  }

  /** One step of the enqueueing leaves its key in the table, unless it fails or an
      earlier step has already failed. */
  lemma StepKeyed(db: DB, s: SessionID, epoch: nat, plan: seq<string>, i: nat, at: Time)
    requires Planned(db.jobs, db.sessions) && Unfinished(db, s) && i < |plan|
    requires R.EnqueueStep(db, s, epoch, plan, i, at).err != NotFound
    ensures Keyed(R.EnqueueStep(db, s, epoch, plan, i, at).db.jobs, s, epoch, plan, i)
            || R.RebuildDoomed(db.jobs, s, epoch)
  {
    var r := R.RebuildRequest(s, epoch, plan, i, at);
    var t := CreateJob(db, r);
    if JobWith(db.jobs, r.key.value) == {} {
      if t.err == Ok {
        assert r.id in JobWith(t.db.jobs, r.key.value);
      } else {
        ConflictMeansDoomed(db, s, epoch, plan, i, at);
      }
    }
  }

  lemma ConflictMeansDoomed(db: DB, s: SessionID, epoch: nat, plan: seq<string>, i: nat, at: Time)
    requires Planned(db.jobs, db.sessions) && Unfinished(db, s) && i < |plan|
    requires R.EnqueueStep(db, s, epoch, plan, i, at).err == Conflict
    ensures R.RebuildDoomed(db.jobs, s, epoch)
  {
    var r := R.RebuildRequest(s, epoch, plan, i, at);
    if i > 0 {
      var d := Rebuild(s, epoch, i - 1);
      assert r.deps == [d] && r.deps[1..] == [];
      assert d in db.jobs ==> CheckDeps(db.jobs, r.id, r.session, r.deps, {}) == Ok;
      assert R.InRebuild(db.jobs, s, epoch, d);
    }
  }

  // The key of step `k` is in the table, or some step has failed.
  ghost predicate KeyedOrDoomed(jobs: Jobs, s: SessionID, epoch: nat, plan: seq<string>, k: nat)
    requires k < |plan|
  {
    Keyed(jobs, s, epoch, plan, k) || R.RebuildDoomed(jobs, s, epoch)
  }

  // The tables when the enqueueing comes to step `k`.
  function Upto(db: DB, s: SessionID, epoch: nat, plan: seq<string>, i: nat, k: nat, at: Time): DB
    requires i <= k <= |plan|
    decreases k - i
  {
    if i == k then db else Upto(R.EnqueueStep(db, s, epoch, plan, i, at).db, s, epoch, plan, i + 1, k, at)
  }

  lemma {:induction false} UptoGoesOn(db: DB, s: SessionID, epoch: nat, plan: seq<string>, i: nat, k: nat, at: Time)
    requires i <= k <= |plan| && R.Enqueue(db, s, epoch, plan, i, at).err == Ok
    ensures R.Enqueue(Upto(db, s, epoch, plan, i, k, at), s, epoch, plan, k, at) == R.Enqueue(db, s, epoch, plan, i, at)
    decreases k - i
  {
    if i < k {
      UptoGoesOn(R.EnqueueStep(db, s, epoch, plan, i, at).db, s, epoch, plan, i + 1, k, at);
    }
  }

  // What each step of the enqueueing relies on.
  ghost predicate Ready(db: DB, s: SessionID, epoch: nat, plan: seq<string>) {
    Inv(db) && R.Rebuilding(db, s, epoch, plan) && Unfinished(db, s)
  }

  lemma {:induction false} UptoKeeps(keep: DB -> bool, db: DB, s: SessionID, epoch: nat, plan: seq<string>, i: nat, k: nat, at: Time)
    requires i <= k <= |plan| && keep(db)
    requires forall d, n :: keep(d) && 0 <= n < |plan| ==> keep(R.EnqueueStep(d, s, epoch, plan, n, at).db)
    ensures keep(Upto(db, s, epoch, plan, i, k, at))
    decreases k - i
  {
    if i < k {
      UptoKeeps(keep, R.EnqueueStep(db, s, epoch, plan, i, at).db, s, epoch, plan, i + 1, k, at);
    }
  }

  lemma UptoReady(db: DB, s: SessionID, epoch: nat, plan: seq<string>, k: nat, at: Time)
    requires k <= |plan| && Ready(db, s, epoch, plan)
    ensures Ready(Upto(db, s, epoch, plan, 0, k, at), s, epoch, plan)
  {
    var keep := (d: DB) => Ready(d, s, epoch, plan);
    forall d, n | keep(d) && 0 <= n < |plan| ensures keep(R.EnqueueStep(d, s, epoch, plan, n, at).db) {
      StepReady(d, s, epoch, plan, n, at);
    }
    UptoKeeps(keep, db, s, epoch, plan, 0, k, at);
  }

  lemma EnqueueKeyed(db: DB, s: SessionID, epoch: nat, plan: seq<string>, at: Time, k: nat)
    requires Ready(db, s, epoch, plan) && k < |plan| && R.Enqueue(db, s, epoch, plan, 0, at).err == Ok
    ensures KeyedOrDoomed(R.Enqueue(db, s, epoch, plan, 0, at).db.jobs, s, epoch, plan, k)
  {
    var there := Upto(db, s, epoch, plan, 0, k, at);
    UptoReady(db, s, epoch, plan, k, at);
    UptoGoesOn(db, s, epoch, plan, 0, k, at);
    EnqueuedStepKeyed(there, s, epoch, plan, k, at);
  }

  // Each step leaves the next one the ground it needs.
  lemma StepReady(db: DB, s: SessionID, epoch: nat, plan: seq<string>, i: nat, at: Time)
    requires Inv(db) && R.Rebuilding(db, s, epoch, plan) && Unfinished(db, s) && i < |plan|
    ensures var t := R.EnqueueStep(db, s, epoch, plan, i, at).db;
      Inv(t) && R.Rebuilding(t, s, epoch, plan) && Unfinished(t, s)
  {
    R.StepIsLegitimate(db, s, epoch, plan, i, at);
    R.StepKeepsInv(db, s, epoch, plan, i, at);
  }

  lemma EnqueuedStepKeyed(db: DB, s: SessionID, epoch: nat, plan: seq<string>, i: nat, at: Time)
    requires Planned(db.jobs, db.sessions) && Unfinished(db, s) && i < |plan|
    requires R.Enqueue(db, s, epoch, plan, i, at).err == Ok
    ensures var jobs := R.Enqueue(db, s, epoch, plan, i, at).db.jobs;
      Keyed(jobs, s, epoch, plan, i) || R.RebuildDoomed(jobs, s, epoch)
  {
    var t := R.EnqueueStep(db, s, epoch, plan, i, at).db;
    var end := R.Enqueue(db, s, epoch, plan, i, at).db;
    R.EnqueueExtends(db, s, epoch, plan, i, at);
    R.EnqueueExtends(t, s, epoch, plan, i + 1, at);
    StepKeyed(db, s, epoch, plan, i, at);
    if R.RebuildDoomed(db.jobs, s, epoch) {
      DoomedStays(db, end, s, epoch);
    } else {
      KeyedStays(t, end, s, epoch, plan, i);
    }
  }

  /** The work of plan step `i` was done in this epoch. */
  ghost predicate StepDone(jobs: Jobs, s: SessionID, epoch: nat, plan: seq<string>, i: nat)
    requires i < |plan|
  {
    exists j :: R.InRebuild(jobs, s, epoch, j) && jobs[j].state.JobSucceeded? && j.step < |plan| && plan[j.step] == plan[i]
  }

  // A client's job holds the key of plan step `i`.
  ghost predicate Squatted(jobs: Jobs, s: SessionID, epoch: nat, plan: seq<string>, i: nat)
    requires i < |plan|
  {
    exists j :: j in jobs && j.Client? && jobs[j].spec.key == Some(RebuildKey(s, epoch, plan[i]))
  }

  // Exactly the steps whose keys clients left alone are done.
  ghost predicate DoneUnlessSquatted(jobs: Jobs, held: Jobs, s: SessionID, epoch: nat, plan: seq<string>) {
    forall i :: 0 <= i < |plan| ==> (StepDone(jobs, s, epoch, plan, i) <==> !Squatted(held, s, epoch, plan, i))
  }

  ghost predicate Untouched(held: Jobs, s: SessionID, epoch: nat, plan: seq<string>) {
    forall i :: 0 <= i < |plan| ==> !Squatted(held, s, epoch, plan, i)
  }

  // The client rows of `jobs` are those of `held`.
  ghost predicate SameClients(jobs: Jobs, held: Jobs) {
    && (forall j :: j in jobs && j.Client? ==> j in held && held[j] == jobs[j])
    && (forall j :: j in held && j.Client? ==> j in jobs && held[j] == jobs[j])
  }

  lemma EnqueueKeepsClients(db: DB, s: SessionID, epoch: nat, plan: seq<string>, at: Time)
    ensures SameClients(R.Enqueue(db, s, epoch, plan, 0, at).db.jobs, db.jobs)
  {
    R.EnqueueInduction((d: DB) => SameClients(d.jobs, db.jobs), db, s, epoch, plan, 0, at);
  }

  lemma KeyedAndDone(jobs: Jobs, held: Jobs, sessions: Sessions, s: SessionID, epoch: nat, i: nat)
    requires Planned(jobs, sessions) && SameClients(jobs, held) && s in sessions && i < |sessions[s].spec.plan|
    requires Keyed(jobs, s, epoch, sessions[s].spec.plan, i) && R.RebuildDone(jobs, s, epoch)
    ensures StepDone(jobs, s, epoch, sessions[s].spec.plan, i) <==> !Squatted(held, s, epoch, sessions[s].spec.plan, i)
  {
    var key := RebuildKey(s, epoch, sessions[s].spec.plan[i]);
    var j :| j in JobWith(jobs, key);
    if j.Client? {
      assert Squatted(held, s, epoch, sessions[s].spec.plan, i);
      forall k | R.InRebuild(jobs, s, epoch, k) ensures jobs[k].spec.key != Some(key) {
        assert k != j;
      }
    } else {
      assert R.InRebuild(jobs, s, epoch, j);
      forall k | k in held && k.Client? ensures held[k].spec.key != Some(key) {
        assert k in jobs && k != j;
      }
    }
  }

  // Each of the first `n` steps has its own job, and it has succeeded.
  predicate EachSucceeded(jobs: Jobs, s: SessionID, epoch: nat, n: nat) {
    forall i :: 0 <= i < n ==> Rebuild(s, epoch, i) in jobs && jobs[Rebuild(s, epoch, i)].state.JobSucceeded?
  }

  lemma DistinctMeansEach(jobs: Jobs, held: Jobs, s: SessionID, epoch: nat, plan: seq<string>)
    requires DoneUnlessSquatted(jobs, held, s, epoch, plan) && Untouched(held, s, epoch, plan) && NoRepeats(plan)
    ensures EachSucceeded(jobs, s, epoch, |plan|)
  {
    forall i | 0 <= i < |plan| ensures Rebuild(s, epoch, i) in jobs && jobs[Rebuild(s, epoch, i)].state.JobSucceeded? {
      assert !Squatted(held, s, epoch, plan, i);
      assert StepDone(jobs, s, epoch, plan, i);
      var j :| R.InRebuild(jobs, s, epoch, j) && jobs[j].state.JobSucceeded? && j.step < |plan| && plan[j.step] == plan[i];
      assert j == Rebuild(s, epoch, i);
    }
  }

  lemma EachMeansDistinct(jobs: Jobs, held: Jobs, sessions: Sessions, s: SessionID, epoch: nat)
    requires Planned(jobs, sessions) && s in sessions
    requires DoneUnlessSquatted(jobs, held, s, epoch, sessions[s].spec.plan)
    requires EachSucceeded(jobs, s, epoch, |sessions[s].spec.plan|)
    ensures NoRepeats(sessions[s].spec.plan) && Untouched(held, s, epoch, sessions[s].spec.plan)
  {
    var plan := sessions[s].spec.plan;
    forall i, k | 0 <= i < k < |plan| ensures plan[i] != plan[k] {
      assert Rebuild(s, epoch, i) in jobs && Rebuild(s, epoch, k) in jobs;
    }
    forall i | 0 <= i < |plan| ensures !Squatted(held, s, epoch, plan, i) {
      assert R.InRebuild(jobs, s, epoch, Rebuild(s, epoch, i));
      assert StepDone(jobs, s, epoch, plan, i);
    }
  }

  // What an activation of a rebuilt session went through.
  ghost predicate Rebuilt(db: DB, s: SessionID, w: WorkerID, at: Time, db': DB) {
    && s in db.sessions && Matches(db, s, w) && db.sessions[s].state.SessionRecovering?
    && R.Enqueued(db, s, at).err == Ok
    && db'.jobs == R.Enqueued(db, s, at).db.jobs
    && !R.RebuildDoomed(db'.jobs, s, db.sessions[s].epoch)
    && R.RebuildDone(db'.jobs, s, db.sessions[s].epoch)
  }

  lemma AdoptRebuilds(db: DB, s: SessionID, w: WorkerID, at: Time)
    requires s in db.sessions && db.sessions[s].state.SessionRecovering? && db.sessions[s].spec.policy.RecoveryRebuild?
    requires var db' := R.Adopt(db, s, w, at).db; s in db'.sessions && db'.sessions[s].state.SessionActive?
    ensures Rebuilt(db, s, w, at, R.Adopt(db, s, w, at).db)
  {
    R.EnqueueExtends(db, s, db.sessions[s].epoch, db.sessions[s].spec.plan, 0, at);
    if Matches(db, s, w) && R.Enqueued(db, s, at).err == Ok {
      ValidateActivates(R.Enqueued(db, s, at).db, s, w, at);
    }
  }

  lemma ValidateActivates(db: DB, s: SessionID, w: WorkerID, at: Time)
    requires Matches(db, s, w) && db.sessions[s].state.SessionRecovering?
    ensures var db' := R.Validate(db, s, w, at).db; s in db'.sessions
    ensures var db' := R.Validate(db, s, w, at).db; db'.sessions[s].state.SessionActive? ==>
      && db'.jobs == db.jobs
      && !R.RebuildDoomed(db.jobs, s, db.sessions[s].epoch) && R.RebuildDone(db.jobs, s, db.sessions[s].epoch)
  {
  }

  lemma RebuiltStepsDone(db: DB, s: SessionID, w: WorkerID, at: Time, db': DB)
    requires Inv(db) && Planned(db'.jobs, db'.sessions) && Rebuilt(db, s, w, at, db') && db.sessions[s].spec.policy.RecoveryRebuild?
    requires s in db'.sessions && db'.sessions[s].spec == db.sessions[s].spec
    ensures DoneUnlessSquatted(db'.jobs, db.jobs, s, db.sessions[s].epoch, db.sessions[s].spec.plan)
  {
    var epoch, plan := db.sessions[s].epoch, db.sessions[s].spec.plan;
    EnqueueKeepsClients(db, s, epoch, plan, at);
    forall i | 0 <= i < |plan| ensures StepDone(db'.jobs, s, epoch, plan, i) <==> !Squatted(db.jobs, s, epoch, plan, i) {
      RebuiltStepKeyed(db, s, w, at, db', i);
      KeyedAndDone(db'.jobs, db.jobs, db'.sessions, s, epoch, i);
    }
  }

  lemma RebuiltStepKeyed(db: DB, s: SessionID, w: WorkerID, at: Time, db': DB, i: nat)
    requires Inv(db) && Rebuilt(db, s, w, at, db') && db.sessions[s].spec.policy.RecoveryRebuild?
    requires i < |db.sessions[s].spec.plan|
    ensures Keyed(db'.jobs, s, db.sessions[s].epoch, db.sessions[s].spec.plan, i)
  {
    EnqueueKeyed(db, s, db.sessions[s].epoch, db.sessions[s].spec.plan, at, i);
  }

  lemma ActivationRebuilt(states: seq<DB>, labels: seq<Label>, s: SessionID, k: nat)
    requires IsRun(states, labels) && k < |labels|
    requires s in states[k].sessions && states[k].sessions[s].state.SessionRecovering?
    requires states[k].sessions[s].spec.policy.RecoveryRebuild?
    requires s in states[k + 1].sessions && states[k + 1].sessions[s].state.SessionActive?
    ensures labels[k].AdoptReplacement? && Rebuilt(states[k], s, labels[k].w, labels[k].at, states[k + 1])
    ensures states[k + 1].sessions[s].spec == states[k].sessions[s].spec
  {
    RunTurns(states, labels, k);
    assert Turn(states[k], labels[k], s, states[k + 1].sessions[s]);
    RunGuards(states, labels, k);
    assert Follows(states, labels, k);
    AdoptRebuilds(states[k], s, labels[k].w, labels[k].at);
  }

  /** When a session with a rebuild plan goes from recovering to active at epoch `e`, the
      work of a step has succeeded at `e` if and only if no client's job held the step's
      key. So every job rebuild-s-e-i of the plan exists and has succeeded if and only if
      the step keys are distinct and none is held by a client's job. */
  lemma RebuildSafety(states: seq<DB>, labels: seq<Label>, s: SessionID, k: nat)
    requires IsRun(states, labels) && k < |labels|
    requires s in states[k].sessions && states[k].sessions[s].state.SessionRecovering?
    requires states[k].sessions[s].spec.policy.RecoveryRebuild?
    requires s in states[k + 1].sessions && states[k + 1].sessions[s].state.SessionActive?
    ensures var e, plan := states[k].sessions[s].epoch, states[k].sessions[s].spec.plan;
      && DoneUnlessSquatted(states[k + 1].jobs, states[k].jobs, s, e, plan)
      && (EachSucceeded(states[k + 1].jobs, s, e, |plan|) <==> NoRepeats(plan) && Untouched(states[k].jobs, s, e, plan))
  {
    ActivationRebuilt(states, labels, s, k);
    Reachable(states, labels, k);
    RunPlanned(states, labels, k + 1);
    var e, plan := states[k].sessions[s].epoch, states[k].sessions[s].spec.plan;
    RebuiltStepsDone(states[k], s, labels[k].w, labels[k].at, states[k + 1]);
    if NoRepeats(plan) && Untouched(states[k].jobs, s, e, plan) {
      DistinctMeansEach(states[k + 1].jobs, states[k].jobs, s, e, plan);
    }
    if EachSucceeded(states[k + 1].jobs, s, e, |plan|) {
      EachMeansDistinct(states[k + 1].jobs, states[k].jobs, states[k + 1].sessions, s, e);
    }
  }

  // Leases of rebuild steps

  lemma RebuildGate(db: DB, w: WorkerID, j: JobID)
    requires Planned(db.jobs, db.sessions) && Reserved(db.workers, db.sessions)
    requires w in db.workers && j in db.jobs && j.Rebuild? && GateOf(db, w, j) != Skip
    ensures Matches(db, j.session, w)
    ensures db.sessions[j.session].state.SessionRecovering? ==> j.epoch == db.sessions[j.session].epoch
    ensures db.sessions[j.session].state.SessionRecovering? || db.sessions[j.session].state.SessionActive?
  {
    if db.sessions[j.session].state.SessionActive? {
      assert Serves(db.workers, db.sessions, j.session);
    }
  }

  lemma StepAfterStep(db: DB, j: JobID)
    requires Planned(db.jobs, db.sessions) && Ordered(db.jobs)
    requires j in db.jobs && j.Rebuild? && j.step > 0 && db.jobs[j].state.JobQueued?
    ensures var d := Rebuild(j.session, j.epoch, j.step - 1); d in db.jobs && db.jobs[d].state.JobSucceeded?
  {
    assert Rebuild(j.session, j.epoch, j.step - 1) in db.jobs[j].spec.deps;
  }

  /** Step `i` is leased only when step `i - 1` has succeeded, and only to a worker
      reserved for the session at the session's current epoch (`Matches`). Hence the
      worker's epoch is the step's own if and only if the session's still is; and the
      session can have moved past the step's epoch only if it is active again. */
  lemma RebuildLeases(states: seq<DB>, labels: seq<Label>, k: nat, a: AttemptID)
    requires IsRun(states, labels) && k < |labels|
    requires a in states[k + 1].attempts && a !in states[k].attempts && a.job.Rebuild?
    ensures var db, j, w := states[k], a.job, states[k + 1].attempts[a].worker;
      && Matches(db, j.session, w)
      && (j.step > 0 ==> var d := Rebuild(j.session, j.epoch, j.step - 1); d in db.jobs && db.jobs[d].state.JobSucceeded?)
      && (db.workers[w].epoch == j.epoch <==> db.sessions[j.session].epoch == j.epoch)
      && (db.sessions[j.session].epoch != j.epoch ==>
            j.epoch < db.sessions[j.session].epoch && db.sessions[j.session].state.SessionActive?)
  {
    RunGrants(states, labels, k, a);
    RunPlanned(states, labels, k);
    LeaseOfStep(states[k], labels[k].w, a.job);
  }

  lemma RunPlanned(states: seq<DB>, labels: seq<Label>, i: nat)
    requires IsRun(states, labels) && i < |states|
    ensures Orderly(states[i])
  {
    Reachable(states, labels, i);
  }

  // What the leases of rebuild steps rely on.
  ghost predicate Orderly(db: DB) {
    Planned(db.jobs, db.sessions) && Reserved(db.workers, db.sessions) && Ordered(db.jobs)
  }

  lemma LeaseOfStep(db: DB, w: WorkerID, j: JobID)
    requires Orderly(db) && w in db.workers && j in db.jobs && j.Rebuild? && db.jobs[j].state.JobQueued?
    requires GateOf(db, w, j) != Skip
    ensures Matches(db, j.session, w)
    ensures j.step > 0 ==> var d := Rebuild(j.session, j.epoch, j.step - 1); d in db.jobs && db.jobs[d].state.JobSucceeded?
    ensures db.workers[w].epoch == j.epoch <==> db.sessions[j.session].epoch == j.epoch
    ensures db.sessions[j.session].epoch != j.epoch ==>
      j.epoch < db.sessions[j.session].epoch && db.sessions[j.session].state.SessionActive?
  {
    RebuildGate(db, w, j);
    if j.step > 0 {
      StepAfterStep(db, j);
    }
  }
}
