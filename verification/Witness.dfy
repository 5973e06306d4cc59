/** Building runs step by step, and the first steps of the runs that serve as witnesses. */
module Witness {
  import opened Domain
  import opened Tables
  import opened Transactions
  import opened SessionSteps
  import R = Recovery
  import opened Protocol
  import S = Scheduler

  // Some run leads to this state.
  ghost predicate Reached(db: DB) {
    exists states, labels :: IsRun(states, labels) && states[|labels|] == db
  }

  lemma Begin()
    ensures Reached(EMPTY)
  {
    var states: seq<DB>, labels: seq<Label> := [EMPTY], [];
    assert IsRun(states, labels) && states[|labels|] == EMPTY;
  }

  lemma Then(db: DB, l: Label, db': DB)
    requires Reached(db) && Enabled(db, l) && Apply(db, l) == db'
    ensures Reached(db')
  {
    var states, labels :| IsRun(states, labels) && states[|labels|] == db;
    Extended(states, labels, l);
    assert (states + [db'])[|labels + [l]|] == db';
  }

  lemma Extended(states: seq<DB>, labels: seq<Label>, l: Label)
    requires IsRun(states, labels) && Enabled(states[|labels|], l)
    ensures IsRun(states + [Apply(states[|labels|], l)], labels + [l])
  {
    var states', labels' := states + [Apply(states[|labels|], l)], labels + [l];
    forall i | 0 <= i < |labels| ensures Follows(states', labels', i) {
      assert Follows(states, labels, i);
    }
  }

  lemma ThenWorker(db: DB, w: WorkerID, act: WorkerAct, db': DB)
    requires Reached(db) && Enabled(db, FromWorker(w, act)) && Authenticated(db, w) && Act(db, w, act) == db'
    ensures Reached(db')
  {
    Then(db, FromWorker(w, act), db');
  }

  lemma ThenComplete(db: DB, w: WorkerID, a: AttemptID, c: Completion, now: Time, db': DB)
    requires Reached(db) && Authenticated(db, w) && Complete(db, w, a, c, now).db == db'
    ensures Reached(db')
  {
    ThenWorker(db, w, CompleteJob(a, c, now), db');
  }

  lemma ThenAdopt(db: DB, s: SessionID, w: WorkerID, at: Time, db': DB)
    requires Reached(db) && R.Adopt(db, s, w, at).db == db'
    ensures Reached(db')
  {
    Then(db, AdoptReplacement(s, w, at), db');
  }

  lemma ThenRecover(db: DB, s: SessionID, at: Time, db': DB)
    requires Reached(db) && RequestRecovery(db, s, at).db == db'
    ensures Reached(db')
  {
    Then(db, Recover(s, at), db');
  }

  lemma ThenProvision(db: DB, s: SessionID, box: BoxID, at: Time, db': DB)
    requires Reached(db) && R.Provision(db, s, 2, R.Created(box, SPARE), at, at + 1).db == db'
    ensures Reached(db')
  {
    Then(db, ProvisionReplacement(s, 2, R.Created(box, SPARE), at, at + 1), db');
  }

  lemma ThenRegister(db: DB, w: WorkerID, spec: WorkerSpec, db': DB)
    requires Reached(db) && Register(db, w, spec).db == db'
    ensures Reached(db')
  {
    Then(db, RegisterWorker(w, spec), db');
  }

  // Claims

  const NOTHING := Capabilities([], map[], "", "", [], [])
  const IDLE := Report("", map[])

  // What the provider creates.
  const SPARE := Box(None, NOTHING, "creating", Some(0))

  // The session takes any worker.
  predicate Undemanding(spec: SessionSpec) {
    spec.caps == NOTHING && spec.provider == ""
  }

  // The worker is the one that serves the session, which asks for nothing special.
  lemma ServerMayTake(db: DB, w: WorkerID, j: JobID, s: SessionID)
    requires w in db.workers && j in db.jobs && db.jobs[j].spec.session == Some(s) && s in db.sessions
    requires Undemanding(db.sessions[s].spec) && db.sessions[s].state.SessionActive?
    requires db.sessions[s].worker == Some(w) && db.sessions[s].box == Some(db.workers[w].spec.box)
    ensures GateOf(db, w, j) == Take
  {
  }

  lemma ReplacementMay(db: DB, w: WorkerID, j: JobID, s: SessionID)
    requires w in db.workers && j in db.jobs && db.jobs[j].spec.session == Some(s) && s in db.sessions
    requires Undemanding(db.sessions[s].spec) && db.sessions[s].state.SessionRecovering? && Matches(db, s, w)
    requires j.Rebuild? && j.session == s
    ensures GateOf(db, w, j) == if j.epoch == db.sessions[s].epoch then Take else Skip
  {
  }

  lemma TakesFirstOpen(db: DB, w: WorkerID, ranked: seq<JobID>, j: JobID, now: Time)
    requires (forall k :: k in ranked ==> k in db.jobs) && w in db.workers && db.workers[w].spec.box in db.boxes
    requires db.workers[w].freeSlots > 0 && FirstOpen(db, w, ranked) == Some(j) && GateOf(db, w, j) == Take
    ensures Claim(db, w, ranked, now, 1, 0).db == TakeLease(db, w, j, now, 1, 0)
    ensures var a := AttemptID(j, MaxNumber(db.attempts.Keys, j) + 1); var db' := TakeLease(db, w, j, now, 1, 0);
      a in db'.attempts && db'.attempts[a].worker == w
  {
  }

  lemma AnythingIsEligible(db: DB, w: WorkerID, now: Time, view: Candidate)
    requires w in db.workers && view.want == R.ANYTHING && 0 < db.workers[w].spec.maxSlots
    requires db.workers[w].freeSlots > 0 && |ActiveOf(db.attempts, w)| == 0 && db.workers[w].report == IDLE
    requires db.workers[w].spec.box in db.boxes
    requires db.boxes[db.workers[w].spec.box].worker == Some(w) && db.boxes[db.workers[w].spec.box].state == "ready"
    ensures S.CanRun(view.want, RequestOf(db, w, now))
  {
  }

  // A ranking of one job.
  lemma RankedAlone(db: DB, w: WorkerID, now: Time, j: JobID)
    requires w in db.workers && j in db.jobs
    requires forall k :: k in db.jobs && Queued(db.jobs[k], now) <==> k == j
    requires S.CanRun(db.jobs[j].spec.view.want, RequestOf(db, w, now))
    ensures Ranking(db, w, S.DEFAULT, [j], now)
  {
  }

  // A session that becomes active on worker 0 and then loses it

  /** The session's recovery policy and rebuild plan, and the key of the job that makes it
      active. */
  datatype Setup = Setup(policy: Policy, plan: seq<string>, key: Option<Key>)

  predicate Sensible(u: Setup) {
    !u.policy.RecoveryNone? && u.plan != [] && "" !in u.plan
  }

  const FIRST := AttemptID(Client(0), 1)

  function Profile(box: BoxID): WorkerSpec {
    WorkerSpec(box, "", NOTHING, 1)
  }

  function Home(w: WorkerID, hold: Option<SessionID>): Box {
    Box(Some(w), NOTHING, "ready", hold)
  }

  function Pending(u: Setup): Session {
    Session(SessionSpec(NOTHING, "", u.policy, u.plan), SessionPending, 1, None, None, RecoveryIdle, 0, None, false)
  }

  function Request(u: Setup): NewJob {
    NewJob(Client(0), u.key, Some(0), [], 1, 0, 0, 0, None, Candidate(Client(0), 0, R.ANYTHING))
  }

  function Opened(u: Setup): DB {
    EMPTY.(sessions := map[0 := Pending(u)])
  }

  function Staffed(u: Setup): DB {
    Opened(u).(workers := map[0 := Worker(Profile(0), 1, None, 0, IDLE)], boxes := map[0 := Home(0, None)])
  }

  function Submitted(u: Setup): DB {
    Staffed(u).(jobs := map[Client(0) := NewRow(Staffed(u), Request(u))])
  }

  function BoundOnce(u: Setup): DB {
    Submitted(u).(
      jobs := map[Client(0) := Submitted(u).jobs[Client(0)].(state := JobLeased)],
      attempts := map[FIRST := Attempt(0, 0, AttemptLeased, None, None, 0)],
      leases := map[FIRST := Lease(0, 1)],
      workers := map[0 := Worker(Profile(0), 0, Some(0), 1, IDLE)],
      sessions := map[0 := Pending(u).(state := SessionActive, worker := Some(0), box := Some(0))],
      boxes := map[0 := Home(0, Some(0))])
  }

  function Recovering(u: Setup, epoch: nat): Session {
    Pending(u).(state := SessionRecovering, epoch := epoch, recovery := RecoveryPending, recoveryAfter := Some(0))
  }

  function LostOnce(u: Setup): DB {
    BoundOnce(u).(sessions := map[0 := Recovering(u, 2)])
  }

  lemma OpenIt(u: Setup)
    requires Sensible(u)
    ensures Reached(Submitted(u))
  {
    Begin();
    Then(EMPTY, OpenSession(0, Pending(u).spec, 1), Opened(u));
    Then(Opened(u), RegisterWorker(0, Profile(0)), Staffed(u));
    assert u.key.Some? ==> JobWith(Staffed(u).jobs, u.key.value) == {};
    Then(Staffed(u), Submit(Request(u)), Submitted(u));
  }

  lemma Bound(u: Setup)
    ensures Authenticated(Submitted(u), 0) && Claim(Submitted(u), 0, [Client(0)], 0, 1, 0).db == BoundOnce(u)
  {
    Opens(u);
    Taken(u);
  }

  lemma Opens(u: Setup)
    ensures GateOf(Submitted(u), 0, Client(0)) == Bind
    ensures FirstOpen(Submitted(u), 0, [Client(0)]) == Some(Client(0))
  {
  }

  lemma Taken(u: Setup)
    ensures TakeLease(BindSession(Submitted(u), 0, 0), 0, Client(0), 0, 1, 0) == BoundOnce(u)
  {
  }

  lemma BindIt(u: Setup)
    requires Reached(Submitted(u))
    ensures Reached(BoundOnce(u))
  {
    assert ActiveOf(Submitted(u).attempts, 0) == {};
    AnythingIsEligible(Submitted(u), 0, 0, Request(u).view);
    RankedAlone(Submitted(u), 0, 0, Client(0));
    Bound(u);
    ThenWorker(Submitted(u), 0, ClaimJob(S.DEFAULT, [Client(0)], 0, 1, 0), BoundOnce(u));
  }

  lemma LoseIt(u: Setup)
    requires Sensible(u)
    ensures Reached(LostOnce(u))
  {
    OpenIt(u);
    BindIt(u);
    ThenRecover(BoundOnce(u), 0, 0, LostOnce(u));
  }

  // The controller gets a replacement

  predicate Wanting(db: DB, s: SessionID, at: Time) {
    && s in db.sessions && db.sessions[s].state.SessionRecovering?
    && (db.sessions[s].recovery.RecoveryPending? || db.sessions[s].recovery.RecoveryFailed?)
    && db.sessions[s].recoveryAfter.Some? && db.sessions[s].recoveryAfter.value <= at && db.sessions[s].recoveries < 2
  }

  /** The tables after the provider has created sandbox `box` for session `s`. */
  function Provided(db: DB, s: SessionID, box: BoxID): DB
    requires s in db.sessions
  {
    db.(sessions := db.sessions[s := db.sessions[s].(
          recovery := RecoveryProvisioning, recoveries := db.sessions[s].recoveries + 1)],
        boxes := db.boxes[box := SPARE.(reserved := Some(s))])
  }

  lemma ProvideIt(db: DB, s: SessionID, box: BoxID, at: Time)
    requires Reached(db) && Wanting(db, s, at) && box !in db.boxes
    ensures Reached(Provided(db, s, box))
  {
    ThenProvision(db, s, box, at, Provided(db, s, box));
  }

  /** The tables after worker `w` has registered from a sandbox reserved for session `s`. */
  function Joined(db: DB, s: SessionID, box: BoxID, w: WorkerID): DB
    requires s in db.sessions
  {
    db.(workers := db.workers[w := Worker(Profile(box), 1, Some(s), db.sessions[s].epoch, IDLE)],
        boxes := db.boxes[box := Home(w, Some(s))])
  }

  lemma JoinIt(db: DB, s: SessionID, box: BoxID, w: WorkerID)
    requires Reached(db) && s in db.sessions && db.sessions[s].state.SessionRecovering?
    requires box in db.boxes && db.boxes[box].reserved == Some(s) && w !in db.workers
    ensures Reached(Joined(db, s, box, w))
  {
    ThenRegister(db, w, Profile(box), Joined(db, s, box, w));
  }

  // The controller meets a replacement

  // The session rebuilds on worker `w`; all steps of its plan have this one key.
  predicate Rebuilds(db: DB, s: SessionID, w: WorkerID, key: string) {
    && Matches(db, s, w) && db.sessions[s].state.SessionRecovering? && db.sessions[s].spec.policy.RecoveryRebuild?
    && db.sessions[s].spec.plan != [] && forall x :: x in db.sessions[s].spec.plan ==> x == key
  }

  // Whoever holds the key, nothing is left to enqueue.
  lemma {:induction false} NothingToEnqueue(db: DB, s: SessionID, epoch: nat, plan: seq<string>, key: string, i: nat, at: Time)
    requires JobWith(db.jobs, RebuildKey(s, epoch, key)) != {} && i <= |plan| && forall x :: x in plan ==> x == key
    ensures R.Enqueue(db, s, epoch, plan, i, at) == Tx(db, Ok)
    decreases |plan| - i
  {
    if i < |plan| {
      assert plan[i] in plan;
      assert R.EnqueueStep(db, s, epoch, plan, i, at) == Tx(db, Ok);
      NothingToEnqueue(db, s, epoch, plan, key, i + 1, at);
    }
  }

  /** Once its key is held and no rebuild job of the epoch is unfinished, the session
      becomes active. */
  lemma AdoptEnds(db: DB, s: SessionID, w: WorkerID, key: string, at: Time)
    requires Rebuilds(db, s, w, key)
    requires JobWith(db.jobs, RebuildKey(s, db.sessions[s].epoch, key)) != {}
    requires forall j :: R.InRebuild(db.jobs, s, db.sessions[s].epoch, j) ==> db.jobs[j].state.JobSucceeded?
    ensures R.Adopt(db, s, w, at).db == db.(sessions := db.sessions[s := db.sessions[s].(
      state := SessionActive, recovery := RecoveryIdle, worker := Some(w), box := Some(db.workers[w].spec.box),
      recoveryAfter := None, acknowledged := true)])
  {
    var e := db.sessions[s].epoch;
    NothingToEnqueue(db, s, e, db.sessions[s].spec.plan, key, 0, at);
    assert R.Enqueued(db, s, at) == Tx(db, Ok);
    assert db.workers[w := db.workers[w].(reserved := Some(s), epoch := e)] == db.workers;
  }
}
