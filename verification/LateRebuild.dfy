/** A run in which a session becomes active although one step of its plan never got a
    job, and in which a rebuild step of an old epoch is then leased at a later one. */
module LateRebuild {
  import opened Domain
  import opened Tables
  import opened Transactions
  import opened SessionSteps
  import R = Recovery
  import opened Protocol
  import opened Witness
  import S = Scheduler

  // The plan has two steps with one key.
  const TWICE := Setup(RecoveryRebuild, ["fetch", "fetch"], None)
  const OLD := Rebuild(0, 2, 0)
  const NEW := Rebuild(0, 3, 0)
  const SECOND := AttemptID(NEW, 1)

  function StepRow(db: DB, s: SessionID, key: string, at: Time): Job
    requires s in db.sessions
  {
    NewRow(db, R.RebuildRequest(s, db.sessions[s].epoch, [key, key], 0, at))
  }

  lemma EnqueuesStep(db: DB, s: SessionID, key: string, at: Time)
    requires s in db.sessions && !db.sessions[s].state.Terminal() && db.sessions[s].spec.plan == [key, key]
    requires JobWith(db.jobs, RebuildKey(s, db.sessions[s].epoch, key)) == {} && Rebuild(s, db.sessions[s].epoch, 0) !in db.jobs
    ensures R.Enqueued(db, s, at) == Tx(db.(jobs := db.jobs[Rebuild(s, db.sessions[s].epoch, 0) := StepRow(db, s, key, at)]), Ok)
  {
    var e := db.sessions[s].epoch;
    var db' := db.(jobs := db.jobs[Rebuild(s, e, 0) := StepRow(db, s, key, at)]);
    assert R.EnqueueStep(db, s, e, [key, key], 0, at) == Tx(db', Ok);
    assert Rebuild(s, e, 0) in JobWith(db'.jobs, RebuildKey(s, e, key));
    NothingToEnqueue(db', s, e, [key, key], key, 1, at);
  }

  lemma AdoptStarts(db: DB, s: SessionID, w: WorkerID, key: string, at: Time)
    requires Rebuilds(db, s, w, key) && db.sessions[s].spec.plan == [key, key]
    requires JobWith(db.jobs, RebuildKey(s, db.sessions[s].epoch, key)) == {}
    requires forall j :: j in db.jobs ==> !R.InRebuild(db.jobs, s, db.sessions[s].epoch, j)
    requires Rebuild(s, db.sessions[s].epoch, 0) !in db.jobs
    ensures R.Adopt(db, s, w, at).db == db.(jobs := db.jobs[Rebuild(s, db.sessions[s].epoch, 0) := StepRow(db, s, key, at)])
  {
    EnqueuesStep(db, s, key, at);
    var id := Rebuild(s, db.sessions[s].epoch, 0);
    assert R.InRebuild(db.jobs[id := StepRow(db, s, key, at)], s, db.sessions[s].epoch, id);
  }

  // The run

  function Seconded(): DB {
    Joined(Provided(LostOnce(TWICE), 0, 1), 0, 1, 1)
  }

  function PlannedOnce(): DB {
    Seconded().(jobs := Seconded().jobs[OLD := StepRow(Seconded(), 0, "fetch", 0)])
  }

  function LostTwice(): DB {
    PlannedOnce().(sessions := map[0 := Recovering(TWICE, 3).(recoveries := 1)])
  }

  function Thirded(): DB {
    Joined(Provided(LostTwice(), 0, 2), 0, 2, 2)
  }

  function PlannedTwice(): DB {
    Thirded().(jobs := Thirded().jobs[NEW := StepRow(Thirded(), 0, "fetch", 1)])
  }

  lemma ReplaceIt()
    ensures Reached(Seconded())
  {
    LoseIt(TWICE);
    ProvideIt(LostOnce(TWICE), 0, 1, 0);
    JoinIt(Provided(LostOnce(TWICE), 0, 1), 0, 1, 1);
  }

  lemma PlanIt()
    requires Reached(Seconded())
    ensures Reached(PlannedOnce())
  {
    assert JobWith(Seconded().jobs, RebuildKey(0, 2, "fetch")) == {};
    AdoptStarts(Seconded(), 0, 1, "fetch", 0);
    ThenAdopt(Seconded(), 0, 1, 0, PlannedOnce());
  }

  lemma LoseItAgain()
    requires Reached(PlannedOnce())
    ensures Reached(LostTwice())
  {
    ThenRecover(PlannedOnce(), 0, 0, LostTwice());
  }

  lemma ReplaceItAgain()
    requires Reached(LostTwice())
    ensures Reached(Thirded())
  {
    ProvideIt(LostTwice(), 0, 2, 0);
    JoinIt(Provided(LostTwice(), 0, 2), 0, 2, 2);
  }

  lemma PlanItAgain()
    requires Reached(Thirded())
    ensures Reached(PlannedTwice())
  {
    assert JobWith(Thirded().jobs, RebuildKey(0, 3, "fetch")) == {};
    AdoptStarts(Thirded(), 0, 2, "fetch", 1);
    ThenAdopt(Thirded(), 0, 2, 1, PlannedTwice());
  }

  function RebuildingNow(): DB {
    PlannedTwice().(
      jobs := PlannedTwice().jobs[NEW := PlannedTwice().jobs[NEW].(state := JobLeased, updated := 1)],
      attempts := PlannedTwice().attempts[SECOND := Attempt(2, 2, AttemptLeased, None, None, 0)],
      leases := PlannedTwice().leases[SECOND := Lease(2, 2)],
      workers := PlannedTwice().workers[2 := PlannedTwice().workers[2].(freeSlots := 0)])
  }

  // The older step comes first, but is closed to a worker of the later epoch.
  lemma RankedBoth()
    ensures Ranking(PlannedTwice(), 2, S.DEFAULT, [OLD, NEW], 1)
  {
    var r := RequestOf(PlannedTwice(), 2, 1);
    assert ActiveOf(PlannedTwice().attempts, 2) == {};
    AnythingIsEligible(PlannedTwice(), 2, 1, PlannedTwice().jobs[OLD].spec.view);
    AnythingIsEligible(PlannedTwice(), 2, 1, PlannedTwice().jobs[NEW].spec.view);
    OlderFirst(r, PlannedTwice().jobs[OLD].spec.view, PlannedTwice().jobs[NEW].spec.view);
  }

  lemma OlderFirst(r: S.Request, x: Candidate, y: Candidate)
    requires x.want == y.want && x.created == 0 && y.created == 1 && r.now == 1
    ensures !S.Before(S.DEFAULT, r, y, x)
  {
    S.PatienceGrows(0, 1, 1);
  }

  lemma RebuildIt()
    requires Reached(PlannedTwice())
    ensures Reached(RebuildingNow())
  {
    RankedBoth();
    Rebuilding();
    ThenWorker(PlannedTwice(), 2, ClaimJob(S.DEFAULT, [OLD, NEW], 1, 1, 0), RebuildingNow());
  }

  lemma Rebuilding()
    ensures Authenticated(PlannedTwice(), 2) && Claim(PlannedTwice(), 2, [OLD, NEW], 1, 1, 0).db == RebuildingNow()
  {
    ReplacementMay(PlannedTwice(), 2, OLD, 0);
    ReplacementMay(PlannedTwice(), 2, NEW, 0);
    assert [OLD, NEW][1..] == [NEW];
    assert FirstOpen(PlannedTwice(), 2, [NEW]) == Some(NEW);
    TakesFirstOpen(PlannedTwice(), 2, [OLD, NEW], NEW, 1);
    TakenIt();
  }

  lemma TakenIt()
    ensures TakeLease(PlannedTwice(), 2, NEW, 1, 1, 0) == RebuildingNow()
  {
  }

  function RebuiltNow(): DB {
    RebuildingNow().(
      jobs := RebuildingNow().jobs[NEW := CompletedRow(RebuildingNow().jobs[NEW], SECOND, Success, 1)],
      attempts := EndAttempt(RebuildingNow().attempts, SECOND, AttemptSucceeded, None, 1),
      leases := RebuildingNow().leases - {SECOND},
      workers := ReturnSlot(RebuildingNow().workers, 2))
  }

  lemma FinishIt()
    requires Reached(RebuildingNow())
    ensures Reached(RebuiltNow())
  {
    Finished();
    ThenComplete(RebuildingNow(), 2, SECOND, Success, 1, RebuiltNow());
  }

  lemma Finished()
    ensures Authenticated(RebuildingNow(), 2) && Complete(RebuildingNow(), 2, SECOND, Success, 1).db == RebuiltNow()
  {
    NothingReleased();
    assert Complete(RebuildingNow(), 2, SECOND, Success, 1).err == Ok;
  }

  lemma NothingReleased()
    ensures Promote(RebuiltNow().jobs, NEW, 1) == RebuiltNow().jobs
  {
  }

  function ActiveAgain(): DB {
    RebuiltNow().(sessions := RebuiltNow().sessions[0 := RebuiltNow().sessions[0].(
      state := SessionActive, recovery := RecoveryIdle, worker := Some(2), box := Some(2), recoveryAfter := None,
      acknowledged := true)])
  }

  lemma RebuiltReady()
    ensures Rebuilds(RebuiltNow(), 0, 2, "fetch") && RebuiltNow().sessions[0].epoch == 3
    ensures RebuiltNow().workers[2].spec.box == 2
    ensures JobWith(RebuiltNow().jobs, RebuildKey(0, 3, "fetch")) != {}
    ensures forall j :: R.InRebuild(RebuiltNow().jobs, 0, 3, j) ==> RebuiltNow().jobs[j].state.JobSucceeded?
  {
    assert NEW in JobWith(RebuiltNow().jobs, RebuildKey(0, 3, "fetch"));
  }

  lemma ActivateIt()
    requires Reached(RebuiltNow())
    ensures Reached(ActiveAgain())
  {
    RebuiltReady();
    AdoptEnds(RebuiltNow(), 0, 2, "fetch", 1);
    ThenAdopt(RebuiltNow(), 0, 2, 1, ActiveAgain());
  }

  const LATE := ClaimJob(S.DEFAULT, [OLD], 1, 1, 0)

  lemma IdleServer()
    ensures ActiveOf(ActiveAgain().attempts, 2) == {}
  {
  }

  lemma OnlyOldQueued()
    ensures OLD in ActiveAgain().jobs && ActiveAgain().jobs[OLD].spec.view.want == R.ANYTHING
    ensures forall k :: k in ActiveAgain().jobs && Queued(ActiveAgain().jobs[k], 1) <==> k == OLD
  {
  }

  lemma RankedLate()
    ensures Enabled(ActiveAgain(), FromWorker(2, LATE))
  {
    IdleServer();
    AnythingIsEligible(ActiveAgain(), 2, 1, ActiveAgain().jobs[OLD].spec.view);
    OnlyOldQueued();
    RankedAlone(ActiveAgain(), 2, 1, OLD);
  }

  // An active session that still has a rebuild step of an earlier epoch in the queue.
  ghost predicate HasLeftover(db: DB, w: WorkerID, s: SessionID, j: JobID) {
    && w in db.workers && db.workers[w].reserved == Some(s) && db.workers[w].freeSlots > 0
    && db.workers[w].spec.box in db.boxes
    && s in db.sessions && Undemanding(db.sessions[s].spec) && db.sessions[s].state.SessionActive?
    && db.sessions[s].epoch == db.workers[w].epoch
    && db.sessions[s].worker == Some(w) && db.sessions[s].box == Some(db.workers[w].spec.box)
    && j in db.jobs && db.jobs[j].spec.session == Some(s) && MaxNumber(db.attempts.Keys, j) == 0
    && j.Rebuild? && j.session == s && j.epoch < db.workers[w].epoch
  }

  lemma LeftoverThere()
    ensures HasLeftover(ActiveAgain(), 2, 0, OLD)
  {
    NotYetTried();
  }

  lemma LeftoverLeased(db: DB, w: WorkerID, s: SessionID, j: JobID, act: WorkerAct)
    requires HasLeftover(db, w, s, j) && act == ClaimJob(S.DEFAULT, [j], 1, 1, 0) && Enabled(db, FromWorker(w, act))
    ensures var db' := Apply(db, FromWorker(w, act)); var a := AttemptID(j, 1);
      a !in db.attempts && a in db'.attempts && db'.attempts[a].worker == w
  {
    ServerMayTake(db, w, j, s);
    assert FirstOpen(db, w, [j]) == Some(j);
    TakesFirstOpen(db, w, [j], j, 1);
  }

  /** A rebuilt session may become active without a job for each step of its plan: this
      step of a run takes the session from recovering to active, and the second step of
      the plan, whose key repeats the first, has no job. */
  lemma StepWithoutJob()
    ensures Reached(RebuiltNow()) && Enabled(RebuiltNow(), AdoptReplacement(0, 2, 1))
    ensures Apply(RebuiltNow(), AdoptReplacement(0, 2, 1)) == ActiveAgain()
    ensures RebuiltNow().sessions[0].state.SessionRecovering? && ActiveAgain().sessions[0].state.SessionActive?
    ensures |ActiveAgain().sessions[0].spec.plan| == 2 && Rebuild(0, 3, 1) !in ActiveAgain().jobs
  {
    RebuiltReached();
    RebuiltReady();
    AdoptEnds(RebuiltNow(), 0, 2, "fetch", 1);
    SecondStepMissing();
  }

  lemma SecondStepMissing()
    ensures |ActiveAgain().sessions[0].spec.plan| == 2 && Rebuild(0, 3, 1) !in ActiveAgain().jobs
    ensures RebuiltNow().sessions[0].state.SessionRecovering?
  {
  }

  /** A rebuild step need not be leased at its own epoch: this state is reached by a run,
      and the next claim leases the step of epoch 2 to a worker reserved at epoch 3. */
  lemma LateRebuildLease()
    ensures Reached(ActiveAgain()) && Enabled(ActiveAgain(), FromWorker(2, LATE))
    ensures var db' := Apply(ActiveAgain(), FromWorker(2, LATE)); var a := AttemptID(OLD, 1);
      && a !in ActiveAgain().attempts && a in db'.attempts && db'.attempts[a].worker == 2
    ensures HasLeftover(ActiveAgain(), 2, 0, OLD)
  {
    ActiveReached();
    RankedLate();
    LeftoverThere();
    LeftoverLeased(ActiveAgain(), 2, 0, OLD, LATE);
  }

  lemma ActiveReached()
    ensures Reached(ActiveAgain())
  {
    RebuiltReached();
    ActivateIt();
  }

  lemma RebuiltReached()
    ensures Reached(RebuiltNow())
  {
    ReplaceIt();
    PlanIt();
    LoseItAgain();
    ReplaceItAgain();
    PlanItAgain();
    RebuildIt();
    FinishIt();
  }

  lemma NotYetTried()
    ensures MaxNumber(ActiveAgain().attempts.Keys, OLD) == 0 && AttemptID(OLD, 1) !in ActiveAgain().attempts
  {
  }
}
