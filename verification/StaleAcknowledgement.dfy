/** A run in which a worker is activated that has never acknowledged its restore. */
module StaleAcknowledgement {
  import opened Domain
  import opened Tables
  import opened Transactions
  import opened SessionSteps
  import R = Recovery
  import opened Protocol
  import opened Witness

  const RESTORED := Setup(RecoveryCheckpoint, ["fetch"], None)

  // Worker 1 acknowledges its restore, and then reports that it failed after all.
  const ACCEPT := AcknowledgeRestore(0, 2, false, 1)
  const REJECT := AcknowledgeRestore(0, 2, true, 1)

  function First(): DB {
    Joined(Provided(LostOnce(RESTORED), 0, 1), 0, 1, 1)
  }

  function Accepted(): DB {
    First().(sessions := First().sessions[0 := First().sessions[0].(acknowledged := true, recovery := RecoveryRestoring)])
  }

  function Deleted(): DB {
    Accepted().(boxes := LostOnce(RESTORED).boxes)
  }

  function Rejected(): DB {
    Deleted().(
      sessions := Deleted().sessions[0 := Deleted().sessions[0].(recovery := RecoveryFailed, recoveryAfter := Some(1))],
      workers := Deleted().workers[1 := Deleted().workers[1].(reserved := None, epoch := 0)])
  }

  // The controller gets a second replacement at the same epoch.
  function Provisioned(): DB {
    Provided(Rejected(), 0, 1)
  }

  function Second(): DB {
    Joined(Provisioned(), 0, 1, 2)
  }

  lemma ReachFirst()
    ensures Reached(First())
  {
    LoseIt(RESTORED);
    ProvideIt(LostOnce(RESTORED), 0, 1, 0);
    JoinIt(Provided(LostOnce(RESTORED), 0, 1), 0, 1, 1);
  }

  lemma Accepts()
    ensures Authenticated(First(), 1) && Act(First(), 1, ACCEPT) == Accepted()
    ensures !First().sessions[0].acknowledged && First().sessions[0].epoch == 2
  {
  }

  lemma Rejects()
    ensures Authenticated(Deleted(), 1) && Act(Deleted(), 1, REJECT) == Rejected()
  {
    assert Disband(Deleted().workers, 0, 2) == Rejected().workers;
  }

  lemma ReachRejected()
    ensures Reached(Rejected())
  {
    ReachFirst();
    Accepts();
    ThenWorker(First(), 1, ACCEPT, Accepted());
    Then(Accepted(), ChangeSandboxes(Deleted().boxes), Deleted());
    Rejects();
    ThenWorker(Deleted(), 1, REJECT, Rejected());
  }

  lemma Ready()
    ensures Wanting(Rejected(), 0, 1) && 1 !in Rejected().boxes
    ensures 2 !in Provisioned().workers && 0 in Provisioned().sessions && Provisioned().sessions[0].acknowledged
    ensures Provisioned().sessions[0].epoch == 2 && Provisioned().sessions[0].state.SessionRecovering?
    ensures Provisioned().sessions[0].spec.policy.RecoveryCheckpoint?
    ensures 1 in Provisioned().boxes && Provisioned().boxes[1].reserved == Some(0)
  {
  }

  lemma MeetsSecond(db: DB, s: SessionID, box: BoxID, w: WorkerID, at: Time)
    requires s in db.sessions && db.sessions[s].state.SessionRecovering? && db.sessions[s].acknowledged
    requires db.sessions[s].spec.policy.RecoveryCheckpoint?
    ensures var db' := Apply(Joined(db, s, box, w), AdoptReplacement(s, w, at));
      s in db'.sessions && db'.sessions[s].state.SessionActive? && db'.sessions[s].worker == Some(w)
      && db'.sessions[s].epoch == db.sessions[s].epoch
  {
  }

  /** A recovery that is given up keeps its acknowledgement. Here worker 2 does not exist yet
      when the session at epoch 2 already counts as acknowledged; it registers, and the very
      next step activates the session on it. */
  lemma ActivatedUnasked()
    ensures Reached(Provisioned()) && 2 !in Provisioned().workers
    ensures 0 in Provisioned().sessions && Provisioned().sessions[0].acknowledged && Provisioned().sessions[0].epoch == 2
    ensures Apply(Provisioned(), RegisterWorker(2, Profile(1))) == Second()
    ensures var db' := Apply(Second(), AdoptReplacement(0, 2, 1));
      0 in db'.sessions && db'.sessions[0].state.SessionActive? && db'.sessions[0].worker == Some(2) && db'.sessions[0].epoch == 2
  {
    ReachRejected();
    Ready();
    ProvideIt(Rejected(), 0, 1, 1);
    Registers(Provisioned(), 0, 1, 2);
    MeetsSecond(Provisioned(), 0, 1, 2, 1);
  }

  lemma Registers(db: DB, s: SessionID, box: BoxID, w: WorkerID)
    requires s in db.sessions && db.sessions[s].state.SessionRecovering?
    requires box in db.boxes && db.boxes[box].reserved == Some(s) && w !in db.workers
    ensures Apply(db, RegisterWorker(w, Profile(box))) == Joined(db, s, box, w)
  {
  }
}
