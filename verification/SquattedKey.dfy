/** A run in which a session becomes active without any of its rebuild work, because a
    client's job holds the key of the only step. */
module SquattedKey {
  import opened Domain
  import opened Tables
  import opened Transactions
  import opened SessionSteps
  import R = Recovery
  import opened Protocol
  import opened Witness
  import RR = RebuildRuns

  const TAKEN := Setup(RecoveryRebuild, ["fetch"], Some(RebuildKey(0, 2, "fetch")))

  function Seconded(): DB {
    Joined(Provided(LostOnce(TAKEN), 0, 1), 0, 1, 1)
  }

  function ActiveAgain(): DB {
    Seconded().(sessions := Seconded().sessions[0 := Seconded().sessions[0].(
      state := SessionActive, recovery := RecoveryIdle, worker := Some(1), box := Some(1), recoveryAfter := None,
      acknowledged := true)])
  }

  lemma ReplaceIt()
    ensures Reached(Seconded())
  {
    LoseIt(TAKEN);
    ProvideIt(LostOnce(TAKEN), 0, 1, 0);
    JoinIt(Provided(LostOnce(TAKEN), 0, 1), 0, 1, 1);
  }

  lemma KeyIsTaken()
    ensures Rebuilds(Seconded(), 0, 1, "fetch") && Seconded().sessions[0].epoch == 2
    ensures Seconded().workers[1].spec.box == 1
    ensures JobWith(Seconded().jobs, RebuildKey(0, 2, "fetch")) != {}
    ensures forall j :: !R.InRebuild(Seconded().jobs, 0, 2, j)
  {
    assert Client(0) in JobWith(Seconded().jobs, RebuildKey(0, 2, "fetch"));
  }

  /** The service takes any idempotency key from a client. When it is the key of a rebuild
      step, the controller finds the step already created, sees no unfinished rebuild
      job, and activates the session: this step of a run takes it from recovering to
      active with distinct step keys and no rebuild job at all. */
  lemma NoWorkDone()
    ensures Reached(Seconded()) && Enabled(Seconded(), AdoptReplacement(0, 1, 0))
    ensures Apply(Seconded(), AdoptReplacement(0, 1, 0)) == ActiveAgain()
    ensures Seconded().sessions[0].state.SessionRecovering? && ActiveAgain().sessions[0].state.SessionActive?
    ensures Seconded().sessions[0].epoch == 2 && Seconded().sessions[0].spec.plan == ["fetch"]
    ensures RR.Squatted(Seconded().jobs, 0, 2, ["fetch"], 0)
    ensures Rebuild(0, 2, 0) !in ActiveAgain().jobs
  {
    ReplaceIt();
    KeyIsTaken();
    AdoptEnds(Seconded(), 0, 1, "fetch", 0);
    Facts();
  }

  lemma Facts()
    ensures Seconded().sessions[0].state.SessionRecovering? && Seconded().sessions[0].spec.plan == ["fetch"]
    ensures RR.Squatted(Seconded().jobs, 0, 2, ["fetch"], 0)
    ensures Rebuild(0, 2, 0) !in ActiveAgain().jobs
  {
    assert Client(0) in Seconded().jobs && Seconded().jobs[Client(0)].spec.key == Some(RebuildKey(0, 2, "fetch"));
  }
}
