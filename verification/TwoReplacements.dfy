/** A run in which the controller turns to the provider twice within one epoch. */
module TwoReplacements {
  import opened Domain
  import opened Tables
  import opened Transactions
  import opened SessionSteps
  import R = Recovery
  import opened Protocol
  import opened Witness
  import opened RecoveryRuns
  import opened ReplacementRuns

  // Some run leads to this state with at least `n` provisions for epoch `e` of the session.
  ghost predicate ReachedWith(db: DB, s: SessionID, e: nat, n: nat) {
    exists states, labels ::
      IsRun(states, labels) && states[|labels|] == db && EpochProvisions(states, labels, s, e, |labels|) >= n
  }

  lemma StartCounting(db: DB, s: SessionID, e: nat)
    requires Reached(db)
    ensures ReachedWith(db, s, e, 0)
  {
    var states, labels :| IsRun(states, labels) && states[|labels|] == db;
    assert EpochProvisions(states, labels, s, e, |labels|) >= 0;
  }

  lemma {:induction false} SameCount(states: seq<DB>, labels: seq<Label>, db: DB, l: Label, s: SessionID, e: nat, n: nat)
    requires |states| == |labels| + 1 && n <= |labels|
    ensures EpochProvisions(states + [db], labels + [l], s, e, n) == EpochProvisions(states, labels, s, e, n)
  {
    if n > 0 {
      SameCount(states, labels, db, l, s, e, n - 1);
    }
  }

  lemma ThenCount(db: DB, l: Label, db': DB, s: SessionID, e: nat, n: nat)
    requires ReachedWith(db, s, e, n) && Enabled(db, l) && Apply(db, l) == db'
    ensures ReachedWith(db', s, e, if Provisions(db, l, s) && db.sessions[s].epoch == e then n + 1 else n)
  {
    var states, labels :| IsRun(states, labels) && states[|labels|] == db && EpochProvisions(states, labels, s, e, |labels|) >= n;
    Extended(states, labels, l);
    var states', labels' := states + [db'], labels + [l];
    SameCount(states, labels, db', l, s, e, |labels|);
    assert states'[|labels|] == db && labels'[|labels|] == l && states'[|labels'|] == db';
    assert ProvisionAt(states', labels', s, e, |labels|) == (Provisions(db, l, s) && db.sessions[s].epoch == e);
  }

  const PLAIN := Setup(RecoveryRebuild, ["fetch"], None)

  // The provider creates the sandbox; no worker registers in time, so that the sandbox is
  // deleted and the recovery is given up; when the retry is due, the provider is asked again.
  const ASK := ProvisionReplacement(0, 2, R.Created(1, SPARE), 0, 1)
  const DROP := GiveUpReplacement(0, 1)
  const AGAIN := ProvisionReplacement(0, 2, R.Created(1, SPARE), 1, 2)

  function Asked(): DB {
    Provided(LostOnce(PLAIN), 0, 1)
  }

  function Deleted(): DB {
    Asked().(boxes := LostOnce(PLAIN).boxes)
  }

  function Dropped(): DB {
    Deleted().(sessions := Deleted().sessions[0 := Deleted().sessions[0].(recovery := RecoveryFailed, recoveryAfter := Some(1))])
  }

  lemma AskIt()
    ensures Provisions(LostOnce(PLAIN), ASK, 0) && Apply(LostOnce(PLAIN), ASK) == Asked()
    ensures LostOnce(PLAIN).sessions[0].epoch == 2
  {
  }

  lemma NobodyThere()
    ensures forall w :: !Matches(Deleted(), 0, w)
    ensures Disband(Deleted().workers, 0, 2) == Deleted().workers
  {
  }

  // Nobody holds a reservation that giving up would free.
  lemma DropMeans(db: DB, s: SessionID, retryAt: Time)
    requires s in db.sessions && db.sessions[s].state.SessionRecovering? && db.sessions[s].recovery.RecoveryProvisioning?
    requires (forall w :: !Matches(db, s, w)) && Disband(db.workers, s, db.sessions[s].epoch) == db.workers
    ensures Apply(db, GiveUpReplacement(s, retryAt))
         == db.(sessions := db.sessions[s := db.sessions[s].(recovery := RecoveryFailed, recoveryAfter := Some(retryAt))])
  {
  }

  lemma DropIt()
    ensures Apply(Deleted(), DROP) == Dropped()
  {
    NobodyThere();
    DropMeans(Deleted(), 0, 1);
  }

  lemma AskAgain()
    ensures Provisions(Dropped(), AGAIN, 0) && Dropped().sessions[0].epoch == 2
  {
  }

  /** The controller may turn to the provider twice within one epoch. */
  lemma TwiceInOneEpoch()
    ensures exists states, labels :: IsRun(states, labels) && EpochProvisions(states, labels, 0, 2, |labels|) > 1
  {
    LoseIt(PLAIN);
    StartCounting(LostOnce(PLAIN), 0, 2);
    AskIt();
    ThenCount(LostOnce(PLAIN), ASK, Asked(), 0, 2, 0);
    ThenCount(Asked(), ChangeSandboxes(Deleted().boxes), Deleted(), 0, 2, 1);
    DropIt();
    ThenCount(Deleted(), DROP, Dropped(), 0, 2, 1);
    AskAgain();
    ThenCount(Dropped(), AGAIN, Apply(Dropped(), AGAIN), 0, 2, 1);
  }
}
