/** The control plane as one object: it serves one request at a time, and its history is a
    run. Every theorem about runs is a theorem about this object. */
module Service {
  import opened Domain
  import opened Tables
  import opened Transactions
  import opened Invariants
  import opened Protocol
  import opened Safety
  import R = Recovery
  import St = Store
  import C = Controller
  import W = Witness

  lemma EnoughForSweeps(db: DB)
    requires Inv(db)
    ensures St.Sane(db) && Layered(db.jobs)
  {
  }

  lemma OneMoreStep(states: seq<DB>, labels: seq<Label>, db: DB, l: Label)
    requires IsRun(states, labels) && states[|labels|] == db && Enabled(db, l)
    ensures Inv(db)
    ensures IsRun(states + [Apply(db, l)], labels + [l])
    ensures (states + [Apply(db, l)])[|labels + [l]|] == Apply(db, l)
  {
    Reachable(states, labels, |labels|);
    W.Extended(states, labels, l);
  }

  class Service {
    const store: St.Store
    const controller: C.RecoveryController
    // All states that the store has been in after a commit, and the requests between them.
    ghost var states: seq<DB>
    ghost var labels: seq<Label>

    ghost predicate Valid()
      reads this, store
    {
      && controller.store == store
      && IsRun(states, labels)
      && states[|labels|] == store.Db()
    }

    constructor ()
      ensures Valid() && labels == [] && fresh(store)
    {
      var tables := new St.Store();
      store := tables;
      controller := new C.RecoveryController(tables);
      states, labels := [EMPTY], [];
    }

    /** The invariant holds whenever no request is being served. */
    lemma Sound()
      requires Valid()
      ensures Inv(store.Db())
    {
      Reachable(states, labels, |labels|);
    }

    /** Serves one enabled request: the store takes exactly the step of the protocol, and the
        history grows by this step. */
    method Serve(l: Label)
      requires Valid() && Enabled(store.Db(), l)
      modifies this, store
      ensures Valid()
      ensures store.Db() == Apply(old(store.Db()), l)
      ensures labels == old(labels) + [l] && states == old(states) + [store.Db()]
    {
      ghost var before := store.Db();
      OneMoreStep(states, labels, before, l);
      Dispatch(l);
      states, labels := states + [store.Db()], labels + [l];
    }

    method Dispatch(l: Label)
      requires controller.store == store && Inv(store.Db()) && Enabled(store.Db(), l)
      modifies store
      ensures store.Db() == Apply(old(store.Db()), l)
    {
      if OnSessions(l) {
        OnSession(l);
      } else if l.FromWorker? {
        if Authenticated(store.Db(), l.w) {
          OnBehalf(l.w, l.act);
        }
      } else if l.Submit? {
        var err := store.CreateJob(l.request);
      } else if l.CancelJob? {
        EnoughForSweeps(store.Db());
        var err := store.CancelJob(l.job, l.at);
      } else if l.TimeoutJobs? {
        store.TimeOutListed(l.overdue, l.at);
      } else {
        store.ExpireListed(l.due, l.at);
      }
    }

    method OnBehalf(w: WorkerID, act: WorkerAct)
      requires Inv(store.Db()) && (act.ClaimJob? ==> forall j :: j in act.ranked ==> j in store.jobs)
      modifies store
      ensures store.Db() == Act(old(store.Db()), w, act)
    {
      var err;
      match act
      case Beat(freeSlots, reported, report) => err := store.HeartbeatWorker(w, freeSlots, reported, report);
      case ClaimJob(_, ranked, now, duration, hash) => err := store.ClaimNextJob(w, ranked, now, duration, hash);
      case RenewLease(a, now, until) => err := store.RenewLease(w, a, now, until);
      case SendEvent(a, event) => err := store.AppendAttemptEvent(w, a, event);
      case SendResult(a, status, data) => err := store.SaveResult(w, a, status, data);
      case CompleteJob(a, completion, now) =>
        EnoughForSweeps(store.Db());
        err := store.CompleteAttempt(w, a, completion, now);
      case AcknowledgeRestore(s, epoch, failed, retryAt) => err := Acknowledge(w, s, epoch, failed, retryAt);
    }

    /** A worker reports how its restore went. */
    method Acknowledge(w: WorkerID, s: SessionID, epoch: nat, failed: bool, retryAt: Time) returns (err: Error)
      modifies store
      ensures Tx(store.Db(), err) == R.Acknowledge(old(store.Db()), w, s, epoch, failed, retryAt)
    {
      if w !in store.workers || store.workers[w].reserved != Some(s) || store.workers[w].epoch != epoch {
        return Conflict;
      }
      if failed {
        err := store.FailRecovery(s, epoch, retryAt);
      } else {
        err := store.AcknowledgeRecovery(s, epoch, w);
      }
    }

    method OnSession(l: Label)
      requires controller.store == store && OnSessions(l)
      modifies store
      ensures store.Db() == Apply(old(store.Db()), l)
    {
      var err;
      match l
      case OpenSession(s, spec, epoch) => err := store.CreateSession(s, spec, epoch);
      case CloseJobSession(s, at) => err := store.CloseSession(s, at);
      case Recover(s, at) => err := store.RequestRecovery(s, at);
      case RegisterWorker(w, profile) => err := store.RegisterWorker(w, profile);
      case Health(w, status, at) => err := store.SetWorkerHealth(w, status, at);
      case AdoptReplacement(s, w, at) => err := controller.AdoptReplacement(s, w, at);
      case ProvisionReplacement(s, limit, outcome, at, retryAt) =>
        err := controller.ProvisionReplacement(s, limit, outcome, at, retryAt);
      case GiveUpReplacement(s, retryAt) => err := controller.GiveUpReplacement(s, retryAt);
      case ChangeSandboxes(boxes) => store.boxes := boxes;
    }
  }
}
