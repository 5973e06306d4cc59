/** Which worker has acknowledged a recovery, and whether it is the one that is activated. */
module Acknowledgers {
  import opened Domain
  import opened Tables
  import opened Transactions
  import opened Invariants
  import opened Endings
  import opened SessionSteps
  import opened JobSteps
  import opened Recovery
  import opened Fences
  import opened Protocol
  import opened Safety
  import opened Epochs
  import opened SessionTurns
  import opened SessionRuns
  import opened RecoveryRuns

  predicate Recovers(db: DB, s: SessionID, e: nat) {
    s in db.sessions && db.sessions[s].state.SessionRecovering? && db.sessions[s].epoch == e
  }

  /** The step gives the recovery up, which frees the workers reserved at the epoch. */
  ghost predicate Frees(db: DB, l: Label, s: SessionID) {
    || (l.GiveUpReplacement? && l.s == s && DropReplacement(db, s, l.retryAt).err == Ok)
    || (l.FromWorker? && l.act.AcknowledgeRestore? && l.act.s == s && l.act.failed && Authenticated(db, l.w)
        && Acknowledge(db, l.w, s, l.act.epoch, true, l.act.retryAt).err == Ok)
    || (l.ProvisionReplacement? && l.outcome.CreateFailed? && Provisions(db, l, s))
  }

  /** While the session recovers at one epoch, the workers that match it go on matching it
      until they are freed, and no other known worker comes to match it. */
  ghost predicate Kept(db: DB, l: Label, db': DB, s: SessionID) {
    forall e, w :: Recovers(db, s, e) && Recovers(db', s, e) && w in db.workers ==>
      w in db'.workers && (Matches(db', s, w) <==> Matches(db, s, w) && !Frees(db, l, s))
  }

  ghost predicate SameSeats(workers: Workers, workers': Workers) {
    forall w :: w in workers ==>
      w in workers' && workers'[w].reserved == workers[w].reserved && workers'[w].epoch == workers[w].epoch
  }

  // The labels that can give a recovery up.
  predicate MayFree(l: Label) {
    l.GiveUpReplacement? || l.ProvisionReplacement? || (l.FromWorker? && l.act.AcknowledgeRestore?)
  }

  lemma SeatsKept(db: DB, l: Label, db': DB, s: SessionID)
    requires SameSeats(db.workers, db'.workers) && !Frees(db, l, s)
    ensures Kept(db, l, db', s)
  {
  }

  // Workers

  lemma ReportSeats(db: DB, w: WorkerID, act: WorkerAct)
    requires act.Beat? || act.CompleteJob? || act.RenewLease? || act.SendEvent? || act.SendResult?
    ensures SameSeats(db.workers, Act(db, w, act).workers)
  {
    match act
    case Beat(freeSlots, reported, report) => BeatSeats(db, w, freeSlots, reported, report);
    case CompleteJob(a, completion, now) => CompleteSeats(db, w, a, completion, now);
    case RenewLease(a, now, until) => assert Act(db, w, act).workers == db.workers;
    case SendEvent(a, event) => assert Act(db, w, act).workers == db.workers;
    case SendResult(a, status, data) => assert Act(db, w, act).workers == db.workers;
  }

  lemma BeatSeats(db: DB, w: WorkerID, freeSlots: int, reported: seq<AttemptID>, report: Report)
    ensures SameSeats(db.workers, Heartbeat(db, w, freeSlots, reported, report).db.workers)
  {
  }

  lemma CompleteSeats(db: DB, w: WorkerID, a: AttemptID, c: Completion, at: Time)
    ensures SameSeats(db.workers, Complete(db, w, a, c, at).db.workers)
  {
  }

  lemma ClaimKept(db: DB, w: WorkerID, act: WorkerAct, s: SessionID)
    requires act.ClaimJob? && Reserved(db.workers, db.sessions)
    ensures Kept(db, FromWorker(w, act), Act(db, w, act), s)
  {
    var t := Claim(db, w, act.ranked, act.now, act.duration, act.hash);
    if t.err == Ok && GateOf(db, w, FirstOpen(db, w, act.ranked).value) == Bind {
      BindsFree(db, w, FirstOpen(db, w, act.ranked).value);
    } else {
      SeatsKept(db, FromWorker(w, act), Act(db, w, act), s);
    }
  }

  lemma AckKept(db: DB, w: WorkerID, act: WorkerAct, s: SessionID)
    requires act.AcknowledgeRestore? && Authenticated(db, w)
    ensures Kept(db, FromWorker(w, act), Act(db, w, act), s)
  {
  }

  lemma WorkerKept(db: DB, w: WorkerID, act: WorkerAct, s: SessionID)
    requires Reserved(db.workers, db.sessions)
    ensures Kept(db, FromWorker(w, act), Apply(db, FromWorker(w, act)), s)
  {
    if !Authenticated(db, w) {
      SeatsKept(db, FromWorker(w, act), db, s);
    } else if act.ClaimJob? {
      ClaimKept(db, w, act, s);
    } else if act.AcknowledgeRestore? {
      AckKept(db, w, act, s);
    } else {
      ReportSeats(db, w, act);
      SeatsKept(db, FromWorker(w, act), Act(db, w, act), s);
    }
  }

  // Sessions and recovery

  lemma FinishKept(db: DB, l: Label, t: SessionID, to: SessionState, code: string, at: Time, s: SessionID)
    requires t in db.sessions && to.Terminal() && !MayFree(l)
    ensures Kept(db, l, FinishSession(db, t, to, code, at), s)
  {
  }

  lemma TerminalKept(db: DB, l: Label, t: SessionID, epoch: nat, at: Time, s: SessionID)
    requires !Frees(db, l, s)
    ensures Kept(db, l, TerminalRecovery(db, t, epoch, at).db, s)
  {
  }

  lemma HealthKept(db: DB, l: Label, s: SessionID)
    requires l.Health?
    ensures Kept(db, l, Apply(db, l), s)
  {
    if l.w in db.workers {
      SetHealthCases(db, l.w, l.status, l.at);
      var marked := Marked(db, l.w, l.status);
      SeatsKept(db, l, marked, s);
      if db.workers[l.w].reserved.Some? && db.workers[l.w].reserved.value in db.sessions {
        var t := db.workers[l.w].reserved.value;
        FinishKept(marked, l, t, SessionLost, "session_lost", l.at, s);
        KeptAfter(db, l, marked, FinishSession(marked, t, SessionLost, "session_lost", l.at), s);
        SeatsKept(db, l, RequestRecovery(marked, t, l.at).db, s);
      }
    } else {
      SeatsKept(db, l, db, s);
    }
  }

  // A first change that keeps every seat and every session.
  lemma KeptAfter(db: DB, l: Label, mid: DB, db': DB, s: SessionID)
    requires SameSeats(db.workers, mid.workers) && mid.sessions == db.sessions && Kept(mid, l, db', s) && !MayFree(l)
    ensures Kept(db, l, db', s)
  {
    forall e, w | Recovers(db, s, e) && Recovers(db', s, e) && w in db.workers
      ensures w in db'.workers && (Matches(db', s, w) <==> Matches(db, s, w) && !Frees(db, l, s))
    {
      assert Recovers(mid, s, e) && w in mid.workers;
    }
  }

  lemma ValidateKept(db: DB, mid: DB, l: Label, s: SessionID)
    requires l.AdoptReplacement? && Matches(mid, l.s, l.w) && mid.sessions == db.sessions && mid.workers == db.workers
    ensures Kept(db, l, Validate(mid, l.s, l.w, l.at).db, s)
  {
    ValidateCases(mid, l.s, l.w, l.at);
    var db', e, box := Validate(mid, l.s, l.w, l.at).db, mid.sessions[l.s].epoch, mid.workers[l.w].spec.box;
    if db' == TerminalRecovery(mid, l.s, e, l.at).db {
      TerminalKept(mid, l, l.s, e, l.at, s);
      KeptAfter(db, l, mid, db', s);
    } else {
      assert mid.workers[l.w := mid.workers[l.w].(reserved := Some(l.s), epoch := e)] == mid.workers;
      assert db'.workers == db.workers;
      SeatsKept(db, l, db', s);
    }
  }

  lemma AdoptKept(db: DB, l: Label, s: SessionID)
    requires l.AdoptReplacement?
    ensures Kept(db, l, Apply(db, l), s)
  {
    var db' := Apply(db, l);
    AdoptCases(db, l.s, l.w, l.at);
    if db' == db {
      SeatsKept(db, l, db, s);
    } else {
      var e := db.sessions[l.s].epoch;
      if db' == CompleteRecovery(db, l.s, e, l.w, db.workers[l.w].spec.box).db {
        assert db.workers[l.w := db.workers[l.w].(reserved := Some(l.s), epoch := e)] == db.workers;
        SeatsKept(db, l, db', s);
      } else {
        EnqueueExtends(db, l.s, e, db.sessions[l.s].spec.plan, 0, l.at);
        SeatsKept(db, l, Enqueued(db, l.s, l.at).db, s);
        ValidateKept(db, Enqueued(db, l.s, l.at).db, l, s);
      }
    }
  }

  lemma ProvisionKept(db: DB, l: Label, s: SessionID)
    requires l.ProvisionReplacement?
    ensures Kept(db, l, Apply(db, l), s)
  {
    var t, db' := ClaimRecovery(db, l.s, l.at), Apply(db, l);
    if t.err != Ok {
      SeatsKept(db, l, db, s);
    } else if !WithinBudget(l.limit, t.db.sessions[l.s].recoveries) {
      LostKept(db, l, s);
    } else if l.outcome.CreateFailed? {
      RefusedKept(db, l, s);
    } else {
      SeatsKept(db, l, db', s);
    }
  }

  lemma LostKept(db: DB, l: Label, s: SessionID)
    requires l.ProvisionReplacement? && ClaimRecovery(db, l.s, l.at).err == Ok
    requires !WithinBudget(l.limit, db.sessions[l.s].recoveries + 1)
    ensures Kept(db, l, Apply(db, l), s)
  {
    var t := ClaimRecovery(db, l.s, l.at).db;
    assert Apply(db, l) == TerminalRecovery(t, l.s, t.sessions[l.s].epoch, l.at).db;
  }

  lemma RefusedKept(db: DB, l: Label, s: SessionID)
    requires l.ProvisionReplacement? && l.outcome.CreateFailed? && ClaimRecovery(db, l.s, l.at).err == Ok
    requires WithinBudget(l.limit, db.sessions[l.s].recoveries + 1)
    ensures Kept(db, l, Apply(db, l), s)
  {
    var t := ClaimRecovery(db, l.s, l.at).db;
    assert Apply(db, l) == FailRecovery(t, l.s, t.sessions[l.s].epoch, l.retryAt).db;
    assert Provisions(db, l, l.s);
  }

  lemma DropKept(db: DB, l: Label, s: SessionID)
    requires l.GiveUpReplacement?
    ensures Kept(db, l, Apply(db, l), s)
  {
  }

  lemma SessionStepKept(db: DB, l: Label, s: SessionID)
    requires OnSessions(l)
    ensures Kept(db, l, Apply(db, l), s)
  {
    match l
    case OpenSession(t, spec, epoch) => SeatsKept(db, l, CreateSession(db, t, spec, epoch).db, s);
    case CloseJobSession(t, at) =>
      SeatsKept(db, l, db, s);
      if t in db.sessions {
        FinishKept(db, l, t, SessionClosed, "session_closed", at, s);
      }
    case Recover(t, at) => SeatsKept(db, l, RequestRecovery(db, t, at).db, s);
    case RegisterWorker(w, profile) => SeatsKept(db, l, Register(db, w, profile).db, s);
    case Health(_, _, _) => HealthKept(db, l, s);
    case AdoptReplacement(_, _, _) => AdoptKept(db, l, s);
    case ProvisionReplacement(_, _, _, _, _) => ProvisionKept(db, l, s);
    case GiveUpReplacement(_, _) => DropKept(db, l, s);
    case ChangeSandboxes(boxes) => SeatsKept(db, l, db.(boxes := boxes), s);
  }

  lemma ReapKept(db: DB, l: Label, due: seq<AttemptID>, at: Time, s: SessionID)
    requires Inv(db) && !MayFree(l)
    ensures Kept(db, l, ExpireAll(db, due, at), s)
  {
    ExpireAllSameRoster(db, due, at);
    SeatsKept(db, l, ExpireAll(db, due, at), s);
  }

  lemma TimeoutKept(db: DB, l: Label, overdue: seq<JobID>, at: Time, s: SessionID)
    requires Inv(db) && !MayFree(l) && forall j :: j in overdue ==> j in db.jobs && !db.jobs[j].state.Terminal()
    ensures Kept(db, l, TimeOutAll(db, overdue, at), s)
  {
    TimeOutAllSameRoster(db, overdue, at);
    SeatsKept(db, l, TimeOutAll(db, overdue, at), s);
  }

  lemma ClientKept(db: DB, l: Label, s: SessionID)
    requires l.Submit? || l.CancelJob?
    ensures Kept(db, l, Apply(db, l), s)
  {
    match l
    case Submit(r) => SeatsKept(db, l, CreateJob(db, r).db, s);
    case CancelJob(j, at) => SeatsKept(db, l, Cancel(db, j, at).db, s);
  }

  lemma StepKept(db: DB, l: Label, s: SessionID)
    requires Inv(db) && Enabled(db, l)
    ensures Kept(db, l, Apply(db, l), s)
  {
    if OnSessions(l) {
      SessionStepKept(db, l, s);
    } else if l.FromWorker? {
      WorkerKept(db, l.w, l.act, s);
    } else if l.Submit? || l.CancelJob? {
      ClientKept(db, l, s);
    } else if l.TimeoutJobs? {
      TimeoutKept(db, l, l.overdue, l.at, s);
    } else {
      ReapKept(db, l, l.due, l.at, s);
    }
  }

  // Runs

  lemma RunKept(states: seq<DB>, labels: seq<Label>, i: nat, s: SessionID)
    requires IsRun(states, labels) && i < |labels|
    ensures Kept(states[i], labels[i], states[i + 1], s)
  {
    assert Follows(states, labels, i);
    Reachable(states, labels, i);
    StepKept(states[i], labels[i], s);
  }

  // No step from `i` on and before `k` gives the recovery up.
  ghost predicate NotGivenUp(states: seq<DB>, labels: seq<Label>, s: SessionID, i: nat, k: nat)
    requires k <= |labels| && |states| == |labels| + 1
  {
    forall n :: i <= n < k ==> !Frees(states[n], labels[n], s)
  }

  lemma RecoversBetween(states: seq<DB>, labels: seq<Label>, s: SessionID, e: nat, i: nat, m: nat, k: nat)
    requires IsRun(states, labels) && i <= m <= k < |states| && Recovers(states[i], s, e) && Recovers(states[k], s, e)
    ensures Recovers(states[m], s, e)
  {
    GuardsOverRuns(states, labels, i, m);
    GuardsOverRuns(states, labels, m, k);
    assert SessionMoves(states[i].sessions[s], states[m].sessions[s]);
    assert SessionMoves(states[m].sessions[s], states[k].sessions[s]);
  }

  // Step `n` frees the worker or lets it go on matching.
  ghost predicate KeepsMatch(states: seq<DB>, labels: seq<Label>, s: SessionID, w: WorkerID, n: nat)
    requires n < |labels| && |states| == |labels| + 1
  {
    w in states[n].workers ==>
      && w in states[n + 1].workers
      && (Matches(states[n + 1], s, w) <==> Matches(states[n], s, w) && !Frees(states[n], labels[n], s))
  }

  lemma {:induction false} MatchesUntilFreed(states: seq<DB>, labels: seq<Label>, s: SessionID, w: WorkerID, i: nat, k: nat)
    requires |states| == |labels| + 1 && i <= k <= |labels| && Matches(states[i], s, w)
    requires forall n :: i <= n < k ==> KeepsMatch(states, labels, s, w, n)
    ensures w in states[k].workers
    ensures Matches(states[k], s, w) <==> NotGivenUp(states, labels, s, i, k)
    decreases k
  {
    if i < k {
      MatchesUntilFreed(states, labels, s, w, i, k - 1);
      assert KeepsMatch(states, labels, s, w, k - 1);
    }
  }

  lemma StillMatches(states: seq<DB>, labels: seq<Label>, s: SessionID, e: nat, w: WorkerID, i: nat, k: nat)
    requires IsRun(states, labels) && i <= k <= |labels|
    requires Recovers(states[i], s, e) && Recovers(states[k], s, e) && Matches(states[i], s, w)
    ensures Matches(states[k], s, w) <==> NotGivenUp(states, labels, s, i, k)
  {
    forall n | i <= n < k ensures KeepsMatch(states, labels, s, w, n) {
      RecoversBetween(states, labels, s, e, i, n, k);
      RecoversBetween(states, labels, s, e, i, n + 1, k);
      RunKept(states, labels, n, s);
    }
    MatchesUntilFreed(states, labels, s, w, i, k);
  }

  /** Step `k` activates the session on worker `w`, at epoch `e`. */
  ghost predicate ActivatesAt(states: seq<DB>, labels: seq<Label>, s: SessionID, e: nat, k: nat, w: WorkerID)
    requires k < |labels| && |states| == |labels| + 1
  {
    && Recovers(states[k], s, e)
    && s in states[k + 1].sessions && states[k + 1].sessions[s].state.SessionActive? && states[k + 1].sessions[s].worker == Some(w)
  }

  lemma ActivatedMatches(states: seq<DB>, labels: seq<Label>, s: SessionID, e: nat, k: nat, w: WorkerID)
    requires IsRun(states, labels) && k < |labels| && ActivatesAt(states, labels, s, e, k, w)
    ensures labels[k].AdoptReplacement? && labels[k].w == w && Matches(states[k], s, w)
  {
    RunTurns(states, labels, k);
    assert Turn(states[k], labels[k], s, states[k + 1].sessions[s]);
    assert Follows(states, labels, k);
    AdoptActivates(states[k], labels[k]);
  }

  lemma AdoptActivates(db: DB, l: Label)
    requires l.AdoptReplacement? && Matches(db, l.s, l.w) && db.sessions[l.s].state.SessionRecovering?
    ensures var db' := Apply(db, l);
      l.s in db'.sessions && (db'.sessions[l.s].state.SessionActive? ==> db'.sessions[l.s].worker == Some(l.w))
  {
    AdoptCases(db, l.s, l.w, l.at);
    EnqueueExtends(db, l.s, db.sessions[l.s].epoch, db.sessions[l.s].spec.plan, 0, l.at);
    ValidateCases(Enqueued(db, l.s, l.at).db, l.s, l.w, l.at);
  }

  /** Let step `i` have set the acknowledgement at epoch `e`, for worker labels[i].w, and step
      `k` activate the session at `e` on worker `w`. The worker that acknowledged can still be
      activated if and only if the recovery was not given up since. So `w` acknowledged only
      if it was not; and where `w` is the only replacement, if and only if it was not. */
  lemma OwnAcknowledgement(states: seq<DB>, labels: seq<Label>, s: SessionID, e: nat, i: nat, k: nat, w: WorkerID)
    requires IsRun(states, labels) && i <= k < |labels|
    requires AcknowledgedAt(states, labels, s, e, i) && ActivatesAt(states, labels, s, e, k, w)
    ensures labels[i].FromWorker? || labels[i].AdoptReplacement?
    ensures Matches(states[k], s, labels[i].w) <==> NotGivenUp(states, labels, s, i, k)
    ensures w == labels[i].w ==> NotGivenUp(states, labels, s, i, k)
    ensures (forall v :: Matches(states[k], s, v) ==> v == w) ==> (w == labels[i].w <==> NotGivenUp(states, labels, s, i, k))
  {
    StillMatches(states, labels, s, e, labels[i].w, i, k);
    ActivatedMatches(states, labels, s, e, k, w);
  }
}
