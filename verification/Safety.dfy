/** Every step of every run keeps the invariant and moves forward. */
module Safety {
  import opened Domain
  import opened Tables
  import opened Transactions
  import opened Invariants
  import opened Settlement
  import opened Endings
  import opened SessionSteps
  import opened JobSteps
  import opened Recovery
  import opened Progress
  import opened Fences
  import opened Protocol
  import S = Scheduler

  // The invariant

  // An eligible job means that the worker may run one more attempt.
  lemma RankingRespectsLoad(db: DB, w: WorkerID, config: S.Config, ranked: seq<JobID>, now: Time)
    requires w in db.workers && Capped(db.workers, db.attempts) && Ranking(db, w, config, ranked, now)
    ensures forall j :: j in ranked ==> j in db.jobs && db.jobs[j].state.JobQueued?
    ensures ranked != [] ==> |ActiveOf(db.attempts, w)| < db.workers[w].spec.maxSlots
  {
    if ranked != [] {
      assert ranked[0] in ranked;
    }
  }

  lemma RankedClaimKeepsInv(db: DB, w: WorkerID, config: S.Config, ranked: seq<JobID>, now: Time, duration: int, hash: nat)
    requires Inv(db) && w in db.workers && Ranking(db, w, config, ranked, now)
    ensures Inv(Claim(db, w, ranked, now, duration, hash).db)
  {
    RankingRespectsLoad(db, w, config, ranked, now);
    ClaimKeepsInv(db, w, ranked, now, duration, hash);
  }

  lemma BeatKeepsInv(db: DB, w: WorkerID, freeSlots: int, reported: seq<AttemptID>, report: Report)
    requires Inv(db)
    ensures Inv(Heartbeat(db, w, freeSlots, reported, report).db)
  {
    HeartbeatAdvances(db, w, freeSlots, reported, report);
    AdvancesKeepsInv(db, Heartbeat(db, w, freeSlots, reported, report).db);
  }

  lemma OpenKeepsInv(db: DB, s: SessionID, spec: SessionSpec, epoch: nat)
    requires Inv(db)
    ensures Inv(CreateSession(db, s, spec, epoch).db)
  {
    CreateSessionAdvances(db, s, spec, epoch);
    AdvancesKeepsInv(db, CreateSession(db, s, spec, epoch).db);
  }

  lemma RegisterKeepsInv(db: DB, w: WorkerID, profile: WorkerSpec)
    requires Inv(db)
    ensures Inv(Register(db, w, profile).db)
  {
    RegisterAdvances(db, w, profile);
    AdvancesKeepsInv(db, Register(db, w, profile).db);
  }

  lemma CloseKeepsInv(db: DB, s: SessionID, at: Time)
    requires Inv(db)
    ensures Inv(CloseSession(db, s, at).db)
  {
    if s in db.sessions {
      FinishKeepsInv(db, s, SessionClosed, "session_closed", at);
    }
  }

  lemma RecoverKeepsInv(db: DB, s: SessionID, at: Time)
    requires Inv(db)
    ensures Inv(RequestRecovery(db, s, at).db)
  {
    RequestRecoveryAdvances(db, s, at);
    AdvancesKeepsInv(db, RequestRecovery(db, s, at).db);
  }

  lemma GiveUpKeepsInv(db: DB, s: SessionID, retryAt: Time)
    requires Inv(db)
    ensures Inv(DropReplacement(db, s, retryAt).db)
  {
    if s in db.sessions {
      FailRecoveryKeepsInv(db, s, db.sessions[s].epoch, retryAt);
    }
  }

  lemma AttemptActKeepsInv(db: DB, w: WorkerID, act: WorkerAct)
    requires Inv(db) && (act.RenewLease? || act.SendEvent? || act.SendResult?)
    ensures Inv(Act(db, w, act))
  {
    if act.RenewLease? {
      assert Act(db, w, act) == Renew(db, w, act.a, act.now, act.until).db;
      RenewKeepsInv(db, w, act.a, act.now, act.until);
    } else if act.SendEvent? {
      assert Act(db, w, act) == AppendEvent(db, w, act.a, act.event).db;
      AppendEventKeepsInv(db, w, act.a, act.event);
    } else {
      assert Act(db, w, act) == SaveResult(db, w, act.a, act.status, act.data).db;
      SaveResultKeepsInv(db, w, act.a, act.status, act.data);
    }
  }

  lemma ActKeepsInv(db: DB, w: WorkerID, act: WorkerAct)
    requires Inv(db) && !act.ClaimJob?
    ensures Inv(Act(db, w, act))
  {
    match act
    case Beat(freeSlots, reported, report) => BeatKeepsInv(db, w, freeSlots, reported, report);
    case CompleteJob(a, completion, now) => CompleteKeepsInv(db, w, a, completion, now);
    case RenewLease(a, now, until) => AttemptActKeepsInv(db, w, act);
    case SendEvent(a, event) => AttemptActKeepsInv(db, w, act);
    case SendResult(a, status, data) => AttemptActKeepsInv(db, w, act);
    case AcknowledgeRestore(s, epoch, failed, retryAt) => AcknowledgeKeepsInv(db, w, s, epoch, failed, retryAt);
  }

  // The labels that touch sessions and workers.
  predicate OnSessions(l: Label) {
    || l.OpenSession? || l.CloseJobSession? || l.Recover? || l.RegisterWorker? || l.Health?
    || l.AdoptReplacement? || l.ProvisionReplacement? || l.GiveUpReplacement? || l.ChangeSandboxes?
  }

  lemma SandboxesKeepInv(db: DB, boxes: Boxes)
    requires Inv(db)
    ensures Inv(db.(boxes := boxes))
  {
  }

  // The labels that drive or give up a recovery.
  predicate OnRecovery(l: Label) {
    l.AdoptReplacement? || l.ProvisionReplacement? || l.GiveUpReplacement?
  }

  lemma RecoveryStepKeepsInv(db: DB, l: Label)
    requires Inv(db) && Enabled(db, l) && OnRecovery(l)
    ensures Inv(Apply(db, l))
  {
    match l
    case AdoptReplacement(s, w, at) => AdoptKeepsInv(db, s, w, at);
    case ProvisionReplacement(s, limit, outcome, at, retryAt) =>
      ProvisionKeepsInv(db, s, limit, outcome, at, retryAt);
    case GiveUpReplacement(s, retryAt) => GiveUpKeepsInv(db, s, retryAt);
  }

  lemma FailureStepKeepsInv(db: DB, l: Label)
    requires Inv(db) && (l.Recover? || l.Health?)
    ensures Inv(Apply(db, l))
  {
    match l
    case Recover(s, at) => RecoverKeepsInv(db, s, at);
    case Health(w, status, at) => SetHealthKeepsInv(db, w, status, at);
  }

  lemma SessionStepKeepsInv(db: DB, l: Label)
    requires Inv(db) && Enabled(db, l) && OnSessions(l)
    ensures Inv(Apply(db, l))
  {
    if OnRecovery(l) {
      RecoveryStepKeepsInv(db, l);
    } else if l.Recover? || l.Health? {
      FailureStepKeepsInv(db, l);
    } else {
      match l
      case OpenSession(s, spec, epoch) => OpenKeepsInv(db, s, spec, epoch);
      case CloseJobSession(s, at) => CloseKeepsInv(db, s, at);
      case RegisterWorker(w, profile) => RegisterKeepsInv(db, w, profile);
      case ChangeSandboxes(boxes) => SandboxesKeepInv(db, boxes);
    }
  }

  lemma WorkerApplies(db: DB, w: WorkerID, act: WorkerAct)
    ensures Apply(db, FromWorker(w, act)) == if Authenticated(db, w) then Act(db, w, act) else db
  {
  }

  lemma WorkerStepKeepsInv(db: DB, w: WorkerID, act: WorkerAct)
    requires Inv(db) && Enabled(db, FromWorker(w, act))
    ensures Inv(Apply(db, FromWorker(w, act)))
  {
    WorkerApplies(db, w, act);
    RequestKeepsInv(db, w, act);
  }

  lemma RequestKeepsInv(db: DB, w: WorkerID, act: WorkerAct)
    requires Inv(db) && (act.ClaimJob? ==> w in db.workers && Ranking(db, w, act.config, act.ranked, act.now))
    ensures Inv(Act(db, w, act))
  {
    if act.ClaimJob? {
      ClaimActKeepsInv(db, w, act);
    } else {
      ActKeepsInv(db, w, act);
    }
  }

  lemma ClaimActKeepsInv(db: DB, w: WorkerID, act: WorkerAct)
    requires Inv(db) && act.ClaimJob? && w in db.workers && Ranking(db, w, act.config, act.ranked, act.now)
    ensures Inv(Act(db, w, act))
  {
    RankedClaimKeepsInv(db, w, act.config, act.ranked, act.now, act.duration, act.hash);
  }

  lemma ReapKeepsInv(db: DB, due: seq<AttemptID>, at: Time)
    requires Inv(db)
    ensures Inv(ExpireAll(db, due, at))
  {
    ExpireAllSweeps(db, due, at);
  }

  lemma TimeoutKeepsInv(db: DB, overdue: seq<JobID>, at: Time)
    requires Inv(db) && forall j :: j in overdue ==> j in db.jobs && !db.jobs[j].state.Terminal()
    ensures Inv(TimeOutAll(db, overdue, at))
  {
    TimeOutAllSweeps(db, overdue, at);
  }

  lemma StepKeepsInv(db: DB, l: Label)
    requires Inv(db) && Enabled(db, l)
    ensures Inv(Apply(db, l))
  {
    if OnSessions(l) {
      SessionStepKeepsInv(db, l);
    } else {
      match l
      case Submit(r) => CreateJobKeepsInv(db, r);
      case CancelJob(j, at) => CancelKeepsInv(db, j, at);
      case FromWorker(w, act) => WorkerStepKeepsInv(db, w, act);
      case ExpireLeases(due, at) => ReapKeepsInv(db, due, at);
      case ExpireWorkerLeases(w, due, at) => ReapKeepsInv(db, due, at);
      case TimeoutJobs(overdue, at) => TimeoutKeepsInv(db, overdue, at);
    }
  }

  lemma EmptyInv()
    ensures Inv(EMPTY)
  {
  }

  // What holds at first and is kept by every step holds in every state of a run.
  lemma {:induction false} RunInduction(keep: DB -> bool, states: seq<DB>, labels: seq<Label>, i: nat)
    requires IsRun(states, labels) && i < |states| && keep(EMPTY)
    requires forall db, l :: keep(db) && Enabled(db, l) ==> keep(Apply(db, l))
    ensures keep(states[i])
  {
    if i > 0 {
      RunInduction(keep, states, labels, i - 1);
      assert Follows(states, labels, i - 1);
    }
  }

  /** The invariant holds in every state of every run. */
  lemma Reachable(states: seq<DB>, labels: seq<Label>, i: nat)
    requires IsRun(states, labels) && i < |states|
    ensures Inv(states[i])
  {
    var keep := (db: DB) => Inv(db);
    forall db, l | keep(db) && Enabled(db, l) ensures keep(Apply(db, l)) {
      StepKeepsInv(db, l);
    }
    EmptyInv();
    RunInduction(keep, states, labels, i);
  }
}
