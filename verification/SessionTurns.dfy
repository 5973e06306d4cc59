/** Which step can do what to a session. */
module SessionTurns {
  import opened Domain
  import opened Tables
  import opened Transactions
  import opened Invariants
  import opened Endings
  import opened SessionSteps
  import opened JobSteps
  import opened Recovery
  import opened Progress
  import opened Fences
  import opened Protocol
  import opened Safety
  import opened Epochs
  import S = Scheduler

  // Epoch, recovery count and acknowledgement are as they were.
  predicate SameCounters(v: Session, v': Session) {
    v'.epoch == v.epoch && v'.recoveries == v.recoveries && v'.acknowledged == v.acknowledged
  }

  predicate Steady(v: Session, v': Session) {
    SameCounters(v, v') && v'.state == v.state && v'.recovery == v.recovery
  }

  predicate GaveUp(v: Session, v': Session) {
    SameCounters(v, v') && v.state.SessionRecovering? && v'.state.SessionRecovering? && v'.recovery.RecoveryFailed?
  }

  predicate Bound(v: Session, v': Session) {
    SameCounters(v, v') && v.state.SessionPending? && v'.state.SessionActive?
  }

  predicate Finished(v: Session, v': Session) {
    SameCounters(v, v') && !v.state.Terminal() && v'.state.Terminal()
  }

  predicate Restarted(v: Session, v': Session) {
    && v'.epoch == v.epoch + 1 && v'.recoveries == v.recoveries && !v'.acknowledged
    && v'.state.SessionRecovering? && (v.state.SessionActive? || v.state.SessionRecovering?)
    && v'.recovery.RecoveryPending?
  }

  predicate Claimed(v: Session, v': Session) {
    && v'.epoch == v.epoch && v'.recoveries == v.recoveries + 1 && v'.acknowledged == v.acknowledged
    && v.state.SessionRecovering? && (v'.state.SessionRecovering? || v'.state.Terminal())
    && (v.recovery.RecoveryPending? || v.recovery.RecoveryFailed?)
    && (v'.recovery.RecoveryProvisioning? || v'.recovery.RecoveryFailed?)
  }

  predicate Acked(v: Session, v': Session) {
    && v'.epoch == v.epoch && v'.recoveries == v.recoveries && v'.acknowledged
    && v.state.SessionRecovering? && v'.state.SessionRecovering? && v'.recovery.RecoveryRestoring?
  }

  predicate Activated(v: Session, v': Session) {
    && v'.epoch == v.epoch && v'.recoveries == v.recoveries && v'.acknowledged
    && v.state.SessionRecovering? && v'.state.SessionActive?
  }

  /** A worker reserved for the session at its epoch acknowledges the restore: by its
      own request, or, for a rebuild, through the controller that met it. */
  predicate Acknowledges(db: DB, l: Label, s: SessionID) {
    && s in db.sessions && db.sessions[s].state.SessionRecovering?
    && ((l.FromWorker? && l.act.AcknowledgeRestore? && l.act.s == s && !l.act.failed && Matches(db, s, l.w))
        || (l.AdoptReplacement? && l.s == s && db.sessions[s].spec.policy.RecoveryRebuild? && Matches(db, s, l.w)))
  }

  /** The recovery of the session is given up until its retry is due: no worker registered
      in time, a worker reports that its restore failed, or the provider refused. */
  predicate GivesUp(db: DB, l: Label, s: SessionID) {
    && s in db.sessions && db.sessions[s].state.SessionRecovering?
    && (|| (l.GiveUpReplacement? && l.s == s)
        || (l.FromWorker? && l.act.AcknowledgeRestore? && l.act.s == s && l.act.failed)
        || (l.ProvisionReplacement? && l.s == s && l.outcome.CreateFailed?))
  }

  // The worker reserved for the session is declared dead.
  predicate LosesWorker(db: DB, l: Label, s: SessionID) {
    l.Health? && l.status == "dead" && l.w in db.workers && db.workers[l.w].reserved == Some(s)
  }

  /** The session is closed on request. It is lost with its worker if it has no recovery
      policy, and when a rebuild job has ended without success. */
  predicate EndedBy(db: DB, l: Label, s: SessionID, v': Session)
    requires s in db.sessions
  {
    || (l.CloseJobSession? && l.s == s && v'.state.SessionClosed?)
    || (LosesWorker(db, l, s) && db.sessions[s].spec.policy.RecoveryNone? && v'.state.SessionLost?)
    || (l.AdoptReplacement? && l.s == s && Matches(db, s, l.w) && db.sessions[s].state.SessionRecovering? && v'.state.SessionLost?)
  }

  /** All that a step can do to a session, and which step it takes. */
  predicate Turn(db: DB, l: Label, s: SessionID, v': Session)
    requires s in db.sessions
  {
    var v := db.sessions[s];
    || Steady(v, v')
    || (Bound(v, v') && l.FromWorker? && l.act.ClaimJob?)
    || (Finished(v, v') && EndedBy(db, l, s, v'))
    || (Restarted(v, v') && ((l.Recover? && l.s == s) || LosesWorker(db, l, s)) && !v.spec.policy.RecoveryNone?)
    || (GaveUp(v, v') && GivesUp(db, l, s))
    || (Claimed(v, v') && l.ProvisionReplacement? && l.s == s
        && (v'.state.SessionRecovering? && v'.recovery.RecoveryFailed? ==> GivesUp(db, l, s))
        && (v.recoveryAfter.Some? ==> v.recoveryAfter.value <= l.at)
        && (v'.state.Terminal() <==> v'.state.SessionLost?)
        && (v'.state.Terminal() <==> 0 < l.limit <= v.recoveries))
    || (Acked(v, v') && Acknowledges(db, l, s))
    || (Activated(v, v') && l.AdoptReplacement? && l.s == s && Matches(db, s, l.w)
        && (v.acknowledged || Acknowledges(db, l, s)))
  }

  // Every session that `db` knows takes a turn of label `l`.
  ghost predicate Turns(db: DB, l: Label, sessions': Sessions) {
    forall s :: s in db.sessions ==> s in sessions' && Turn(db, l, s, sessions'[s])
  }

  lemma StillTurns(db: DB, l: Label, db': DB)
    requires db'.sessions == db.sessions
    ensures Turns(db, l, db'.sessions)
  {
  }

  lemma FinishTurns(db: DB, mid: DB, l: Label, s: SessionID, to: SessionState, code: string, at: Time)
    requires mid.sessions == db.sessions && s in db.sessions && to.Terminal()
    requires (l.CloseJobSession? && l.s == s && to.SessionClosed?)
      || (LosesWorker(db, l, s) && to.SessionLost? && db.sessions[s].spec.policy.RecoveryNone?)
    ensures Turns(db, l, FinishSession(mid, s, to, code, at).sessions)
  {
  }

  lemma CloseTurns(db: DB, l: Label)
    requires l.CloseJobSession?
    ensures Turns(db, l, Apply(db, l).sessions)
  {
    StillTurns(db, l, db);
    if l.s in db.sessions {
      FinishTurns(db, db, l, l.s, SessionClosed, "session_closed", l.at);
    }
  }

  lemma OpenTurns(db: DB, l: Label)
    requires l.OpenSession?
    ensures Turns(db, l, Apply(db, l).sessions)
  {
  }

  lemma RecoverTurns(db: DB, l: Label)
    requires l.Recover?
    ensures Turns(db, l, Apply(db, l).sessions)
  {
    StillTurns(db, l, db);
    if l.s in db.sessions {
      RestartTurns(db, db, l, l.s);
    }
  }

  lemma HealthTurns(db: DB, l: Label)
    requires l.Health?
    ensures Turns(db, l, Apply(db, l).sessions)
  {
    StillTurns(db, l, db);
    if l.w in db.workers && db.workers[l.w].reserved.Some? && db.workers[l.w].reserved.value in db.sessions {
      var s, marked := db.workers[l.w].reserved.value, Marked(db, l.w, l.status);
      if l.status == "dead" {
        if db.sessions[s].spec.policy.RecoveryNone? {
          FinishTurns(db, marked, l, s, SessionLost, "session_lost", l.at);
        } else {
          RestartTurns(db, marked, l, s);
        }
      }
    }
  }

  lemma RestartTurns(db: DB, mid: DB, l: Label, s: SessionID)
    requires mid.sessions == db.sessions && s in db.sessions && (LosesWorker(db, l, s) || (l.Recover? && l.s == s))
    ensures Turns(db, l, RequestRecovery(mid, s, l.at).db.sessions)
  {
  }

  lemma ProvisionTurns(db: DB, l: Label)
    requires l.ProvisionReplacement?
    ensures Turns(db, l, Apply(db, l).sessions)
  {
    ProvisionCases(db, l.s, l.limit, l.outcome, l.at, l.retryAt);
    var t := ClaimRecovery(db, l.s, l.at);
    if t.err == Ok {
      if WithinBudget(l.limit, t.db.sessions[l.s].recoveries) {
        ClaimedTurns(db, t.db, l);
        ClaimedThenFailed(db, t.db, l);
      } else {
        ClaimedThenLost(db, t.db, l);
      }
    } else {
      StillTurns(db, l, db);
      assert Apply(db, l) == db;
    }
  }

  lemma ClaimedTurns(db: DB, t: DB, l: Label)
    requires l.ProvisionReplacement? && l.s in db.sessions && t == ClaimRecovery(db, l.s, l.at).db && t != db
    requires WithinBudget(l.limit, t.sessions[l.s].recoveries)
    ensures Turns(db, l, t.sessions)
  {
  }

  lemma ClaimedThenLost(db: DB, t: DB, l: Label)
    requires l.ProvisionReplacement? && l.s in db.sessions && t == ClaimRecovery(db, l.s, l.at).db && t != db
    requires !WithinBudget(l.limit, t.sessions[l.s].recoveries)
    ensures Turns(db, l, TerminalRecovery(t, l.s, t.sessions[l.s].epoch, l.at).db.sessions)
  {
  }

  lemma ClaimedThenFailed(db: DB, t: DB, l: Label)
    requires l.ProvisionReplacement? && l.s in db.sessions && t == ClaimRecovery(db, l.s, l.at).db && t != db
    requires WithinBudget(l.limit, t.sessions[l.s].recoveries)
    ensures l.outcome.CreateFailed? ==> Turns(db, l, FailRecovery(t, l.s, t.sessions[l.s].epoch, l.retryAt).db.sessions)
  {
  }

  lemma DropTurns(db: DB, l: Label)
    requires l.GiveUpReplacement?
    ensures Turns(db, l, Apply(db, l).sessions)
  {
  }

  lemma AckTurns(db: DB, w: WorkerID, act: WorkerAct)
    requires act.AcknowledgeRestore?
    ensures Turns(db, FromWorker(w, act), Act(db, w, act).sessions)
  {
  }

  lemma ClaimTurns(db: DB, w: WorkerID, act: WorkerAct)
    requires act.ClaimJob? && forall j :: j in act.ranked ==> j in db.jobs
    ensures Turns(db, FromWorker(w, act), Act(db, w, act).sessions)
  {
  }

  // The session while the controller meets its replacement; no other session changes.
  lemma ValidateTurns(db: DB, mid: DB, l: Label)
    requires l.AdoptReplacement? && Matches(mid, l.s, l.w) && Matches(db, l.s, l.w)
    requires mid.sessions == db.sessions && db.sessions[l.s].state.SessionRecovering?
    requires db.sessions[l.s].spec.policy.RecoveryRebuild?
    ensures Turns(db, l, Validate(mid, l.s, l.w, l.at).db.sessions)
  {
    ValidateCases(mid, l.s, l.w, l.at);
    StillTurns(db, l, mid);
    LostTurns(db, mid, l);
    MetTurns(db, mid, l);
  }

  lemma LostTurns(db: DB, mid: DB, l: Label)
    requires l.AdoptReplacement? && mid.sessions == db.sessions && Matches(db, l.s, l.w)
    ensures Turns(db, l, TerminalRecovery(mid, l.s, db.sessions[l.s].epoch, l.at).db.sessions)
  {
  }

  // Acknowledged, activated, or both.
  lemma MetTurns(db: DB, mid: DB, l: Label)
    requires l.AdoptReplacement? && Matches(mid, l.s, l.w) && Matches(db, l.s, l.w)
    requires mid.sessions == db.sessions && db.sessions[l.s].state.SessionRecovering?
    requires db.sessions[l.s].spec.policy.RecoveryRebuild?
    ensures var epoch, box := db.sessions[l.s].epoch, mid.workers[l.w].spec.box;
      var acked := AcknowledgeRecovery(mid, l.s, epoch, l.w).db;
      && Turns(db, l, acked.sessions)
      && Turns(db, l, CompleteRecovery(mid, l.s, epoch, l.w, box).db.sessions)
      && Turns(db, l, CompleteRecovery(acked, l.s, epoch, l.w, box).db.sessions)
  {
  }

  lemma AdoptTurns(db: DB, l: Label)
    requires l.AdoptReplacement?
    ensures Turns(db, l, Apply(db, l).sessions)
  {
    AdoptCases(db, l.s, l.w, l.at);
    if Matches(db, l.s, l.w) && db.sessions[l.s].state.SessionRecovering? {
      var mid := Enqueued(db, l.s, l.at).db;
      EnqueueExtends(db, l.s, db.sessions[l.s].epoch, db.sessions[l.s].spec.plan, 0, l.at);
      if db.sessions[l.s].spec.policy.RecoveryRebuild? {
        ValidateTurns(db, mid, l);
      }
    }
  }

  lemma ActTurns(db: DB, w: WorkerID, act: WorkerAct)
    requires act.ClaimJob? ==> forall j :: j in act.ranked ==> j in db.jobs
    ensures Turns(db, FromWorker(w, act), Act(db, w, act).sessions)
  {
    match act
    case AcknowledgeRestore(_, _, _, _) => AckTurns(db, w, act);
    case ClaimJob(_, _, _, _, _) => ClaimTurns(db, w, act);
    case _ => StillTurns(db, FromWorker(w, act), Act(db, w, act));
  }

  lemma SessionStepTurns(db: DB, l: Label)
    requires OnSessions(l)
    ensures Turns(db, l, Apply(db, l).sessions)
  {
    match l
    case OpenSession(_, _, _) => OpenTurns(db, l);
    case Recover(_, _) => RecoverTurns(db, l);
    case CloseJobSession(_, _) => CloseTurns(db, l);
    case Health(_, _, _) => HealthTurns(db, l);
    case AdoptReplacement(_, _, _) => AdoptTurns(db, l);
    case ProvisionReplacement(_, _, _, _, _) => ProvisionTurns(db, l);
    case GiveUpReplacement(_, _) => DropTurns(db, l);
    case RegisterWorker(w, profile) => StillTurns(db, l, Register(db, w, profile).db);
    case ChangeSandboxes(boxes) => StillTurns(db, l, db.(boxes := boxes));
  }

  lemma SweepTurns(db: DB, l: Label)
    requires Inv(db) && Enabled(db, l) && (l.ExpireLeases? || l.ExpireWorkerLeases? || l.TimeoutJobs?)
    ensures Turns(db, l, Apply(db, l).sessions)
  {
    match l {
      case ExpireLeases(due, at) => ReapSameSessions(db, due, at);
      case ExpireWorkerLeases(_, due, at) => ReapSameSessions(db, due, at);
      case TimeoutJobs(overdue, at) => TimeoutSameSessions(db, overdue, at);
    }
    StillTurns(db, l, Apply(db, l));
  }

  lemma ReapSameSessions(db: DB, due: seq<AttemptID>, at: Time)
    requires Inv(db)
    ensures ExpireAll(db, due, at).sessions == db.sessions
  {
    ExpireAllSameRoster(db, due, at);
  }

  lemma TimeoutSameSessions(db: DB, overdue: seq<JobID>, at: Time)
    requires Inv(db) && forall j :: j in overdue ==> j in db.jobs && !db.jobs[j].state.Terminal()
    ensures TimeOutAll(db, overdue, at).sessions == db.sessions
  {
    TimeOutAllSameRoster(db, overdue, at);
  }

  lemma ClientTurns(db: DB, l: Label)
    requires Enabled(db, l) && (l.Submit? || l.CancelJob?)
    ensures Turns(db, l, Apply(db, l).sessions)
  {
    match l
    case Submit(r) => StillTurns(db, l, CreateJob(db, r).db);
    case CancelJob(j, at) => StillTurns(db, l, Cancel(db, j, at).db);
  }

  lemma WorkerStepTurns(db: DB, w: WorkerID, act: WorkerAct)
    requires Enabled(db, FromWorker(w, act))
    ensures Turns(db, FromWorker(w, act), Apply(db, FromWorker(w, act)).sessions)
  {
    StillTurns(db, FromWorker(w, act), db);
    ActTurns(db, w, act);
  }

  lemma StepTurns(db: DB, l: Label)
    requires Inv(db) && Enabled(db, l)
    ensures Turns(db, l, Apply(db, l).sessions)
  {
    if OnSessions(l) {
      SessionStepTurns(db, l);
    } else {
      match l
      case Submit(r) => ClientTurns(db, l);
      case CancelJob(j, at) => ClientTurns(db, l);
      case FromWorker(w, act) => WorkerStepTurns(db, w, act);
      case ExpireLeases(_, _) => SweepTurns(db, l);
      case ExpireWorkerLeases(_, _, _) => SweepTurns(db, l);
      case TimeoutJobs(_, _) => SweepTurns(db, l);
    }
  }

  // Sessions come into being in one way only.

  lemma SessionStepKnown(db: DB, l: Label)
    requires OnSessions(l) && !l.OpenSession?
    ensures Apply(db, l).sessions.Keys == db.sessions.Keys
  {
    if l.AdoptReplacement? {
      AdoptKnown(db, l);
    } else if l.ProvisionReplacement? {
      ProvisionKnown(db, l.s, l.limit, l.outcome, l.at, l.retryAt);
    }
  }

  lemma ProvisionKnown(db: DB, s: SessionID, limit: int, outcome: Outcome, at: Time, retryAt: Time)
    ensures Provision(db, s, limit, outcome, at, retryAt).db.sessions.Keys == db.sessions.Keys
  {
    ProvisionCases(db, s, limit, outcome, at, retryAt);
    var t := ClaimRecovery(db, s, at);
    assert t.db.sessions.Keys == db.sessions.Keys;
    if t.err == Ok {
      ClaimedKnown(t.db, s, at, retryAt);
    }
  }

  lemma ClaimedKnown(db: DB, s: SessionID, at: Time, retryAt: Time)
    requires s in db.sessions
    ensures TerminalRecovery(db, s, db.sessions[s].epoch, at).db.sessions.Keys == db.sessions.Keys
    ensures FailRecovery(db, s, db.sessions[s].epoch, retryAt).db.sessions.Keys == db.sessions.Keys
  {
  }

  lemma AdoptKnown(db: DB, l: Label)
    requires l.AdoptReplacement?
    ensures Apply(db, l).sessions.Keys == db.sessions.Keys
  {
    AdoptCases(db, l.s, l.w, l.at);
    if Matches(db, l.s, l.w) {
      var mid := Enqueued(db, l.s, l.at).db;
      EnqueueExtends(db, l.s, db.sessions[l.s].epoch, db.sessions[l.s].spec.plan, 0, l.at);
      ValidateKnown(mid, l.s, l.w, l.at);
    }
  }

  lemma ValidateKnown(db: DB, s: SessionID, w: WorkerID, at: Time)
    requires Matches(db, s, w)
    ensures Validate(db, s, w, at).db.sessions.Keys == db.sessions.Keys
  {
    ValidateCases(db, s, w, at);
  }

  lemma WorkerStepKnown(db: DB, w: WorkerID, act: WorkerAct)
    requires Enabled(db, FromWorker(w, act))
    ensures Apply(db, FromWorker(w, act)).sessions.Keys == db.sessions.Keys
  {
  }

  lemma ClientKnown(db: DB, l: Label)
    requires Enabled(db, l) && (l.Submit? || l.CancelJob?)
    ensures Apply(db, l).sessions.Keys == db.sessions.Keys
  {
  }

  lemma KnownSessions(db: DB, l: Label)
    requires Inv(db) && Enabled(db, l) && !l.OpenSession?
    ensures Apply(db, l).sessions.Keys == db.sessions.Keys
  {
    if OnSessions(l) {
      SessionStepKnown(db, l);
    } else {
      match l
      case Submit(r) => ClientKnown(db, l);
      case CancelJob(j, at) => ClientKnown(db, l);
      case FromWorker(w, act) => WorkerStepKnown(db, w, act);
      case ExpireLeases(due, at) => ReapSameSessions(db, due, at);
      case ExpireWorkerLeases(w, due, at) => ReapSameSessions(db, due, at);
      case TimeoutJobs(overdue, at) => TimeoutSameSessions(db, overdue, at);
    }
  }

  // Which steps end a session

  /** The step ends session `s`: it closes it, declares the worker of a session without a
      recovery policy dead, or claims a recovery whose budget is used up. */
  predicate EndsSession(db: DB, l: Label, s: SessionID)
    requires s in db.sessions
  {
    var v := db.sessions[s];
    || (l.CloseJobSession? && l.s == s)
    || (LosesWorker(db, l, s) && v.spec.policy.RecoveryNone?)
    || (&& l.ProvisionReplacement? && l.s == s && v.state.SessionRecovering?
        && (v.recovery.RecoveryPending? || v.recovery.RecoveryFailed?)
        && (v.recoveryAfter.Some? ==> v.recoveryAfter.value <= l.at)
        && 0 < l.limit <= v.recoveries)
  }

  lemma EndsWhenTold(db: DB, l: Label, s: SessionID)
    requires s in db.sessions && !db.sessions[s].state.Terminal() && EndsSession(db, l, s)
    ensures s in Apply(db, l).sessions && Apply(db, l).sessions[s].state == if l.CloseJobSession? then SessionClosed else SessionLost
  {
    if l.ProvisionReplacement? {
      ProvisionCases(db, s, l.limit, l.outcome, l.at, l.retryAt);
    }
  }

  lemma OnlyEndsWhenTold(db: DB, l: Label, s: SessionID)
    requires Inv(db) && Enabled(db, l) && s in db.sessions && !db.sessions[s].state.Terminal() && !l.AdoptReplacement?
    ensures s in Apply(db, l).sessions && (Apply(db, l).sessions[s].state.Terminal() ==> EndsSession(db, l, s))
  {
    StepTurns(db, l);
    TurnOnlyEnds(db, l, s, Apply(db, l).sessions[s]);
  }

  lemma TurnOnlyEnds(db: DB, l: Label, s: SessionID, v': Session)
    requires s in db.sessions && !db.sessions[s].state.Terminal() && !l.AdoptReplacement? && Turn(db, l, s, v')
    ensures v'.state.Terminal() ==> EndsSession(db, l, s)
  {
  }
}
