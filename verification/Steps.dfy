/** Every step of every run follows the domain's transition tables, and moves
    sessions and reservations forward. */
module Steps {
  import opened Domain
  import opened Tables
  import opened Transactions
  import opened Invariants
  import opened Settlement
  import opened Endings
  import opened SessionSteps
  import opened JobSteps
  import opened Recovery
  import opened Progress
  import opened Fences
  import opened Protocol
  import opened Safety
  import S = Scheduler

  // Jobs and attempts

  /** Job `j` belongs to a session that is closed or lost on the way from `sessions` to
      `sessions'`. */
  predicate Orphaned(jobs: Jobs, j: JobID, sessions: Sessions, sessions': Sessions) {
    && j in jobs && jobs[j].spec.session.Some?
    && var s := jobs[j].spec.session.value;
    && s in sessions && s in sessions' && !sessions[s].state.Terminal() && sessions'[s].state.Terminal()
  }

  // The state of the session decides that of the job, and nothing else changes the job.
  predicate JobDissolves(x: Job, y: Job, orphaned: bool, sessions': Sessions) {
    if orphaned && !x.state.Terminal() && x.spec.session.Some? && x.spec.session.value in sessions' then
      && y == x.(state := y.state, updated := y.updated, log := y.log) && Notes(x, y)
      && y.state == (if sessions'[x.spec.session.value].state.SessionLost? then JobSessionLost else JobCanceled)
    else y == x
  }

  predicate AttemptDissolves(x: Attempt, y: Attempt, orphaned: bool, lost: bool) {
    if orphaned && x.state.Active() then
      && y == x.(state := if lost then AttemptLost else AttemptCanceled, failure := y.failure, endedAt := y.endedAt)
      && y.failure.Some? && !y.failure.value.retryable && y.endedAt.Some?
    else y == x
  }

  predicate IsLost(jobs: Jobs, j: JobID, sessions': Sessions) {
    && j in jobs && jobs[j].spec.session.Some? && jobs[j].spec.session.value in sessions'
    && sessions'[jobs[j].spec.session.value].state.SessionLost?
  }

  /** New jobs may appear. Exactly the unfinished jobs and active attempts of sessions that
      end change, as the end of the session decides. */
  ghost predicate Outgrows(db: DB, db': DB) {
    && (forall j :: j in db.jobs ==>
          j in db'.jobs
          && JobDissolves(db.jobs[j], db'.jobs[j], Orphaned(db.jobs, j, db.sessions, db'.sessions), db'.sessions))
    && (forall s :: s in db.sessions ==> s in db'.sessions)
    && db'.attempts.Keys == db.attempts.Keys
    && (forall a :: a in db.attempts ==>
          AttemptDissolves(db.attempts[a], db'.attempts[a], Orphaned(db.jobs, a.job, db.sessions, db'.sessions),
                           IsLost(db.jobs, a.job, db'.sessions)))
    && (forall j :: j in db'.jobs && j !in db.jobs ==> Entered(db'.jobs[j]))
    && SameSlots(db.workers, db'.workers)
  }

  ghost predicate SameSlots(workers: Workers, workers': Workers) {
    forall w :: w in workers ==>
      w in workers' && workers'[w].freeSlots == workers[w].freeSlots && workers'[w].spec == workers[w].spec
  }

  // A new job, which may have ended with its session already.
  predicate Entered(y: Job) {
    y.result.None? && OnRecord(y) && (y.state.Unstarted() || y.state.JobSessionLost? || y.state.JobCanceled?)
  }

  lemma OutgrowsMoves(db: DB, db': DB)
    requires Outgrows(db, db')
    ensures Moves(db, db')
    ensures forall j :: j in db.jobs ==> JobSwept(db.jobs[j], db'.jobs[j])
  {
  }

  // No session ends, and none that has ended changes.
  ghost predicate SameEnds(sessions: Sessions, sessions': Sessions) {
    forall s :: s in sessions ==>
      && s in sessions'
      && (sessions[s].state.Terminal() <==> sessions'[s].state.Terminal())
      && (sessions[s].state.Terminal() ==> sessions'[s].state == sessions[s].state)
  }

  // Steps that leave jobs and attempts alone.
  lemma SameWorkOutgrows(db: DB, db': DB)
    requires db'.jobs == db.jobs && db'.attempts == db.attempts
    requires SameEnds(db.sessions, db'.sessions) && SameSlots(db.workers, db'.workers)
    ensures Outgrows(db, db')
  {
  }

  lemma QuietSteps(db: DB, s: SessionID, epoch: nat, w: WorkerID, box: BoxID, at: Time)
    ensures SameWork(db, ClaimRecovery(db, s, at).db) && ClaimRecovery(db, s, at).db.leases == db.leases
    ensures SameWork(db, AcknowledgeRecovery(db, s, epoch, w).db)
    ensures SameWork(db, CompleteRecovery(db, s, epoch, w, box).db)
    ensures SameWork(db, FailRecovery(db, s, epoch, at).db)
    ensures SameWork(db, RequestRecovery(db, s, at).db)
  {
    FailSameWork(db, s, epoch, at);
    CompleteSameWork(db, s, epoch, w, box);
    AcknowledgeSameWork(db, s, epoch, w);
    ClaimSameWork(db, s, at);
    RequestSameWork(db, s, at);
  }

  lemma FailSameWork(db: DB, s: SessionID, epoch: nat, at: Time)
    ensures SameWork(db, FailRecovery(db, s, epoch, at).db)
  {
  }

  lemma CompleteSameWork(db: DB, s: SessionID, epoch: nat, w: WorkerID, box: BoxID)
    ensures SameWork(db, CompleteRecovery(db, s, epoch, w, box).db)
  {
  }

  // Only one session changes, and it does not end.
  lemma OneSessionSameWork(db: DB, s: SessionID, v': Session)
    requires s in db.sessions && !db.sessions[s].state.Terminal() && !v'.state.Terminal()
    ensures SameWork(db, db.(sessions := db.sessions[s := v'])) && SameWork(db, db)
  {
  }

  lemma AcknowledgeSameWork(db: DB, s: SessionID, epoch: nat, w: WorkerID)
    ensures SameWork(db, AcknowledgeRecovery(db, s, epoch, w).db)
  {
    if AcknowledgeRecovery(db, s, epoch, w).err == Ok {
      OneSessionSameWork(db, s, AcknowledgeRecovery(db, s, epoch, w).db.sessions[s]);
    }
  }

  lemma ClaimSameWork(db: DB, s: SessionID, at: Time)
    ensures SameWork(db, ClaimRecovery(db, s, at).db) && ClaimRecovery(db, s, at).db.leases == db.leases
  {
    if ClaimRecovery(db, s, at).err == Ok {
      OneSessionSameWork(db, s, ClaimRecovery(db, s, at).db.sessions[s]);
    }
  }

  lemma RequestSameWork(db: DB, s: SessionID, at: Time)
    ensures SameWork(db, RequestRecovery(db, s, at).db)
  {
    if RequestRecovery(db, s, at).err == Ok {
      OneSessionSameWork(db, s, RequestRecovery(db, s, at).db.sessions[s]);
    }
  }

  ghost predicate SameWork(db: DB, db': DB) {
    && db'.jobs == db.jobs && db'.attempts == db.attempts
    && db'.sessions.Keys == db.sessions.Keys && SameEnds(db.sessions, db'.sessions)
    && SameSlots(db.workers, db'.workers)
  }

  lemma FinishOutgrows(db: DB, s: SessionID, to: SessionState, code: string, at: Time)
    requires s in db.sessions && to.Terminal() && Coherent(db.jobs, db.attempts, db.leases)
    ensures Outgrows(db, FinishSession(db, s, to, code, at))
  {
    if db.sessions[s].state.Terminal() {
      SameWorkOutgrows(db, FinishSession(db, s, to, code, at));
    } else {
      FinishDissolvesJobs(db, s, to, code, at);
      FinishDissolvesAttempts(db, s, to, code, at);
      FinishSlots(db, s, to, code, at);
    }
  }

  lemma FinishSlots(db: DB, s: SessionID, to: SessionState, code: string, at: Time)
    requires s in db.sessions
    ensures SameSlots(db.workers, FinishSession(db, s, to, code, at).workers)
  {
  }

  lemma FinishDissolvesJobs(db: DB, s: SessionID, to: SessionState, code: string, at: Time)
    requires s in db.sessions && to.Terminal() && !db.sessions[s].state.Terminal()
    ensures var db' := FinishSession(db, s, to, code, at);
      forall j :: j in db.jobs ==>
        j in db'.jobs
        && JobDissolves(db.jobs[j], db'.jobs[j], Orphaned(db.jobs, j, db.sessions, db'.sessions), db'.sessions)
  {
  }

  lemma FinishDissolvesAttempts(db: DB, s: SessionID, to: SessionState, code: string, at: Time)
    requires s in db.sessions && to.Terminal() && !db.sessions[s].state.Terminal()
    ensures var db' := FinishSession(db, s, to, code, at);
      && db'.attempts.Keys == db.attempts.Keys
      && forall a :: a in db.attempts ==>
           AttemptDissolves(db.attempts[a], db'.attempts[a], Orphaned(db.jobs, a.job, db.sessions, db'.sessions),
                            IsLost(db.jobs, a.job, db'.sessions))
  {
  }

  // The jobs and attempts at both ends are those of `x` and `y`.
  lemma AroundOutgrows(db: DB, x: DB, y: DB, db': DB)
    requires Outgrows(x, y) && SameWork(db, x) && SameWork(y, db')
    ensures Outgrows(db, db')
  {
    forall j ensures Orphaned(db.jobs, j, db.sessions, db'.sessions) == Orphaned(x.jobs, j, x.sessions, y.sessions) {
    }
  }

  lemma TerminalRecoveryOutgrows(db: DB, s: SessionID, epoch: nat, at: Time)
    requires Coherent(db.jobs, db.attempts, db.leases)
    ensures Outgrows(db, TerminalRecovery(db, s, epoch, at).db)
  {
    if TerminalRecovery(db, s, epoch, at).err == Ok {
      var finished := FinishSession(db, s, SessionLost, "recovery_failed", at);
      FinishOutgrows(db, s, SessionLost, "recovery_failed", at);
      AroundOutgrows(db, db, finished, Abandon(finished, s, epoch));
    } else {
      SameWorkOutgrows(db, TerminalRecovery(db, s, epoch, at).db);
    }
  }

  lemma ExtendsOutgrows(db: DB, mid: DB, db': DB)
    requires Coherent(db.jobs, db.attempts, db.leases) && Extends(db, mid) && Outgrows(mid, db')
    ensures Outgrows(db, db')
  {
  }

  lemma ValidateOutgrows(db: DB, s: SessionID, w: WorkerID, at: Time)
    requires Coherent(db.jobs, db.attempts, db.leases) && Matches(db, s, w)
    ensures Outgrows(db, Validate(db, s, w, at).db)
  {
    var epoch, box := db.sessions[s].epoch, db.workers[w].spec.box;
    ValidateCases(db, s, w, at);
    QuietSteps(db, s, epoch, w, box, at);
    QuietSteps(AcknowledgeRecovery(db, s, epoch, w).db, s, epoch, w, box, at);
    var db' := Validate(db, s, w, at).db;
    if db' == TerminalRecovery(db, s, epoch, at).db {
      TerminalRecoveryOutgrows(db, s, epoch, at);
    } else {
      SameWorkOutgrows(db, db');
    }
  }

  // The controller rebuilds session `s` on worker `w`.
  predicate Rebuildable(db: DB, s: SessionID, w: WorkerID) {
    Matches(db, s, w) && db.sessions[s].state.SessionRecovering? && db.sessions[s].spec.policy.RecoveryRebuild?
  }

  lemma AdoptOutgrows(db: DB, s: SessionID, w: WorkerID, at: Time)
    requires Coherent(db.jobs, db.attempts, db.leases)
    requires Rebuildable(db, s, w) ==>
      var work := Enqueued(db, s, at).db;
      Matches(work, s, w) && Coherent(work.jobs, work.attempts, work.leases)
    ensures Outgrows(db, Adopt(db, s, w, at).db)
  {
    var db' := Adopt(db, s, w, at).db;
    AdoptCases(db, s, w, at);
    if db' == db {
      SameWorkOutgrows(db, db');
    } else if db' == CompleteRecovery(db, s, db.sessions[s].epoch, w, db.workers[w].spec.box).db {
      QuietSteps(db, s, db.sessions[s].epoch, w, db.workers[w].spec.box, at);
      SameWorkOutgrows(db, db');
    } else {
      RebuildOutgrows(db, s, w, at);
    }
  }

  lemma RebuildOutgrows(db: DB, s: SessionID, w: WorkerID, at: Time)
    requires Coherent(db.jobs, db.attempts, db.leases) && s in db.sessions && Matches(Enqueued(db, s, at).db, s, w)
    requires var work := Enqueued(db, s, at).db; Coherent(work.jobs, work.attempts, work.leases)
    ensures Outgrows(db, Enqueued(db, s, at).db)
    ensures Outgrows(db, Validate(Enqueued(db, s, at).db, s, w, at).db)
  {
    var mid := Enqueued(db, s, at).db;
    EnqueueExtends(db, s, db.sessions[s].epoch, db.sessions[s].spec.plan, 0, at);
    SameWorkOutgrows(mid, mid);
    ExtendsOutgrows(db, mid, mid);
    ValidateOutgrows(mid, s, w, at);
    ExtendsOutgrows(db, mid, Validate(mid, s, w, at).db);
  }

  lemma EnqueuedCoherent(db: DB, s: SessionID, w: WorkerID, at: Time)
    requires Inv(db) && Rebuildable(db, s, w)
    ensures Matches(Enqueued(db, s, at).db, s, w)
    ensures var work := Enqueued(db, s, at).db; Coherent(work.jobs, work.attempts, work.leases)
  {
    EnqueuedKeepsInv(db, s, w, at);
  }

  lemma ProvisionOutgrows(db: DB, s: SessionID, limit: int, outcome: Outcome, at: Time, retryAt: Time)
    requires Coherent(db.jobs, db.attempts, db.leases)
    ensures Outgrows(db, Provision(db, s, limit, outcome, at, retryAt).db)
  {
    ProvisionCases(db, s, limit, outcome, at, retryAt);
    var t, db' := ClaimRecovery(db, s, at).db, Provision(db, s, limit, outcome, at, retryAt).db;
    QuietSteps(db, s, 0, 0, 0, at);
    if db' != t && s in t.sessions && db' == TerminalRecovery(t, s, t.sessions[s].epoch, at).db {
      TerminalRecoveryOutgrows(t, s, t.sessions[s].epoch, at);
      AroundOutgrows(db, t, db', db');
    } else {
      if s in t.sessions {
        QuietSteps(t, s, t.sessions[s].epoch, 0, 0, retryAt);
      }
      SameWorkOutgrows(db, db');
    }
  }

  lemma SetHealthOutgrows(db: DB, w: WorkerID, status: string, at: Time)
    requires Coherent(db.jobs, db.attempts, db.leases)
    ensures Outgrows(db, SetHealth(db, w, status, at).db)
  {
    var db' := SetHealth(db, w, status, at).db;
    if w in db.workers {
      var hold, marked := db.workers[w].reserved, Marked(db, w, status);
      if hold.Some? && hold.value in db.sessions {
        LossOutgrows(db, marked, hold.value, at);
      }
      SameWorkOutgrows(db, marked);
    }
    SameWorkOutgrows(db, db);
  }

  // The worker's session recovers, or is lost.
  lemma LossOutgrows(db: DB, marked: DB, s: SessionID, at: Time)
    requires Coherent(db.jobs, db.attempts, db.leases) && s in db.sessions
    requires marked == db.(workers := marked.workers) && SameSlots(db.workers, marked.workers)
    ensures Outgrows(db, RequestRecovery(marked, s, at).db)
    ensures Outgrows(db, FinishSession(marked, s, SessionLost, "session_lost", at))
  {
    QuietSteps(marked, s, 0, 0, 0, at);
    SameWorkOutgrows(db, RequestRecovery(marked, s, at).db);
    var lost := FinishSession(marked, s, SessionLost, "session_lost", at);
    FinishOutgrows(marked, s, SessionLost, "session_lost", at);
    AroundOutgrows(db, marked, lost, lost);
  }

  lemma CloseOutgrows(db: DB, s: SessionID, at: Time)
    requires Coherent(db.jobs, db.attempts, db.leases)
    ensures Outgrows(db, CloseSession(db, s, at).db)
  {
    if s in db.sessions {
      FinishOutgrows(db, s, SessionClosed, "session_closed", at);
    } else {
      SameWorkOutgrows(db, CloseSession(db, s, at).db);
    }
  }

  lemma DropOutgrows(db: DB, s: SessionID, retryAt: Time)
    ensures Outgrows(db, DropReplacement(db, s, retryAt).db)
  {
    if s in db.sessions {
      QuietSteps(db, s, db.sessions[s].epoch, 0, 0, retryAt);
    }
    SameWorkOutgrows(db, DropReplacement(db, s, retryAt).db);
  }

  lemma OpenOutgrows(db: DB, s: SessionID, spec: SessionSpec, epoch: nat)
    ensures Outgrows(db, CreateSession(db, s, spec, epoch).db)
  {
    SameWorkOutgrows(db, CreateSession(db, s, spec, epoch).db);
  }

  lemma RegisterOutgrows(db: DB, w: WorkerID, profile: WorkerSpec)
    ensures Outgrows(db, Register(db, w, profile).db)
  {
    SameWorkOutgrows(db, Register(db, w, profile).db);
  }

  lemma RecoverOutgrows(db: DB, s: SessionID, at: Time)
    ensures Outgrows(db, RequestRecovery(db, s, at).db)
  {
    QuietSteps(db, s, 0, 0, 0, at);
    SameWorkOutgrows(db, RequestRecovery(db, s, at).db);
  }

  lemma SessionStepOutgrows(db: DB, l: Label)
    requires Coherent(db.jobs, db.attempts, db.leases) && Enabled(db, l) && OnSessions(l) && !l.AdoptReplacement?
    ensures Outgrows(db, Apply(db, l))
  {
    match l {
      case CloseJobSession(s, at) => CloseOutgrows(db, s, at);
      case Health(w, status, at) => SetHealthOutgrows(db, w, status, at);
      case ProvisionReplacement(s, limit, outcome, at, retryAt) =>
        ProvisionOutgrows(db, s, limit, outcome, at, retryAt);
      case GiveUpReplacement(s, retryAt) => DropOutgrows(db, s, retryAt);
      case OpenSession(s, spec, epoch) => OpenOutgrows(db, s, spec, epoch);
      case RegisterWorker(w, profile) => RegisterOutgrows(db, w, profile);
      case Recover(s, at) => RecoverOutgrows(db, s, at);
      case ChangeSandboxes(boxes) => SameWorkOutgrows(db, db.(boxes := boxes));
    }
  }

  lemma AdoptStepOutgrows(db: DB, s: SessionID, w: WorkerID, at: Time)
    requires Inv(db)
    ensures Outgrows(db, Adopt(db, s, w, at).db)
  {
    if Rebuildable(db, s, w) {
      EnqueuedCoherent(db, s, w, at);
    }
    AdoptOutgrows(db, s, w, at);
  }

  lemma SessionStepMoves(db: DB, l: Label)
    requires Inv(db) && Enabled(db, l) && OnSessions(l)
    ensures Moves(db, Apply(db, l))
  {
    if l.AdoptReplacement? {
      AdoptStepOutgrows(db, l.s, l.w, l.at);
    } else {
      SessionStepOutgrows(db, l);
    }
    OutgrowsMoves(db, Apply(db, l));
  }

  lemma NoteMoves(db: DB, j: JobID, row: Job)
    requires j in db.jobs && row.spec == db.jobs[j].spec && row.state == db.jobs[j].state
    requires db.jobs[j].log <= row.log && row.state.JobLeased?
    ensures Moves(db, db.(jobs := db.jobs[j := row]))
  {
  }

  lemma SameWorkMoves(db: DB, db': DB)
    requires db'.jobs == db.jobs && db'.attempts == db.attempts
    ensures Moves(db, db')
  {
  }

  lemma AppendEventMoves(db: DB, w: WorkerID, a: AttemptID, e: Event)
    requires Coherent(db.jobs, db.attempts, db.leases)
    ensures Moves(db, AppendEvent(db, w, a, e).db)
  {
    if AppendEvent(db, w, a, e).db == db {
      SameWorkMoves(db, db);
    } else {
      assert Live(db.attempts, a);
      NoteMoves(db, a.job, db.jobs[a.job].(log := db.jobs[a.job].log + [e.(attempt := Some(a))]));
    }
  }

  lemma SaveResultMoves(db: DB, w: WorkerID, a: AttemptID, status: int, data: seq<int>)
    requires Coherent(db.jobs, db.attempts, db.leases)
    ensures Moves(db, SaveResult(db, w, a, status, data).db)
  {
    if SaveResult(db, w, a, status, data).err != Ok {
      SameWorkMoves(db, db);
    } else {
      assert Live(db.attempts, a);
      NoteMoves(db, a.job, db.jobs[a.job].(result := Some(Result(a, status, data))));
    }
  }

  lemma TakeLeaseMoves(db: DB, w: WorkerID, j: JobID, now: Time, duration: int, hash: nat)
    requires Coherent(db.jobs, db.attempts, db.leases) && w in db.workers
    requires j in db.jobs && db.jobs[j].state.JobQueued?
    ensures Moves(db, TakeLease(db, w, j, now, duration, hash))
  {
    LatestAfterLease(db.attempts, j, Attempt(w, db.workers[w].spec.box, AttemptLeased, None, None, hash));
    TakeLeaseAccepted(db, w, j, now, duration, hash);
  }

  lemma TakeLeaseAccepted(db: DB, w: WorkerID, j: JobID, now: Time, duration: int, hash: nat)
    requires Coherent(db.jobs, db.attempts, db.leases) && w in db.workers
    requires j in db.jobs && db.jobs[j].state.JobQueued?
    ensures var db', a := TakeLease(db, w, j, now, duration, hash), AttemptID(j, MaxNumber(db.attempts.Keys, j) + 1);
      a in db'.attempts && Accepts(db, a, db'.jobs, db'.attempts, db'.leases)
  {
  }

  // Binding a session to the worker changes no job, attempt or lease.
  lemma ClaimTakes(db: DB, w: WorkerID, ranked: seq<JobID>, now: Time, duration: int, hash: nat)
    requires (forall j :: j in ranked ==> j in db.jobs) && Claim(db, w, ranked, now, duration, hash).err == Ok
    ensures var db' := Claim(db, w, ranked, now, duration, hash).db;
      var taken := TakeLease(db, w, FirstOpen(db, w, ranked).value, now, duration, hash);
      db'.jobs == taken.jobs && db'.attempts == taken.attempts && db'.leases == taken.leases
  {
  }

  lemma ClaimMoves(db: DB, w: WorkerID, ranked: seq<JobID>, now: Time, duration: int, hash: nat)
    requires Coherent(db.jobs, db.attempts, db.leases)
    requires forall j :: j in ranked ==> j in db.jobs && db.jobs[j].state.JobQueued?
    ensures Moves(db, Claim(db, w, ranked, now, duration, hash).db)
  {
    var db' := Claim(db, w, ranked, now, duration, hash).db;
    if Claim(db, w, ranked, now, duration, hash).err == Ok {
      var j := FirstOpen(db, w, ranked).value;
      TakeLeaseMoves(db, w, j, now, duration, hash);
      ClaimTakes(db, w, ranked, now, duration, hash);
    } else {
      SameWorkMoves(db, db');
    }
  }

  // What a worker reports about its attempts, or about itself.
  lemma ReportMoves(db: DB, w: WorkerID, act: WorkerAct)
    requires Sound(db) && !act.ClaimJob?
    ensures Moves(db, Act(db, w, act))
  {
    match act
    case CompleteJob(a, completion, now) => CompleteMoves(db, w, a, completion, now);
    case SendEvent(a, event) => AppendEventMoves(db, w, a, event);
    case SendResult(a, status, data) => SaveResultMoves(db, w, a, status, data);
    case _ => QuietActMoves(db, w, act);
  }

  lemma QuietActMoves(db: DB, w: WorkerID, act: WorkerAct)
    requires act.Beat? || act.RenewLease? || act.AcknowledgeRestore?
    ensures Moves(db, Act(db, w, act))
  {
    if act.AcknowledgeRestore? {
      FailSameWork(db, act.s, act.epoch, act.retryAt);
      AcknowledgeSameWork(db, act.s, act.epoch, w);
    }
    SameWorkMoves(db, Act(db, w, act));
  }

  lemma RankedClaimMoves(db: DB, w: WorkerID, config: S.Config, ranked: seq<JobID>, now: Time, duration: int, hash: nat)
    requires Sound(db) && w in db.workers && Ranking(db, w, config, ranked, now)
    ensures Moves(db, Claim(db, w, ranked, now, duration, hash).db)
  {
    RankingRespectsLoad(db, w, config, ranked, now);
    ClaimMoves(db, w, ranked, now, duration, hash);
  }

  lemma WorkerStepMoves(db: DB, w: WorkerID, act: WorkerAct)
    requires Sound(db) && Enabled(db, FromWorker(w, act))
    ensures Moves(db, Apply(db, FromWorker(w, act)))
  {
    var db' := Apply(db, FromWorker(w, act));
    if !Authenticated(db, w) {
      SameWorkMoves(db, db');
    } else if act.ClaimJob? {
      RankedClaimMoves(db, w, act.config, act.ranked, act.now, act.duration, act.hash);
    } else {
      ReportMoves(db, w, act);
    }
  }

  lemma SubmitMoves(db: DB, r: NewJob)
    ensures Moves(db, CreateJob(db, r).db)
  {
    CreateAdds(db, r);
    SameWorkMoves(db, db);
    if r.id !in db.jobs {
      AddedMoves(db, r.id, NewRow(db, r));
    }
  }

  lemma AddedMoves(db: DB, id: JobID, row: Job)
    requires id !in db.jobs
    ensures Moves(db, db.(jobs := db.jobs[id := row]))
  {
  }

  lemma ReapMoves(db: DB, due: seq<AttemptID>, at: Time)
    requires Inv(db)
    ensures Moves(db, ExpireAll(db, due, at))
  {
    ExpireAllSweeps(db, due, at);
    SweptMoves(db, ExpireAll(db, due, at));
  }

  lemma TimeoutMoves(db: DB, overdue: seq<JobID>, at: Time)
    requires Inv(db) && forall j :: j in overdue ==> j in db.jobs && !db.jobs[j].state.Terminal()
    ensures Moves(db, TimeOutAll(db, overdue, at))
  {
    TimeOutAllSweeps(db, overdue, at);
    SweptMoves(db, TimeOutAll(db, overdue, at));
  }

  /** Refinement: every step moves each job by at most one edge of CanTransition (two
      where it passes through `running`), each attempt by at most one edge of
      CanAttemptTransition, adds only attempts that Job.AddAttempt accepts, and leaves
      terminal jobs exactly as they are. */
  lemma StepMoves(db: DB, l: Label)
    requires Inv(db) && Enabled(db, l)
    ensures Moves(db, Apply(db, l))
  {
    if OnSessions(l) {
      SessionStepMoves(db, l);
    } else {
      match l
      case Submit(r) => SubmitMoves(db, r);
      case CancelJob(j, at) => CancelMoves(db, j, at);
      case FromWorker(w, act) => WorkerStepMoves(db, w, act);
      case ExpireLeases(due, at) => ReapMoves(db, due, at);
      case ExpireWorkerLeases(w, due, at) => ReapMoves(db, due, at);
      case TimeoutJobs(overdue, at) => TimeoutMoves(db, overdue, at);
    }
  }
}
