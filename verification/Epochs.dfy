/** Every step moves sessions and reservations forward. */
module Epochs {
  import opened Domain
  import opened Tables
  import opened Transactions
  import opened Invariants
  import opened Settlement
  import opened Endings
  import opened SessionSteps
  import opened JobSteps
  import opened Recovery
  import opened Progress
  import opened Fences
  import opened Protocol
  import opened Safety
  import S = Scheduler

  lemma SameGuards(db: DB, db': DB)
    requires db'.sessions == db.sessions && db'.workers == db.workers
    ensures Guards(db, db')
  {
  }

  // Guards looks at sessions and workers only.
  lemma AlikeGuards(db: DB, x: DB, y: DB)
    requires Guards(db, x) && y.sessions == x.sessions && y.workers == x.workers
    ensures Guards(db, y)
  {
  }

  // Endings

  ghost predicate SameRoster(db: DB, db': DB) {
    db'.sessions == db.sessions && SameWorkers(db.workers, db'.workers)
  }

  lemma SameWorkersTransitive(x: Workers, y: Workers, z: Workers)
    requires SameWorkers(x, y) && SameWorkers(y, z)
    ensures SameWorkers(x, z)
  {
  }

  lemma ExpireSameRoster(db: DB, a: AttemptID, now: Time)
    requires Base(db)
    ensures SameRoster(db, Expire(db, a, now))
  {
    if Live(db.attempts, a) {
      var row := ExpireEnds(db, a, now);
    }
  }

  lemma {:induction false} ExpireAllSameRoster(db: DB, ids: seq<AttemptID>, now: Time)
    requires Inv(db)
    ensures SameRoster(db, ExpireAll(db, ids, now))
    decreases |ids|
  {
    if ids != [] {
      var init := ExpireAll(db, ids[..|ids| - 1], now);
      ExpireAllSameRoster(db, ids[..|ids| - 1], now);
      assert Base(init) by { ExpireAllSweeps(db, ids[..|ids| - 1], now); }
      ExpireSameRoster(init, ids[|ids| - 1], now);
      SameWorkersTransitive(db.workers, init.workers, ExpireAll(db, ids, now).workers);
    }
  }

  lemma TimeOutSameRoster(db: DB, j: JobID, now: Time)
    requires Base(db) && j in db.jobs && !db.jobs[j].state.JobSucceeded?
    ensures SameRoster(db, TimeOut(db, j, now))
  {
    var row, active := TimeOutEnds(db, j, now);
  }

  lemma TimeOutAllLeaves(db: DB, ids: seq<JobID>, now: Time, j: JobID)
    requires Inv(db) && forall k :: k in ids ==> k in db.jobs && !db.jobs[k].state.Terminal()
    requires j in db.jobs && !db.jobs[j].state.Terminal()
    ensures var db' := TimeOutAll(db, ids, now); Base(db') && !db'.jobs[j].state.JobSucceeded?
  {
    TimeOutAllSweeps(db, ids, now);
  }

  lemma {:induction false} TimeOutAllSameRoster(db: DB, ids: seq<JobID>, now: Time)
    requires Inv(db) && forall j :: j in ids ==> j in db.jobs && !db.jobs[j].state.Terminal()
    ensures SameRoster(db, TimeOutAll(db, ids, now))
    decreases |ids|
  {
    if ids != [] {
      var init := TimeOutAll(db, ids[..|ids| - 1], now);
      TimeOutAllSameRoster(db, ids[..|ids| - 1], now);
      TimeOutAllLeaves(db, ids[..|ids| - 1], now, ids[|ids| - 1]);
      TimeOutSameRoster(init, ids[|ids| - 1], now);
      SameWorkersTransitive(db.workers, init.workers, TimeOutAll(db, ids, now).workers);
    }
  }

  lemma CancelGuards(db: DB, j: JobID, at: Time)
    ensures Guards(db, Cancel(db, j, at).db)
  {
    SameGuards(db, Cancel(db, j, at).db);
  }

  // Workers

  lemma SlotGuards(db: DB, w: WorkerID, slots: int, report: Report)
    requires w in db.workers
    ensures Guards(db, db.(workers := db.workers[w := db.workers[w].(freeSlots := slots, report := report)]))
  {
  }

  lemma CompleteGuards(db: DB, w: WorkerID, a: AttemptID, c: Completion, at: Time)
    ensures Guards(db, Complete(db, w, a, c, at).db)
  {
    var db' := Complete(db, w, a, c, at).db;
    if w in db.workers && db'.workers != db.workers {
      SlotGuards(db, w, db'.workers[w].freeSlots, db.workers[w].report);
      AlikeGuards(db, db.(workers := db'.workers), db');
    } else {
      SameGuards(db, db');
    }
  }

  lemma HeartbeatGuards(db: DB, w: WorkerID, freeSlots: int, reported: seq<AttemptID>, report: Report)
    ensures Guards(db, Heartbeat(db, w, freeSlots, reported, report).db)
  {
    var db' := Heartbeat(db, w, freeSlots, reported, report).db;
    if db' == db {
      SameGuards(db, db);
    } else {
      SlotGuards(db, w, db'.workers[w].freeSlots, report);
      assert db' == db.(workers := db.workers[w := db.workers[w].(freeSlots := db'.workers[w].freeSlots, report := report)]);
    }
  }

  lemma TakeLeaseGuards(db: DB, w: WorkerID, j: JobID, now: Time, duration: int, hash: nat)
    requires w in db.workers && j in db.jobs
    ensures Guards(db, TakeLease(db, w, j, now, duration, hash))
  {
    SlotGuards(db, w, db.workers[w].freeSlots - 1, db.workers[w].report);
    var mid := db.(workers := db.workers[w := db.workers[w].(freeSlots := db.workers[w].freeSlots - 1, report := db.workers[w].report)]);
    AlikeGuards(db, mid, TakeLease(db, w, j, now, duration, hash));
  }

  // A pending session is bound only by a worker without a reservation.
  lemma BindsFree(db: DB, w: WorkerID, j: JobID)
    requires Reserved(db.workers, db.sessions) && w in db.workers && j in db.jobs && GateOf(db, w, j) == Bind
    ensures db.jobs[j].spec.session.Some?
    ensures var s := db.jobs[j].spec.session.value;
      s in db.sessions && db.sessions[s].state.SessionPending? && db.workers[w].reserved.None?
  {
  }

  lemma ClaimGuards(db: DB, w: WorkerID, ranked: seq<JobID>, now: Time, duration: int, hash: nat)
    requires Reserved(db.workers, db.sessions) && forall j :: j in ranked ==> j in db.jobs
    ensures Guards(db, Claim(db, w, ranked, now, duration, hash).db)
  {
    var db' := Claim(db, w, ranked, now, duration, hash).db;
    if Claim(db, w, ranked, now, duration, hash).err == Ok {
      var j := FirstOpen(db, w, ranked).value;
      if GateOf(db, w, j) == Bind {
        BindsFree(db, w, j);
        var bound := BindSession(db, w, db.jobs[j].spec.session.value);
        BindGuards(db, w, db.jobs[j].spec.session.value);
        TakeLeaseGuards(bound, w, j, now, duration, hash);
        GuardsTransitive(db, bound, db');
      } else {
        TakeLeaseGuards(db, w, j, now, duration, hash);
      }
    } else {
      SameGuards(db, db');
    }
  }

  lemma ActGuards(db: DB, w: WorkerID, act: WorkerAct)
    requires Reserved(db.workers, db.sessions) && (act.ClaimJob? ==> forall j :: j in act.ranked ==> j in db.jobs)
    ensures Guards(db, Act(db, w, act))
  {
    match act
    case Beat(freeSlots, reported, report) => HeartbeatGuards(db, w, freeSlots, reported, report);
    case ClaimJob(_, ranked, now, duration, hash) => ClaimGuards(db, w, ranked, now, duration, hash);
    case CompleteJob(a, completion, now) => CompleteGuards(db, w, a, completion, now);
    case AcknowledgeRestore(s, epoch, failed, retryAt) => AckStepGuards(db, w, s, epoch, failed, retryAt);
    case _ => SilentActGuards(db, w, act);
  }

  lemma SilentActGuards(db: DB, w: WorkerID, act: WorkerAct)
    requires act.RenewLease? || act.SendEvent? || act.SendResult?
    ensures Guards(db, Act(db, w, act))
  {
    SameGuards(db, Act(db, w, act));
  }

  lemma AckStepGuards(db: DB, w: WorkerID, s: SessionID, epoch: nat, failed: bool, retryAt: Time)
    ensures Guards(db, Acknowledge(db, w, s, epoch, failed, retryAt).db)
  {
    SameGuards(db, db);
    FailRecoveryGuards(db, s, epoch, retryAt);
    AcknowledgeGuards(db, s, epoch, w);
  }

  // Controllers

  lemma ValidateGuards(db: DB, s: SessionID, w: WorkerID, at: Time)
    requires Reserved(db.workers, db.sessions) && Matches(db, s, w)
    ensures Guards(db, Validate(db, s, w, at).db)
  {
    ValidateCases(db, s, w, at);
    var epoch := db.sessions[s].epoch;
    var acked := AcknowledgeRecovery(db, s, epoch, w).db;
    SameGuards(db, db);
    TerminalRecoveryGuards(db, s, epoch, at);
    CompleteRecoveryGuards(db, s, w);
    AcknowledgeGuards(db, s, epoch, w);
    AcknowledgedMatches(db, s, w);
    CompleteRecoveryGuards(acked, s, w);
    GuardsTransitive(db, acked, CompleteRecovery(acked, s, epoch, w, db.workers[w].spec.box).db);
  }

  lemma AdoptGuards(db: DB, s: SessionID, w: WorkerID, at: Time)
    requires Reserved(db.workers, db.sessions)
    ensures Guards(db, Adopt(db, s, w, at).db)
  {
    AdoptCases(db, s, w, at);
    SameGuards(db, db);
    if Matches(db, s, w) {
      CompleteRecoveryGuards(db, s, w);
      var mid := Enqueued(db, s, at).db;
      EnqueueExtends(db, s, db.sessions[s].epoch, db.sessions[s].spec.plan, 0, at);
      SameGuards(db, mid);
      ValidateGuards(mid, s, w, at);
      GuardsTransitive(db, mid, Validate(mid, s, w, at).db);
    }
  }

  lemma ProvisionGuards(db: DB, s: SessionID, limit: int, outcome: Outcome, at: Time, retryAt: Time)
    requires Roster(db)
    ensures Guards(db, Provision(db, s, limit, outcome, at, retryAt).db)
  {
    var t, db' := ClaimRecovery(db, s, at).db, Provision(db, s, limit, outcome, at, retryAt).db;
    ProvisionCases(db, s, limit, outcome, at, retryAt);
    assert Reserved(t.workers, t.sessions) by { ClaimRecoveryAdvances(db, s, at); }
    ClaimRecoveryGuards(db, s, at);
    SameGuards(t, t);
    if s in t.sessions {
      TerminalRecoveryGuards(t, s, t.sessions[s].epoch, at);
      FailRecoveryGuards(t, s, t.sessions[s].epoch, retryAt);
    }
    if outcome.Created? {
      SameGuards(t, Reserve(t, s, outcome.id, outcome.box));
    }
    GuardsTransitive(db, t, db');
  }

  lemma SetHealthGuards(db: DB, w: WorkerID, status: string, at: Time)
    requires Roster(db)
    ensures Guards(db, SetHealth(db, w, status, at).db)
  {
    if w !in db.workers {
      SameGuards(db, db);
    } else {
      var marked := Marked(db, w, status);
      SlotGuards(db, w, db.workers[w].freeSlots, marked.workers[w].report);
      AlikeGuards(db, db.(workers := db.workers[w := db.workers[w].(freeSlots := db.workers[w].freeSlots, report := marked.workers[w].report)]), marked);
      assert Reserved(marked.workers, marked.sessions) by { MarkedAdvances(db, w, status); }
      SameGuards(marked, marked);
      var hold := db.workers[w].reserved;
      if hold.Some? && hold.value in db.sessions {
        RequestRecoveryGuards(marked, hold.value, at);
        FinishGuards(marked, hold.value, SessionLost, "session_lost", at);
      }
      GuardsTransitive(db, marked, SetHealth(db, w, status, at).db);
    }
  }

  lemma CloseGuards(db: DB, s: SessionID, at: Time)
    requires Reserved(db.workers, db.sessions)
    ensures Guards(db, CloseSession(db, s, at).db)
  {
    SameGuards(db, db);
    if s in db.sessions {
      FinishGuards(db, s, SessionClosed, "session_closed", at);
    }
  }

  lemma DropGuards(db: DB, s: SessionID, retryAt: Time)
    ensures Guards(db, DropReplacement(db, s, retryAt).db)
  {
    SameGuards(db, db);
    if s in db.sessions {
      FailRecoveryGuards(db, s, db.sessions[s].epoch, retryAt);
    }
  }

  lemma SessionStepGuards(db: DB, l: Label)
    requires Roster(db) && Enabled(db, l) && OnSessions(l)
    ensures Guards(db, Apply(db, l))
  {
    match l
    case OpenSession(s, spec, epoch) => CreateSessionGuards(db, s, spec, epoch);
    case CloseJobSession(s, at) => CloseGuards(db, s, at);
    case Recover(s, at) => RequestRecoveryGuards(db, s, at);
    case RegisterWorker(w, profile) => RegisterGuards(db, w, profile);
    case Health(w, status, at) => SetHealthGuards(db, w, status, at);
    case AdoptReplacement(s, w, at) => AdoptGuards(db, s, w, at);
    case ProvisionReplacement(s, limit, outcome, at, retryAt) => ProvisionGuards(db, s, limit, outcome, at, retryAt);
    case GiveUpReplacement(s, retryAt) => DropGuards(db, s, retryAt);
    case ChangeSandboxes(boxes) => SameGuards(db, Apply(db, l));
  }

  lemma WorkerStepGuards(db: DB, w: WorkerID, act: WorkerAct)
    requires Roster(db) && Enabled(db, FromWorker(w, act))
    ensures Guards(db, Apply(db, FromWorker(w, act)))
  {
    SameGuards(db, db);
    ActGuards(db, w, act);
  }

  lemma SubmitGuards(db: DB, r: NewJob)
    ensures Guards(db, CreateJob(db, r).db)
  {
    SameGuards(db, CreateJob(db, r).db);
  }

  lemma ReapGuards(db: DB, due: seq<AttemptID>, at: Time)
    requires Inv(db)
    ensures Guards(db, ExpireAll(db, due, at))
  {
    ExpireAllSameRoster(db, due, at);
    SameSessionsGuards(db, ExpireAll(db, due, at));
  }

  lemma TimeoutGuards(db: DB, overdue: seq<JobID>, at: Time)
    requires Inv(db) && forall j :: j in overdue ==> j in db.jobs && !db.jobs[j].state.Terminal()
    ensures Guards(db, TimeOutAll(db, overdue, at))
  {
    TimeOutAllSameRoster(db, overdue, at);
    SameSessionsGuards(db, TimeOutAll(db, overdue, at));
  }

  /** Every step keeps epochs and recovery counts growing, ended sessions ended, the
      worker of an active session in place, and a stale reservation stale. */
  lemma StepGuards(db: DB, l: Label)
    requires Inv(db) && Enabled(db, l)
    ensures Guards(db, Apply(db, l))
  {
    if OnSessions(l) {
      SessionStepGuards(db, l);
    } else {
      match l
      case Submit(r) => SubmitGuards(db, r);
      case CancelJob(j, at) => CancelGuards(db, j, at);
      case FromWorker(w, act) => WorkerStepGuards(db, w, act);
      case ExpireLeases(due, at) => ReapGuards(db, due, at);
      case ExpireWorkerLeases(w, due, at) => ReapGuards(db, due, at);
      case TimeoutJobs(overdue, at) => TimeoutGuards(db, overdue, at);
    }
  }
}
