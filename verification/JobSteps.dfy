/** Creating, leasing and reporting on jobs keeps the invariant. */
module JobSteps {
  import opened Domain
  import opened Tables
  import opened Transactions
  import opened Invariants
  import opened Settlement
  import opened DependencyGraph
  import opened Endings
  import opened SessionSteps

  // Steps that change no state: events, results, renewals

  lemma SameStatesDependencies(jobs: Jobs, after: Jobs)
    requires Dependencies(jobs) && SameSpecs(jobs, after)
    requires forall j :: j in jobs ==>
      jobs[j].state == after[j].state || (jobs[j].state.JobQueued? && after[j].state.JobLeased?)
    ensures Dependencies(after)
  {
    assert Layered(after) by { KeepsLayered(jobs, after); }
    assert Ordered(after) by { KeepsOrdered(jobs, after); }
    forall j | j in after && after[j].state.JobWaiting? ensures Held(after, j) && Hopeful(after, j, None) {
      assert Held(jobs, j);
      StaysHeld(jobs, after, j);
    }
  }

  // One job row changes, but not its specification or its state.
  lemma NoteKeepsInv(db: DB, j: JobID, row: Job)
    requires Inv(db) && j in db.jobs && row.spec == db.jobs[j].spec && row.state == db.jobs[j].state
    ensures Inv(db.(jobs := db.jobs[j := row]))
  {
    NoteDependencies(db.jobs, j, row);
    NoteSettles(db, j, row);
    ReturnSlotSame(db.workers, db.attempts, 0);
    SettledKeepsInv(db, db.(jobs := db.jobs[j := row]));
  }

  lemma NoteDependencies(jobs: Jobs, j: JobID, row: Job)
    requires Dependencies(jobs) && j in jobs && row.spec == jobs[j].spec && row.state == jobs[j].state
    ensures Dependencies(jobs[j := row])
  {
    SameStatesDependencies(jobs, jobs[j := row]);
  }

  lemma NoteSettles(db: DB, j: JobID, row: Job)
    requires Coherent(db.jobs, db.attempts, db.leases)
    requires j in db.jobs && row.spec == db.jobs[j].spec && row.state == db.jobs[j].state
    ensures Settles(db, db.(jobs := db.jobs[j := row]))
  {
    LeasedAreLive(db);
  }

  // Every leased job has its active attempt.
  lemma LeasedAreLive(db: DB)
    requires Coherent(db.jobs, db.attempts, db.leases)
    ensures forall k :: k in db.jobs && db.jobs[k].state.JobLeased? && Latest(db.attempts, k) in db.attempts ==>
      db.attempts[Latest(db.attempts, k)].state.Active()
    ensures forall k :: k in db.jobs && db.jobs[k].state.JobLeased? && Latest(db.attempts, k) in db.attempts ==>
      !db.attempts[Latest(db.attempts, k)].state.AttemptSucceeded?
  {
    forall k | k in db.jobs && db.jobs[k].state.JobLeased? && Latest(db.attempts, k) in db.attempts
      ensures db.attempts[Latest(db.attempts, k)].state.Active()
    {
      assert Live(db.attempts, Latest(db.attempts, k));
    }
  }

  lemma AppendEventKeepsInv(db: DB, w: WorkerID, a: AttemptID, e: Event)
    requires Inv(db)
    ensures Inv(AppendEvent(db, w, a, e).db)
  {
    AppendEventCases(db, w, a, e);
    if AppendEvent(db, w, a, e).db != db {
      NoteKeepsInv(db, a.job, db.jobs[a.job].(log := db.jobs[a.job].log + [e.(attempt := Some(a))]));
    }
  }

  lemma AppendEventCases(db: DB, w: WorkerID, a: AttemptID, e: Event)
    ensures var db' := AppendEvent(db, w, a, e).db;
      || db' == db
      || (a.job in db.jobs && Live(db.attempts, a)
          && db' == db.(jobs := db.jobs[a.job := db.jobs[a.job].(log := db.jobs[a.job].log + [e.(attempt := Some(a))])]))
  {
  }

  lemma SaveResultKeepsInv(db: DB, w: WorkerID, a: AttemptID, status: int, data: seq<int>)
    requires Inv(db)
    ensures Inv(SaveResult(db, w, a, status, data).db)
  {
    if a.job in db.jobs {
      NoteKeepsInv(db, a.job, db.jobs[a.job].(result := Some(Result(a, status, data))));
    }
  }

  lemma RenewKeepsInv(db: DB, w: WorkerID, a: AttemptID, now: Time, until: Time)
    requires Inv(db)
    ensures Inv(Renew(db, w, a, now, until).db)
  {
    var db' := Renew(db, w, a, now, until).db;
    ReturnSlotSame(db.workers, db.attempts, 0);
    RenewSettles(db, w, a, now, until);
    SettledKeepsInv(db, db');
  }

  lemma RenewSettles(db: DB, w: WorkerID, a: AttemptID, now: Time, until: Time)
    requires Coherent(db.jobs, db.attempts, db.leases)
    ensures var db' := Renew(db, w, a, now, until).db;
      Settles(db, db') && db'.jobs == db.jobs && db'.workers == db.workers && db'.sessions == db.sessions
  {
    RenewedLeases(db, w, a, now, until);
    LeasedAreLive(db);
  }

  lemma RenewedLeases(db: DB, w: WorkerID, a: AttemptID, now: Time, until: Time)
    requires forall b :: b in db.leases <==> Live(db.attempts, b)
    ensures LeasesSettle(db.leases, db.attempts, Renew(db, w, a, now, until).db.leases)
  {
  }

  // CreateJob

  lemma {:induction false} CheckDepsMeans(jobs: Jobs, id: JobID, session: Option<SessionID>, deps: seq<JobID>, seen: set<JobID>)
    requires CheckDeps(jobs, id, session, deps, seen) == Ok
    ensures forall d :: d in deps ==> d in jobs && d != id && jobs[d].spec.session == session
  {
    if deps != [] {
      CheckDepsMeans(jobs, id, session, deps[1..], seen + {deps[0]});
      forall d | d in deps ensures d in jobs && d != id && jobs[d].spec.session == session {
        assert d == deps[0] || d in deps[1..];
      }
    }
  }

  /** Clients do not choose ids, but any key; the recovery controller enqueues exactly the
      steps of the session's plan. */
  predicate Legitimate(db: DB, r: NewJob) {
    match r.id
    case Client(_) => true
    case Rebuild(s, e, i) =>
      && s in db.sessions
      && db.sessions[s].spec.policy.RecoveryRebuild?
      && !db.sessions[s].state.SessionPending?
      && e <= db.sessions[s].epoch
      && i < |db.sessions[s].spec.plan|
      && r.session == Some(s)
      && r.key == Some(RebuildKey(s, e, db.sessions[s].spec.plan[i]))
      && r.deps == (if i == 0 then [] else [Rebuild(s, e, i - 1)])
  }

  // The new row enters at the end of the dependency order.
  ghost predicate Enters(db: DB, id: JobID, row: Job) {
    && id !in db.jobs
    && row.spec.row == |db.jobs|
    && (row.state.JobQueued? || row.state.JobWaiting?)
    && (forall d :: d in row.spec.deps ==>
          d in db.jobs && db.jobs[d].spec.session == row.spec.session && !db.jobs[d].state.Doomed())
    && (row.state.JobQueued? <==> forall d :: d in row.spec.deps ==> db.jobs[d].state.JobSucceeded?)
    && (row.spec.session.Some? ==>
          row.spec.session.value in db.sessions && !db.sessions[row.spec.session.value].state.Terminal())
  }

  lemma CreateJobEnters(db: DB, r: NewJob)
    requires CreateJob(db, r).err == Ok && CreateJob(db, r).db != db
    ensures Enters(db, r.id, NewRow(db, r))
  {
    CheckDepsMeans(db.jobs, r.id, r.session, r.deps, {});
    assert forall d :: d in (set d | d in r.deps) <==> d in r.deps;
  }

  lemma EntersKeepsDependencies(db: DB, id: JobID, row: Job)
    requires Enters(db, id, row) && Dependencies(db.jobs)
    ensures Dependencies(db.jobs[id := row])
  {
    var after := db.jobs[id := row];
    assert |after| == |db.jobs| + 1 by {
      assert after.Keys == db.jobs.Keys + {id};
      assert |after.Keys| == |db.jobs.Keys| + 1;
    }
    assert Layered(after);
    assert Ordered(after);
    EntersKeepsWaiting(db, id, row);
  }

  lemma EntersKeepsWaiting(db: DB, id: JobID, row: Job)
    requires Enters(db, id, row) && Layered(db.jobs) && Waiting(db.jobs)
    ensures Waiting(db.jobs[id := row])
  {
    var after := db.jobs[id := row];
    forall j | j in after && after[j].state.JobWaiting? ensures Held(after, j) && Hopeful(after, j, None) {
      if j != id {
        assert Held(db.jobs, j);
        var d :| d in db.jobs[j].spec.deps && d in db.jobs && !db.jobs[d].state.JobSucceeded?;
        assert d in after[j].spec.deps && !after[d].state.JobSucceeded?;
      } else {
        var d :| d in row.spec.deps && !db.jobs[d].state.JobSucceeded?;
        assert d in after[j].spec.deps && !after[d].state.JobSucceeded?;
      }
    }
  }

  // CreateJob adds one row, or nothing.
  lemma CreateAdds(db: DB, r: NewJob)
    ensures var db' := CreateJob(db, r).db;
      if r.id !in db.jobs && r.id in db'.jobs then db' == db.(jobs := db.jobs[r.id := NewRow(db, r)]) else db' == db
  {
  }

  lemma EntersKeepsNumbered(db: DB, id: JobID, row: Job)
    requires Enters(db, id, row) && Numbered(db.jobs, db.attempts)
    ensures Numbered(db.jobs[id := row], db.attempts)
  {
  }

  lemma EntersKeepsCoherent(db: DB, id: JobID, row: Job)
    requires Enters(db, id, row) && Coherent(db.jobs, db.attempts, db.leases)
    ensures Coherent(db.jobs[id := row], db.attempts, db.leases)
  {
  }

  lemma EntersKeepsCredited(db: DB, id: JobID, row: Job)
    requires Enters(db, id, row) && Credited(db.jobs, db.attempts)
    ensures Credited(db.jobs[id := row], db.attempts)
  {
  }

  // A row carries what its id says.
  ghost predicate OnPlan(sessions: Sessions, id: JobID, spec: JobSpec) {
    && spec.view.id == id
    && (id.Rebuild? ==>
      && id.session in sessions
      && !sessions[id.session].state.SessionPending?
      && spec.session == Some(id.session)
      && sessions[id.session].spec.policy.RecoveryRebuild?
      && id.epoch <= sessions[id.session].epoch
      && id.step < |sessions[id.session].spec.plan|
      && spec.key == Some(RebuildKey(id.session, id.epoch, sessions[id.session].spec.plan[id.step]))
      && spec.deps == (if id.step == 0 then {} else {Rebuild(id.session, id.epoch, id.step - 1)}))
  }

  lemma LegitimateOnPlan(db: DB, r: NewJob)
    requires Legitimate(db, r)
    ensures OnPlan(db.sessions, r.id, NewRow(db, r).spec)
  {
    if r.id.Rebuild? && r.id.step > 0 {
      assert (set d | d in r.deps) == {Rebuild(r.id.session, r.id.epoch, r.id.step - 1)};
    }
  }

  lemma EntersKeepsPlanned(jobs: Jobs, sessions: Sessions, id: JobID, row: Job)
    requires Planned(jobs, sessions) && OnPlan(sessions, id, row.spec) && id !in jobs
    requires forall j :: j in jobs && row.spec.key.Some? ==> jobs[j].spec.key != row.spec.key
    ensures Planned(jobs[id := row], sessions)
  {
  }

  lemma CreateJobKeepsPlanned(db: DB, r: NewJob)
    requires Planned(db.jobs, db.sessions) && Legitimate(db, r)
    requires CreateJob(db, r).err == Ok && CreateJob(db, r).db != db
    ensures Planned(CreateJob(db, r).db.jobs, db.sessions)
  {
    assert r.key.Some? ==> forall j :: j in db.jobs && db.jobs[j].spec.key == r.key ==> j in JobWith(db.jobs, r.key.value);
    LegitimateOnPlan(db, r);
    EntersKeepsPlanned(db.jobs, db.sessions, r.id, NewRow(db, r));
  }

  lemma CreateJobKeepsInv(db: DB, r: NewJob)
    requires Inv(db) && Legitimate(db, r)
    ensures Inv(CreateJob(db, r).db)
  {
    if CreateJob(db, r).err == Ok && CreateJob(db, r).db != db {
      CreateJobEnters(db, r);
      EntersKeepsDependencies(db, r.id, NewRow(db, r));
      EntersKeepsNumbered(db, r.id, NewRow(db, r));
      EntersKeepsCoherent(db, r.id, NewRow(db, r));
      EntersKeepsCredited(db, r.id, NewRow(db, r));
      CreateJobKeepsPlanned(db, r);
      EntersKeepsOwned(db, r.id, NewRow(db, r));
    }
  }

  lemma EntersKeepsOwned(db: DB, id: JobID, row: Job)
    requires Enters(db, id, row) && Owned(db.jobs, db.sessions)
    ensures Owned(db.jobs[id := row], db.sessions)
  {
  }

  // ClaimNextJob

  lemma BindAdvances(db: DB, w: WorkerID, s: SessionID)
    requires Roster(db) && w in db.workers && s in db.sessions
    requires db.sessions[s].state.SessionPending? && (db.workers[w].reserved.None? || db.workers[w].reserved == Some(s))
    ensures Advances(db, BindSession(db, w, s))
  {
    BindKeepsReserved(db, w, s);
    BindKeepsCapped(db, w, s);
  }

  lemma BindKeepsReserved(db: DB, w: WorkerID, s: SessionID)
    requires Reserved(db.workers, db.sessions) && w in db.workers && s in db.sessions
    requires db.sessions[s].state.SessionPending? && (db.workers[w].reserved.None? || db.workers[w].reserved == Some(s))
    ensures var db' := BindSession(db, w, s); Reserved(db'.workers, db'.sessions)
  {
    var db' := BindSession(db, w, s);
    forall t | t in db'.sessions && db'.sessions[t].state.SessionActive? ensures Serves(db'.workers, db'.sessions, t) {
      assert t != s ==> Serves(db.workers, db.sessions, t);
    }
  }

  lemma BindKeepsCapped(db: DB, w: WorkerID, s: SessionID)
    requires Capped(db.workers, db.attempts) && w in db.workers && s in db.sessions
    ensures Capped(BindSession(db, w, s).workers, db.attempts)
  {
  }

  // The worker has a free slot, and runs fewer attempts than it may.
  ghost predicate HasRoom(db: DB, w: WorkerID) {
    && w in db.workers
    && db.workers[w].freeSlots > 0
    && |ActiveOf(db.attempts, w)| < db.workers[w].spec.maxSlots
  }

  lemma MaxNumberGrows(ids: set<AttemptID>, j: JobID)
    ensures var more := ids + {AttemptID(j, MaxNumber(ids, j) + 1)};
      && MaxNumber(more, j) == MaxNumber(ids, j) + 1
      && forall k :: k != j ==> MaxNumber(more, k) == MaxNumber(ids, k)
  {
    var n := MaxNumber(ids, j);
    var more := ids + {AttemptID(j, n + 1)};
    assert IsMaxNumber(more, j, n + 1);
    forall k | k != j ensures MaxNumber(more, k) == MaxNumber(ids, k) {
      assert IsMaxNumber(more, k, MaxNumber(ids, k));
    }
  }

  lemma LatestAfterLease(attempts: Attempts, j: JobID, x: Attempt)
    ensures var a := AttemptID(j, MaxNumber(attempts.Keys, j) + 1);
      && a !in attempts
      && Latest(attempts[a := x], j) == a
      && forall k :: k != j ==> Latest(attempts[a := x], k) == Latest(attempts, k)
  {
    MaxNumberGrows(attempts.Keys, j);
    var a := AttemptID(j, MaxNumber(attempts.Keys, j) + 1);
    assert attempts[a := x].Keys == attempts.Keys + {a};
  }

  lemma TakeLeaseCoherent(db: DB, w: WorkerID, j: JobID, now: Time, duration: int, hash: nat)
    requires Coherent(db.jobs, db.attempts, db.leases) && w in db.workers
    requires j in db.jobs && db.jobs[j].state.JobQueued?
    ensures var db' := TakeLease(db, w, j, now, duration, hash); Coherent(db'.jobs, db'.attempts, db'.leases)
  {
    var db' := TakeLease(db, w, j, now, duration, hash);
    forall b | Live(db'.attempts, b)
      ensures b == Latest(db'.attempts, b.job) && b.job in db'.jobs && db'.jobs[b.job].state.JobLeased?
    {
      TakeLeaseLive(db, w, j, now, duration, hash, b);
    }
    forall k | k in db'.jobs && db'.jobs[k].state.JobLeased? ensures Live(db'.attempts, Latest(db'.attempts, k)) {
      TakeLeaseLatest(db, w, j, now, duration, hash, k);
    }
    TakeLeaseLeases(db, w, j, now, duration, hash);
  }

  lemma TakeLeaseLatest(db: DB, w: WorkerID, j: JobID, now: Time, duration: int, hash: nat, k: JobID)
    requires Coherent(db.jobs, db.attempts, db.leases) && w in db.workers && j in db.jobs && k in db.jobs
    requires k != j ==> db.jobs[k].state.JobLeased?
    ensures var db' := TakeLease(db, w, j, now, duration, hash); Live(db'.attempts, Latest(db'.attempts, k))
  {
    LatestAfterLease(db.attempts, j, Attempt(w, db.workers[w].spec.box, AttemptLeased, None, None, hash));
    if k != j {
      assert Live(db.attempts, Latest(db.attempts, k));
    }
  }

  lemma TakeLeaseLeases(db: DB, w: WorkerID, j: JobID, now: Time, duration: int, hash: nat)
    requires (forall a :: a in db.leases <==> Live(db.attempts, a)) && w in db.workers && j in db.jobs
    requires forall a :: a in db.leases ==> a in db.attempts && db.leases[a].worker == db.attempts[a].worker
    ensures var db' := TakeLease(db, w, j, now, duration, hash);
      && (forall a :: a in db'.leases <==> Live(db'.attempts, a))
      && (forall a :: a in db'.leases ==> a in db'.attempts && db'.leases[a].worker == db'.attempts[a].worker)
  {
  }

  lemma TakeLeaseLive(db: DB, w: WorkerID, j: JobID, now: Time, duration: int, hash: nat, b: AttemptID)
    requires Coherent(db.jobs, db.attempts, db.leases) && w in db.workers && j in db.jobs && db.jobs[j].state.JobQueued?
    requires Live(TakeLease(db, w, j, now, duration, hash).attempts, b)
    ensures var db' := TakeLease(db, w, j, now, duration, hash);
      b == Latest(db'.attempts, b.job) && b.job in db'.jobs && db'.jobs[b.job].state.JobLeased?
  {
    LatestAfterLease(db.attempts, j, Attempt(w, db.workers[w].spec.box, AttemptLeased, None, None, hash));
    if b != AttemptID(j, MaxNumber(db.attempts.Keys, j) + 1) {
      assert Live(db.attempts, b);
    }
  }

  lemma TakeLeaseNumbered(db: DB, w: WorkerID, j: JobID, now: Time, duration: int, hash: nat)
    requires Numbered(db.jobs, db.attempts) && w in db.workers
    requires j in db.jobs && db.jobs[j].state.JobQueued?
    ensures var db' := TakeLease(db, w, j, now, duration, hash); Numbered(db'.jobs, db'.attempts)
  {
    var db' := TakeLease(db, w, j, now, duration, hash);
    var n := MaxNumber(db.attempts.Keys, j);
    assert n > 0 ==> AttemptID(j, n) in db.attempts;
    forall b, m: nat | b in db'.attempts && 1 <= m < b.number ensures AttemptID(b.job, m) in db'.attempts {
      if b !in db.attempts && m < n {
        assert AttemptID(j, n) in db.attempts;
        assert AttemptID(j, m) in db.attempts;
      }
    }
  }

  lemma TakeLeaseCredited(db: DB, w: WorkerID, j: JobID, now: Time, duration: int, hash: nat)
    requires Credited(db.jobs, db.attempts) && w in db.workers
    requires j in db.jobs && db.jobs[j].state.JobQueued?
    ensures var db' := TakeLease(db, w, j, now, duration, hash); Credited(db'.jobs, db'.attempts)
  {
    var db' := TakeLease(db, w, j, now, duration, hash);
    LatestAfterLease(db.attempts, j, Attempt(w, db.workers[w].spec.box, AttemptLeased, None, None, hash));
    forall b | b in db'.attempts && db'.attempts[b].state.AttemptSucceeded?
      ensures b == Latest(db'.attempts, b.job) && b.job in db'.jobs && db'.jobs[b.job].state.JobSucceeded?
    {
      assert b in db.attempts;
    }
  }

  lemma TakeLeaseCapped(db: DB, w: WorkerID, j: JobID, now: Time, duration: int, hash: nat)
    requires Capped(db.workers, db.attempts) && HasRoom(db, w) && j in db.jobs
    ensures var db' := TakeLease(db, w, j, now, duration, hash); Capped(db'.workers, db'.attempts)
  {
    var db' := TakeLease(db, w, j, now, duration, hash);
    var a := AttemptID(j, MaxNumber(db.attempts.Keys, j) + 1);
    LatestAfterLease(db.attempts, j, db'.attempts[a]);
    assert ActiveOf(db'.attempts, w) == ActiveOf(db.attempts, w) + {a};
    forall v | v in db'.workers && v != w ensures ActiveOf(db'.attempts, v) == ActiveOf(db.attempts, v) {
    }
  }

  // A lease changes no specification, session or reservation.
  lemma TakeLeaseOwned(db: DB, w: WorkerID, j: JobID, now: Time, duration: int, hash: nat)
    requires Owned(db.jobs, db.sessions) && w in db.workers && j in db.jobs && db.jobs[j].state.JobQueued?
    ensures Owned(TakeLease(db, w, j, now, duration, hash).jobs, db.sessions)
  {
  }

  lemma TakeLeasePlanned(db: DB, w: WorkerID, j: JobID, now: Time, duration: int, hash: nat)
    requires Planned(db.jobs, db.sessions) && w in db.workers && j in db.jobs
    ensures Planned(TakeLease(db, w, j, now, duration, hash).jobs, db.sessions)
  {
    KeepsPlanned(db.jobs, TakeLease(db, w, j, now, duration, hash).jobs, db.sessions, db.sessions);
  }

  lemma TakeLeaseRest(db: DB, w: WorkerID, j: JobID, now: Time, duration: int, hash: nat)
    requires Reserved(db.workers, db.sessions) && Owned(db.jobs, db.sessions) && Planned(db.jobs, db.sessions)
    requires w in db.workers && j in db.jobs && db.jobs[j].state.JobQueued?
    ensures var db' := TakeLease(db, w, j, now, duration, hash);
      Reserved(db'.workers, db'.sessions) && Owned(db'.jobs, db'.sessions) && Planned(db'.jobs, db'.sessions)
  {
    TakeLeaseReserved(db.workers, db.sessions, w);
    TakeLeaseOwned(db, w, j, now, duration, hash);
    TakeLeasePlanned(db, w, j, now, duration, hash);
  }

  lemma TakeLeaseReserved(workers: Workers, sessions: Sessions, w: WorkerID)
    requires Reserved(workers, sessions) && w in workers
    ensures Reserved(workers[w := workers[w].(freeSlots := workers[w].freeSlots - 1)], sessions)
  {
    var after := workers[w := workers[w].(freeSlots := workers[w].freeSlots - 1)];
    forall t | t in sessions && sessions[t].state.SessionActive? ensures Serves(after, sessions, t) {
      assert Serves(workers, sessions, t);
    }
  }

  lemma TakeLeaseDependencies(db: DB, w: WorkerID, j: JobID, now: Time, duration: int, hash: nat)
    requires Dependencies(db.jobs) && w in db.workers && j in db.jobs && db.jobs[j].state.JobQueued?
    ensures Dependencies(TakeLease(db, w, j, now, duration, hash).jobs)
  {
    SameStatesDependencies(db.jobs, TakeLease(db, w, j, now, duration, hash).jobs);
  }

  lemma TakeLeaseKeepsInv(db: DB, w: WorkerID, j: JobID, now: Time, duration: int, hash: nat)
    requires Inv(db) && HasRoom(db, w) && j in db.jobs && db.jobs[j].state.JobQueued?
    ensures Inv(TakeLease(db, w, j, now, duration, hash))
  {
    TakeLeaseCoherent(db, w, j, now, duration, hash);
    TakeLeaseNumbered(db, w, j, now, duration, hash);
    TakeLeaseCredited(db, w, j, now, duration, hash);
    TakeLeaseCapped(db, w, j, now, duration, hash);
    TakeLeaseRest(db, w, j, now, duration, hash);
    TakeLeaseDependencies(db, w, j, now, duration, hash);
  }

  lemma ClaimKeepsInv(db: DB, w: WorkerID, ranked: seq<JobID>, now: Time, duration: int, hash: nat)
    requires Inv(db)
    requires forall j :: j in ranked ==> j in db.jobs && db.jobs[j].state.JobQueued?
    requires w in db.workers && ranked != [] ==> |ActiveOf(db.attempts, w)| < db.workers[w].spec.maxSlots
    ensures Inv(Claim(db, w, ranked, now, duration, hash).db)
  {
    if Claim(db, w, ranked, now, duration, hash).err == Ok {
      var j := FirstOpen(db, w, ranked).value;
      if GateOf(db, w, j) == Bind {
        var s := db.jobs[j].spec.session.value;
        BindAdvances(db, w, s);
        AdvancesKeepsInv(db, BindSession(db, w, s));
        TakeLeaseKeepsInv(BindSession(db, w, s), w, j, now, duration, hash);
      } else {
        TakeLeaseKeepsInv(db, w, j, now, duration, hash);
      }
    }
  }
}
