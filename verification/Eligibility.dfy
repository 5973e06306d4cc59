/** What a claim takes: the gate as a condition on the worker and the session, and the best
    of the jobs that suit the worker. */
module Eligibility {
  import opened Domain
  import opened Tables
  import opened Transactions
  import opened Invariants
  import opened Progress
  import opened Protocol
  import opened Safety
  import opened JobSteps
  import opened Steps
  import opened Leasing
  import opened SessionRuns
  import opened Fairness
  import S = Scheduler

  // The gate

  // The session's requirements on its worker.
  predicate Meets(me: WorkerSpec, spec: SessionSpec) {
    && (forall c :: c in spec.caps.capabilities ==> c in me.caps.capabilities)
    && (forall k :: k in spec.caps.labels ==> Domain.Label(me.caps.labels, k) == spec.caps.labels[k])
    && (spec.caps.architecture == "" || me.caps.architecture == spec.caps.architecture)
    && (spec.caps.region == "" || me.caps.region == spec.caps.region)
    && (spec.provider == "" || me.provider == spec.provider)
  }

  /** A job without a session goes to any worker that is not reserved. A session's job goes
      to a worker that meets its requirements: the one that serves the session, any that is
      free for it while it is pending, and, while it recovers, one reserved at its epoch, if
      the job is a rebuild step of this epoch. */
  ghost predicate MayTake(db: DB, w: WorkerID, j: JobID) {
    && w in db.workers && j in db.jobs
    && var me := db.workers[w];
    match db.jobs[j].spec.session
    case None => me.reserved.None?
    case Some(s) =>
      && s in db.sessions
      && var v := db.sessions[s];
      && Meets(me.spec, v.spec)
      && (|| (v.state.SessionActive? && v.worker == Some(w) && v.box == Some(me.spec.box))
          || (v.state.SessionPending? && (me.reserved.None? || me.reserved.value == s))
          || (v.state.SessionRecovering? && me.reserved == Some(s) && me.epoch == v.epoch
              && exists step :: j == Rebuild(s, v.epoch, step)))
  }

  lemma MeetsMeansSatisfies(me: WorkerSpec, spec: SessionSpec)
    ensures var required := Constraints(spec.caps.capabilities, spec.caps.labels, spec.caps.architecture,
                                        spec.caps.region, "", "", "", None, spec.provider, None);
      Meets(me, spec) <==> Satisfies(me.caps, required) && !(spec.provider != "" && me.provider != spec.provider)
  {
  }

  /** The gate of the claim, both ways. */
  lemma GateExactly(db: DB, w: WorkerID, j: JobID)
    requires w in db.workers && j in db.jobs
    ensures GateOf(db, w, j) != Skip <==> MayTake(db, w, j)
    ensures GateOf(db, w, j) == Bind <==>
      MayTake(db, w, j) && db.jobs[j].spec.session.Some? && db.sessions[db.jobs[j].spec.session.value].state.SessionPending?
  {
    var session := db.jobs[j].spec.session;
    if session.Some? && session.value in db.sessions {
      var v := db.sessions[session.value];
      MeetsMeansSatisfies(db.workers[w].spec, v.spec);
      if j.Rebuild? && j.session == session.value && j.epoch == v.epoch {
        assert j == Rebuild(session.value, v.epoch, j.step);
      }
    }
  }

  // Claims

  /** The job is queued, not overdue and not before its retry, and the worker can run it
      and may take it. */
  ghost predicate Suits(db: DB, w: WorkerID, j: JobID, now: Time) {
    && w in db.workers && j in db.jobs
    && var job := db.jobs[j];
    && job.state.JobQueued?
    && (job.spec.timeoutAt.Some? ==> now < job.spec.timeoutAt.value)
    && (job.nextAt.Some? ==> job.nextAt.value <= now)
    && S.CanRun(job.spec.view.want, RequestOf(db, w, now))
    && MayTake(db, w, j)
  }

  lemma RankedExactly(db: DB, w: WorkerID, config: S.Config, ranked: seq<JobID>, now: Time, j: JobID)
    requires w in db.workers && Ranking(db, w, config, ranked, now)
    ensures Suits(db, w, j, now) <==> j in ranked && GateOf(db, w, j) != Skip
  {
    if j in db.jobs {
      GateExactly(db, w, j);
    }
  }

  lemma {:induction false} FirstOpenFound(db: DB, w: WorkerID, ranked: seq<JobID>, j: JobID)
    requires w in db.workers && j in ranked && j in db.jobs && GateOf(db, w, j) != Skip
    ensures FirstOpen(db, w, ranked).Some?
  {
    if ranked[0] != j {
      FirstOpenFound(db, w, ranked[1..], j);
    }
  }

  /** `j` suits the worker, and no other job that does is ahead of it. */
  ghost predicate Best(db: DB, w: WorkerID, config: S.Config, j: JobID, now: Time) {
    && Suits(db, w, j, now)
    && forall k :: Suits(db, w, k, now) ==>
         !S.Before(config, RequestOf(db, w, now), db.jobs[k].spec.view, db.jobs[j].spec.view)
  }

  lemma FirstOpenIsBest(db: DB, w: WorkerID, config: S.Config, ranked: seq<JobID>, now: Time)
    requires w in db.workers && Ranking(db, w, config, ranked, now) && FirstOpen(db, w, ranked).Some?
    ensures Best(db, w, config, FirstOpen(db, w, ranked).value, now)
  {
    var j, r := FirstOpen(db, w, ranked).value, RequestOf(db, w, now);
    RankedExactly(db, w, config, ranked, now, j);
    forall k | Suits(db, w, k, now) ensures !S.Before(config, r, db.jobs[k].spec.view, db.jobs[j].spec.view) {
      RankedExactly(db, w, config, ranked, now, k);
      var n :| 0 <= n < |ranked| && ranked[n] == k;
      FirstOpenIsFirst(db, w, ranked, n);
      var i :| 0 <= i <= n && ranked[i] == j;
      S.BeforeTotal(config, r, db.jobs[k].spec.view, db.jobs[k].spec.view);
    }
  }

  /** Job `j` is leased to `w` for `duration`, under the next number, and takes one slot. */
  ghost predicate LeasedTo(db: DB, db': DB, w: WorkerID, j: JobID, now: Time, duration: int, hash: nat) {
    && w in db.workers && w in db'.workers && j in db.jobs
    && var a := AttemptID(j, MaxNumber(db.attempts.Keys, j) + 1);
    && a !in db.attempts
    && db'.attempts == db.attempts[a := Attempt(w, db.workers[w].spec.box, AttemptLeased, None, None, hash)]
    && db'.leases == db.leases[a := Lease(w, now + duration)]
    && db'.jobs == db.jobs[j := db.jobs[j].(state := JobLeased, updated := now)]
    && db'.workers[w].freeSlots == db.workers[w].freeSlots - 1
    && (forall v :: v in db.workers && v != w ==> v in db'.workers && db'.workers[v] == db.workers[v])
  }

  lemma ClaimLeases(db: DB, w: WorkerID, ranked: seq<JobID>, now: Time, duration: int, hash: nat)
    requires (forall j :: j in ranked ==> j in db.jobs) && Claim(db, w, ranked, now, duration, hash).err == Ok
    ensures LeasedTo(db, Claim(db, w, ranked, now, duration, hash).db, w, FirstOpen(db, w, ranked).value, now, duration, hash)
  {
  }

  // Some job suits the worker exactly when the claim succeeds.
  lemma ClaimSucceeds(db: DB, w: WorkerID, config: S.Config, ranked: seq<JobID>, now: Time, duration: int, hash: nat)
    requires w in db.workers && Capped(db.workers, db.attempts) && Ranking(db, w, config, ranked, now)
    ensures Claim(db, w, ranked, now, duration, hash).err == Ok <==> exists j :: Suits(db, w, j, now)
    ensures Claim(db, w, ranked, now, duration, hash).err != Ok ==> Claim(db, w, ranked, now, duration, hash).db == db
  {
    if j :| Suits(db, w, j, now) {
      RankedExactly(db, w, config, ranked, now, j);
      FirstOpenFound(db, w, ranked, j);
    }
    if Claim(db, w, ranked, now, duration, hash).err == Ok {
      RankedExactly(db, w, config, ranked, now, FirstOpen(db, w, ranked).value);
    }
  }

  lemma RunCapped(states: seq<DB>, labels: seq<Label>, i: nat)
    requires IsRun(states, labels) && i < |states|
    ensures Capped(states[i].workers, states[i].attempts)
  {
    Reachable(states, labels, i);
  }

  /** In every run, the claim of an authenticated worker leases it the best of the jobs
      that suit it, if any does; otherwise it changes nothing. */
  lemma ClaimTakesTheBest(states: seq<DB>, labels: seq<Label>, i: nat)
    requires IsRun(states, labels) && i < |labels| && IsClaim(labels[i]) && Authenticated(states[i], labels[i].w)
    ensures var db, db', w, act := states[i], states[i + 1], labels[i].w, labels[i].act;
      if exists j :: Suits(db, w, j, act.now)
      then exists j :: Best(db, w, act.config, j, act.now) && LeasedTo(db, db', w, j, act.now, act.duration, act.hash)
      else db' == db
  {
    var db, db', w, act := states[i], states[i + 1], labels[i].w, labels[i].act;
    RunCapped(states, labels, i);
    assert Follows(states, labels, i);
    assert db' == Claim(db, w, act.ranked, act.now, act.duration, act.hash).db;
    RankingRespectsLoad(db, w, act.config, act.ranked, act.now);
    ClaimSucceeds(db, w, act.config, act.ranked, act.now, act.duration, act.hash);
    if exists j :: Suits(db, w, j, act.now) {
      var j := FirstOpen(db, w, act.ranked).value;
      FirstOpenIsBest(db, w, act.config, act.ranked, act.now);
      ClaimLeases(db, w, act.ranked, act.now, act.duration, act.hash);
      assert Best(db, w, act.config, j, act.now) && LeasedTo(db, db', w, j, act.now, act.duration, act.hash);
    }
  }

  /** In every run, whenever an attempt is created, its job was due, and its worker and its
      sandbox satisfied the constraints of the job and of the session, and had room. */
  lemma AttemptsAreEligible(states: seq<DB>, labels: seq<Label>, i: nat, a: AttemptID)
    requires IsRun(states, labels) && i < |labels| && a in states[i + 1].attempts && a !in states[i].attempts
    ensures IsClaim(labels[i]) && labels[i].w == states[i + 1].attempts[a].worker && Authenticated(states[i], labels[i].w)
    ensures var db, x, now := states[i], states[i + 1].attempts[a], labels[i].act.now;
      && Suits(db, x.worker, a.job, now)
      && x.box in db.boxes && x.box == db.workers[x.worker].spec.box
      && Satisfies(db.workers[x.worker].spec.caps, db.jobs[a.job].spec.view.want)
      && Satisfies(db.boxes[x.box].caps, db.jobs[a.job].spec.view.want)
  {
    RunGrants(states, labels, i, a);
    var db, l := states[i], labels[i];
    RankedExactly(db, l.w, l.act.config, l.act.ranked, l.act.now, a.job);
  }

  /** Session `s` is active on worker `w`, which is reserved for it at its epoch, like its
      sandbox. */
  predicate BoundTo(db: DB, s: SessionID, w: WorkerID) {
    && s in db.sessions && w in db.workers
    && db.sessions[s].state.SessionActive? && db.sessions[s].worker == Some(w)
    && db.sessions[s].box == Some(db.workers[w].spec.box)
    && db.workers[w].reserved == Some(s) && db.workers[w].epoch == db.sessions[s].epoch
    && db.workers[w].spec.box in db.boxes && db.boxes[db.workers[w].spec.box].reserved == Some(s)
  }

  // The job that a claim takes is of a session that no worker serves yet.
  predicate Pending(db: DB, j: JobID) {
    && j in db.jobs && db.jobs[j].spec.session.Some?
    && db.jobs[j].spec.session.value in db.sessions
    && db.sessions[db.jobs[j].spec.session.value].state.SessionPending?
  }

  lemma ClaimBinds(db: DB, w: WorkerID, ranked: seq<JobID>, now: Time, duration: int, hash: nat)
    requires (forall j :: j in ranked ==> j in db.jobs) && Claim(db, w, ranked, now, duration, hash).err == Ok
    ensures var db', j := Claim(db, w, ranked, now, duration, hash).db, FirstOpen(db, w, ranked).value;
      if Pending(db, j) then BoundTo(db', db.jobs[j].spec.session.value, w)
      else db'.sessions == db.sessions && db'.boxes == db.boxes && db'.workers[w].reserved == db.workers[w].reserved
  {
    GateExactly(db, w, FirstOpen(db, w, ranked).value);
  }

  /** In every run, the claim that takes the first job of a pending session makes the session
      active on this worker and reserves worker and sandbox for it; any other claim changes
      no session, no sandbox and no reservation. */
  lemma FirstClaimBinds(states: seq<DB>, labels: seq<Label>, i: nat, a: AttemptID)
    requires IsRun(states, labels) && i < |labels| && a in states[i + 1].attempts && a !in states[i].attempts
    ensures var db, db', w := states[i], states[i + 1], states[i + 1].attempts[a].worker;
      if Pending(db, a.job) then BoundTo(db', db.jobs[a.job].spec.session.value, w)
      else && db'.sessions == db.sessions && db'.boxes == db.boxes
           && w in db.workers && w in db'.workers && db'.workers[w].reserved == db.workers[w].reserved
  {
    RunGrants(states, labels, i, a);
    var db, l := states[i], labels[i];
    assert states[i + 1] == Claim(db, l.w, l.act.ranked, l.act.now, l.act.duration, l.act.hash).db;
    RankedAreJobs(db, l.w, l.act.config, l.act.ranked, l.act.now);
    ClaimBinds(db, l.w, l.act.ranked, l.act.now, l.act.duration, l.act.hash);
  }

  lemma RankedAreJobs(db: DB, w: WorkerID, config: S.Config, ranked: seq<JobID>, now: Time)
    requires w in db.workers && Ranking(db, w, config, ranked, now)
    ensures forall j :: j in ranked ==> j in db.jobs
  {
  }
}
