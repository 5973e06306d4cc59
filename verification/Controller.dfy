/** The code that drives the store: ranking for a claim, and the recovery controller. */
module Controller {
  import opened Domain
  import opened Tables
  import opened Invariants
  import opened SessionSteps
  import T = Transactions
  import R = Recovery
  import opened Promises
  import Protocol
  import S = Scheduler
  import St = Store

  // Ranking

  // Each row is ranked under its own id.
  ghost predicate Named(jobs: Jobs) {
    forall j :: j in jobs ==> jobs[j].spec.view.id == j
  }

  // `ids` lists the rows that the claim reads, in any order.
  ghost predicate Lists(jobs: Jobs, ids: seq<JobID>, now: Time) {
    Protocol.NoRepeats(ids) && forall j :: j in ids <==> j in jobs && Protocol.Queued(jobs[j], now)
  }

  function Views(jobs: Jobs, ids: seq<JobID>): (r: seq<Candidate>)
    requires forall j :: j in ids ==> j in jobs
    ensures |r| == |ids| && forall i :: 0 <= i < |ids| ==> r[i] == jobs[ids[i]].spec.view
  {
    if ids == [] then [] else Views(jobs, ids[..|ids| - 1]) + [jobs[ids[|ids| - 1]].spec.view]
  }

  lemma ViewsDistinct(jobs: Jobs, ids: seq<JobID>)
    requires Named(jobs) && Protocol.NoRepeats(ids) && forall j :: j in ids ==> j in jobs
    ensures S.DistinctJobs(Views(jobs, ids))
  {
    forall i, j | 0 <= i < j < |ids| ensures Views(jobs, ids)[i].id != Views(jobs, ids)[j].id {
      assert ids[i] in ids && ids[j] in ids;
    }
  }

  lemma ViewOf(jobs: Jobs, ids: seq<JobID>, c: Candidate)
    requires forall j :: j in ids ==> j in jobs
    ensures c in Views(jobs, ids) <==> exists j :: j in ids && jobs[j].spec.view == c
  {
    if c in Views(jobs, ids) {
      var i :| 0 <= i < |ids| && Views(jobs, ids)[i] == c;
      assert ids[i] in ids;
    }
    if j :| j in ids && jobs[j].spec.view == c {
      var i :| 0 <= i < |ids| && ids[i] == j;
      assert Views(jobs, ids)[i] == c;
    }
  }

  // What the scheduler ranks is what the claim may take.
  lemma RankedViews(jobs: Jobs, ids: seq<JobID>, p: S.Config, r: S.Request, views: seq<Candidate>, c: Candidate)
    requires (forall j :: j in ids ==> j in jobs) && S.IsRanking(p, r, Views(jobs, ids), views)
    ensures c in views <==> (exists j :: j in ids && jobs[j].spec.view == c) && S.CanRun(c.want, r)
  {
    S.RankedExactly(p, r, Views(jobs, ids), views, c);
    ViewOf(jobs, ids, c);
  }

  /** Reading the scheduler's ranking back as jobs gives the ranking of the claim. */
  lemma RankingReadBack(db: DB, w: WorkerID, p: S.Config, now: Time, ids: seq<JobID>, views: seq<Candidate>, ranked: seq<JobID>)
    requires w in db.workers && Named(db.jobs) && Lists(db.jobs, ids, now)
    requires S.IsRanking(p, Protocol.RequestOf(db, w, now), Views(db.jobs, ids), views)
    requires |ranked| == |views|
    requires forall i :: 0 <= i < |ranked| ==> ranked[i] in ids && db.jobs[ranked[i]].spec.view == views[i]
    ensures Protocol.Ranking(db, w, p, ranked, now)
  {
    var r := Protocol.RequestOf(db, w, now);
    forall i, k | 0 <= i < k < |ranked|
      ensures ranked[i] != ranked[k] && !S.Before(p, r, db.jobs[ranked[k]].spec.view, db.jobs[ranked[i]].spec.view)
    {
      assert S.Before(p, r, views[i], views[k]);
      S.BeforeTotal(p, r, views[i], views[k]);
    }
    forall j ensures j in ranked <==>
      j in db.jobs && Protocol.Queued(db.jobs[j], now) && S.CanRun(db.jobs[j].spec.view.want, r)
    {
      if j in db.jobs {
        RankedViews(db.jobs, ids, p, r, views, db.jobs[j].spec.view);
        if db.jobs[j].spec.view in views && j in ids {
          var i :| 0 <= i < |views| && views[i] == db.jobs[j].spec.view;
          assert ranked[i] in db.jobs;
          assert ranked[i] == j;
        }
        if j in ranked {
          var i :| 0 <= i < |ranked| && ranked[i] == j;
          assert views[i] in views;
        }
      }
    }
  }

  method ReadBack(jobs: Jobs, ids: seq<JobID>, views: seq<Candidate>) returns (ranked: seq<JobID>)
    requires forall j :: j in ids ==> j in jobs
    requires forall c :: c in views ==> exists j :: j in ids && jobs[j].spec.view == c
    ensures |ranked| == |views|
    ensures forall i :: 0 <= i < |ranked| ==> ranked[i] in ids && jobs[ranked[i]].spec.view == views[i]
  {
    ranked := [];
    while |ranked| < |views|
      invariant |ranked| <= |views|
      invariant forall i :: 0 <= i < |ranked| ==> ranked[i] in ids && jobs[ranked[i]].spec.view == views[i]
    {
      var c := views[|ranked|];
      assert c in views;
      var j :| j in ids && jobs[j].spec.view == c;
      ranked := ranked + [j];
    }
  }

  /** The ranking that a claim follows: `ids` is what the queue query returned. */
  method RankQueue(store: St.Store, w: WorkerID, p: S.Config, now: Time, ids: seq<JobID>) returns (ranked: seq<JobID>)
    requires w in store.workers && Named(store.jobs) && Lists(store.jobs, ids, now)
    ensures Protocol.Ranking(store.Db(), w, p, ranked, now)
  {
    ViewsDistinct(store.jobs, ids);
    var request := Protocol.RequestOf(store.Db(), w, now);
    var views := S.Rank(p, request, Views(store.jobs, ids));
    forall c | c in views ensures exists j :: j in ids && store.jobs[j].spec.view == c {
      RankedViews(store.jobs, ids, p, request, views, c);
    }
    ranked := ReadBack(store.jobs, ids, views);
    RankingReadBack(store.Db(), w, p, now, ids, views, ranked);
  }

  // Recovery

  class RecoveryController {
    const store: St.Store

    constructor (store: St.Store)
      ensures this.store == store
    {
      this.store := store;
    }

    /** Creates the jobs of the session's rebuild plan, each depending on the one before. */
    method EnqueueRebuild(s: SessionID, at: Time) returns (err: Error)
      requires s in store.sessions
      modifies store
      ensures Tx(store.Db(), err) == R.Enqueued(old(store.Db()), s, at)
    {
      var epoch, plan := store.sessions[s].epoch, store.sessions[s].spec.plan;
      var i := 0;
      while i < |plan|
        invariant 0 <= i <= |plan|
        invariant R.Enqueue(store.Db(), s, epoch, plan, i, at) == R.Enqueue(old(store.Db()), s, epoch, plan, 0, at)
      {
        err := store.CreateJob(R.RebuildRequest(s, epoch, plan, i, at));
        if err == NotFound {
          return;
        }
        i := i + 1;
      }
      return Ok;
    }

    // The loop of rebuildValidated over the session's jobs.
    method InspectRebuild(s: SessionID, epoch: nat) returns (doomed: bool, complete: bool)
      ensures doomed == R.RebuildDoomed(store.jobs, s, epoch)
      ensures !doomed ==> complete == R.RebuildDone(store.jobs, s, epoch)
    {
      doomed, complete := false, true;
      var todo := store.jobs.Keys;
      while todo != {}
        invariant todo <= store.jobs.Keys
        invariant forall j :: j in store.jobs && j !in todo && R.InRebuild(store.jobs, s, epoch, j) ==>
          !store.jobs[j].state.Doomed()
        invariant complete <==> forall j :: j in store.jobs && j !in todo && R.InRebuild(store.jobs, s, epoch, j) ==>
          store.jobs[j].state.JobSucceeded?
        decreases todo
      {
        var j :| j in todo;
        if R.InRebuild(store.jobs, s, epoch, j) {
          if store.jobs[j].state.Doomed() {
            return true, complete;
          }
          if !store.jobs[j].state.JobSucceeded? {
            complete := false;
          }
        }
        todo := todo - {j};
      }
    }

    method Validate(s: SessionID, w: WorkerID, at: Time) returns (err: Error)
      requires s in store.sessions && w in store.workers
      modifies store
      ensures Tx(store.Db(), err) == R.Validate(old(store.Db()), s, w, at)
    {
      var v := store.sessions[s];
      var box := store.workers[w].spec.box;
      var doomed, complete := InspectRebuild(s, v.epoch);
      if doomed {
        err := store.TerminalRecovery(s, v.epoch, at);
        return;
      }
      if !complete {
        return Ok;
      }
      if !v.acknowledged {
        err := store.AcknowledgeRecovery(s, v.epoch, w);
        if err != Ok {
          return;
        }
      }
      err := store.CompleteRecovery(s, v.epoch, w, box);
    }

    /** The controller meets a worker that is reserved for a recovering session. */
    method AdoptReplacement(s: SessionID, w: WorkerID, at: Time) returns (err: Error)
      modifies store
      ensures Tx(store.Db(), err) == R.Adopt(old(store.Db()), s, w, at)
      ensures Inv(old(store.Db())) ==> Inv(store.Db())
    {
      ghost var before := store.Db();
      err := Adopt(s, w, at);
      if Inv(before) {
        R.AdoptKeepsInv(before, s, w, at);
      }
    }

    method Adopt(s: SessionID, w: WorkerID, at: Time) returns (err: Error)
      modifies store
      ensures Tx(store.Db(), err) == R.Adopt(old(store.Db()), s, w, at)
    {
      if !Matches(store.Db(), s, w) || !store.sessions[s].state.SessionRecovering? {
        return Conflict;
      }
      if store.sessions[s].spec.policy.RecoveryRebuild? {
        err := EnqueueRebuild(s, at);
        if err != Ok || s !in store.sessions || w !in store.workers {
          return;
        }
        err := Validate(s, w, at);
        return;
      }
      if !store.sessions[s].acknowledged {
        return Ok;
      }
      err := store.CompleteRecovery(s, store.sessions[s].epoch, w, store.workers[w].spec.box);
    }

    /** The controller claims the recovery and asks the provider for a replacement. */
    method ProvisionReplacement(s: SessionID, limit: int, outcome: R.Outcome, at: Time, retryAt: Time) returns (err: Error)
      modifies store
      ensures Tx(store.Db(), err) == R.Provision(old(store.Db()), s, limit, outcome, at, retryAt)
      ensures Inv(old(store.Db())) ==> Inv(store.Db())
      ensures limit > 0 && err == Ok ==> InBudget(store.Db(), s, limit)
    {
      ghost var before := store.Db();
      err := Provision(s, limit, outcome, at, retryAt);
      if limit > 0 && err == Ok {
        ProvisionInBudget(before, s, limit, outcome, at, retryAt);
      }
      if Inv(before) {
        R.ProvisionKeepsInv(before, s, limit, outcome, at, retryAt);
      }
    }

    method Provision(s: SessionID, limit: int, outcome: R.Outcome, at: Time, retryAt: Time) returns (err: Error)
      modifies store
      ensures Tx(store.Db(), err) == R.Provision(old(store.Db()), s, limit, outcome, at, retryAt)
    {
      err := store.ClaimRecovery(s, at);
      if err != Ok {
        return;
      }
      var v := store.sessions[s];
      if limit > 0 && v.recoveries > limit {
        err := store.TerminalRecovery(s, v.epoch, at);
        return;
      }
      match outcome
      case Created(id, box) =>
        var hold := Some(s);
        if id in store.boxes {
          hold := store.boxes[id].reserved;
        }
        store.boxes := store.boxes[id := box.(reserved := hold)];
      case CreateFailed => err := store.FailRecovery(s, v.epoch, retryAt);
      case Aborted =>
    }

    /** A replacement that never registered is given up. */
    method GiveUpReplacement(s: SessionID, retryAt: Time) returns (err: Error)
      modifies store
      ensures Tx(store.Db(), err) == R.DropReplacement(old(store.Db()), s, retryAt)
      ensures Inv(old(store.Db())) ==> Inv(store.Db())
      ensures err == Ok ==>
        Unmatched(store.Db(), s) && forall at :: T.ClaimRecovery(store.Db(), s, at).err == Ok <==> retryAt <= at
    {
      if s !in store.sessions || !store.sessions[s].state.SessionRecovering?
         || !(store.sessions[s].recovery.RecoveryProvisioning? || store.sessions[s].recovery.RecoveryRestoring?) {
        return Conflict;
      }
      if w :| w in store.workers && Matches(store.Db(), s, w) {
        return Conflict;
      }
      err := store.FailRecovery(s, store.sessions[s].epoch, retryAt);
    }
  }
}
