/** How the end of one job reaches the jobs that depend on it. */
module DependencyGraph {
  import opened Domain
  import opened Tables
  import opened Transactions
  import opened Invariants
  import opened Settlement

  // Waiting jobs are in order, except that `root` may just have ended.
  ghost predicate WaitingBut(jobs: Jobs, root: JobID) {
    forall j {:trigger Held(jobs, j)} :: j in jobs && jobs[j].state.JobWaiting? ==>
      Held(jobs, j) && Hopeful(jobs, j, Some(root))
  }

  ghost predicate WaitingOrReleased(jobs: Jobs, root: JobID) {
    forall j {:trigger Held(jobs, j)} :: j in jobs && jobs[j].state.JobWaiting? ==>
      Hopeful(jobs, j, None) && (Held(jobs, j) || root in jobs[j].spec.deps)
  }

  /** Only waiting jobs are downstream of a job that did not succeed. */
  lemma DownstreamWaits(jobs: Jobs, root: JobID, j: JobID)
    requires Ordered(jobs)
    requires root in jobs && !jobs[root].state.JobSucceeded?
    requires j in jobs && Downstream(jobs, root, j)
    ensures jobs[j].state.JobWaiting?
  {
    var d :| d in jobs[j].spec.deps && DownstreamVia(jobs, root, j, d);
    if d != root {
      assert Downstream(jobs, root, d);
    }
  }

  ghost predicate SameSpecs(jobs: Jobs, after: Jobs) {
    after.Keys == jobs.Keys && forall j :: j in jobs ==> after[j].spec == jobs[j].spec
  }

  lemma KeepsLayered(jobs: Jobs, after: Jobs)
    requires Layered(jobs) && SameSpecs(jobs, after)
    ensures Layered(after)
  {
    assert |jobs.Keys| == |jobs| && |after.Keys| == |after|;
  }

  // Succeeded jobs stay so, and no job starts but one whose dependencies have succeeded.
  lemma KeepsOrdered(jobs: Jobs, after: Jobs)
    requires Layered(jobs) && Ordered(jobs) && SameSpecs(jobs, after)
    requires forall j :: j in jobs && jobs[j].state.JobSucceeded? ==> after[j].state.JobSucceeded?
    requires forall j, d :: j in jobs && d in jobs[j].spec.deps && Started(after[j].state) && !Started(jobs[j].state) ==>
      d in jobs && jobs[d].state.JobSucceeded?
    ensures Ordered(after)
  {
  }

  lemma StaysHeld(jobs: Jobs, after: Jobs, j: JobID)
    requires SameSpecs(jobs, after) && j in jobs && Held(jobs, j)
    requires forall d :: d in jobs && after[d].state.JobSucceeded? ==> jobs[d].state.JobSucceeded?
    ensures Held(after, j)
  {
    var d :| d in jobs[j].spec.deps && d in jobs && !jobs[d].state.JobSucceeded?;
    assert d in after[j].spec.deps && d in after && !after[d].state.JobSucceeded?;
  }

  /** Failing everything downstream of a doomed job leaves no waiting job without hope. */
  lemma FailDownstreamRestores(jobs: Jobs, root: JobID, at: Time)
    requires Layered(jobs) && Ordered(jobs) && WaitingBut(jobs, root)
    requires root in jobs && jobs[root].state.Doomed()
    ensures Dependencies(FailDownstream(jobs, root, at))
  {
    var after := FailDownstream(jobs, root, at);
    assert Layered(after) by { KeepsLayered(jobs, after); }
    assert Ordered(after) by { KeepsOrdered(jobs, after); }
    forall j | j in after && after[j].state.JobWaiting?
      ensures Held(after, j) && Hopeful(after, j, None)
    {
      assert Held(jobs, j);
      OutOfReach(jobs, root, at, j);
    }
  }

  // A job that stays waiting has no dependency that failed.
  lemma OutOfReach(jobs: Jobs, root: JobID, at: Time, j: JobID)
    requires Layered(jobs) && j in jobs && Held(jobs, j) && Hopeful(jobs, j, Some(root))
    requires jobs[j].state.JobWaiting? && !Downstream(jobs, root, j)
    ensures Held(FailDownstream(jobs, root, at), j) && Hopeful(FailDownstream(jobs, root, at), j, None)
  {
    StaysHeld(jobs, FailDownstream(jobs, root, at), j);
    forall d | d in jobs[j].spec.deps ensures d in jobs && d != root && !Downstream(jobs, root, d) {
      assert !DownstreamVia(jobs, root, j, d);
    }
  }

  /** Queueing the jobs that a success releases leaves no waiting job without a reason. */
  lemma PromoteRestores(jobs: Jobs, root: JobID, at: Time)
    requires Layered(jobs) && Ordered(jobs) && WaitingOrReleased(jobs, root)
    ensures Dependencies(Promote(jobs, root, at))
  {
    var after := Promote(jobs, root, at);
    KeepsLayered(jobs, after);
    PromoteKeepsOrdered(jobs, root, at);
    forall j | j in after && after[j].state.JobWaiting?
      ensures Held(after, j) && Hopeful(after, j, None)
    {
      var held := Held(jobs, j);
      PromoteLeavesHeld(jobs, root, at, j);
    }
  }

  lemma PromoteKeepsOrdered(jobs: Jobs, root: JobID, at: Time)
    requires Layered(jobs) && Ordered(jobs)
    ensures Ordered(Promote(jobs, root, at))
  {
    var after := Promote(jobs, root, at);
    forall j, d | j in jobs && d in jobs[j].spec.deps && Started(after[j].state) && !Started(jobs[j].state)
      ensures d in jobs && jobs[d].state.JobSucceeded?
    {
      assert Released(jobs, root, j);
    }
    KeepsOrdered(jobs, after);
  }

  lemma PromoteLeavesHeld(jobs: Jobs, root: JobID, at: Time, j: JobID)
    requires Layered(jobs) && j in jobs && jobs[j].state.JobWaiting? && Hopeful(jobs, j, None)
    requires Held(jobs, j) || root in jobs[j].spec.deps
    requires !Released(jobs, root, j)
    ensures Held(Promote(jobs, root, at), j) && Hopeful(Promote(jobs, root, at), j, None)
  {
    StaysHeld(jobs, Promote(jobs, root, at), j);
  }

  /** Ending job `root` as `row`, and then what that does to its dependents. */
  lemma EndRestores(jobs: Jobs, root: JobID, row: Job, at: Time)
    requires Dependencies(jobs)
    requires root in jobs && row.spec == jobs[root].spec
    requires jobs[root].state.JobSucceeded? ==> row.state.JobSucceeded?
    requires row.state.Terminal() || (row.state.JobQueued? && !jobs[root].state.Terminal())
    requires Started(row.state) ==> Started(jobs[root].state)
    ensures Dependencies(Settle(jobs[root := row], root, at))
  {
    var next := jobs[root := row];
    KeepsLayered(jobs, next);
    KeepsOrdered(jobs, next);
    if row.state.JobSucceeded? {
      SuccessReleases(jobs, root, row);
      PromoteRestores(next, root, at);
    } else {
      EndLeavesWaiting(jobs, root, row);
      if row.state.Terminal() {
        FailDownstreamRestores(next, root, at);
      }
    }
  }

  lemma SuccessReleases(jobs: Jobs, root: JobID, row: Job)
    requires Waiting(jobs) && root in jobs && row.spec == jobs[root].spec && row.state.JobSucceeded?
    ensures WaitingOrReleased(jobs[root := row], root)
  {
    var next := jobs[root := row];
    forall j | j in next && next[j].state.JobWaiting?
      ensures Hopeful(next, j, None) && (Held(next, j) || root in next[j].spec.deps)
    {
      assert Held(jobs, j);
      var d :| d in jobs[j].spec.deps && d in jobs && !jobs[d].state.JobSucceeded?;
      assert d != root ==> !next[d].state.JobSucceeded?;
    }
  }

  lemma EndLeavesWaiting(jobs: Jobs, root: JobID, row: Job)
    requires Waiting(jobs) && root in jobs && row.spec == jobs[root].spec
    requires !row.state.JobSucceeded? && !row.state.JobWaiting?
    ensures WaitingBut(jobs[root := row], root)
    ensures !row.state.Terminal() ==> Waiting(jobs[root := row])
  {
    var next := jobs[root := row];
    forall j | j in next && next[j].state.JobWaiting?
      ensures Held(next, j) && Hopeful(next, j, Some(root)) && (!row.state.Terminal() ==> Hopeful(next, j, None))
    {
      assert Held(jobs, j);
      StaysHeld(jobs, next, j);
    }
  }
}
