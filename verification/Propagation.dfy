/** The recursive query behind propagateDependencyFailure: growing a set of jobs until
    nothing more can be added finds exactly the jobs downstream of the root. */
module Propagation {
  import opened Domain
  import opened Tables
  import opened Invariants

  // `j` has not started and depends on the root or on a job found before.
  predicate Reaches(jobs: Jobs, root: JobID, found: set<JobID>, j: JobID)
    requires j in jobs
  {
    jobs[j].state.Unstarted() && exists d :: d in jobs[j].spec.deps && (d == root || d in found)
  }

  ghost predicate Sound(jobs: Jobs, root: JobID, found: set<JobID>) {
    forall j :: j in found ==> j in jobs && Downstream(jobs, root, j)
  }

  ghost predicate Closed(jobs: Jobs, root: JobID, found: set<JobID>) {
    forall j :: j in jobs && Reaches(jobs, root, found, j) ==> j in found
  }

  lemma StepIsSound(jobs: Jobs, root: JobID, found: set<JobID>, j: JobID)
    requires Layered(jobs) && Sound(jobs, root, found) && j in jobs && Reaches(jobs, root, found, j)
    ensures Sound(jobs, root, found + {j})
  {
    var d :| d in jobs[j].spec.deps && (d == root || d in found);
    assert DownstreamVia(jobs, root, j, d);
  }

  lemma {:induction false} ClosedIsComplete(jobs: Jobs, root: JobID, found: set<JobID>, j: JobID)
    requires Closed(jobs, root, found) && j in jobs && Downstream(jobs, root, j)
    ensures j in found
    decreases jobs[j].spec.row
  {
    var d :| d in jobs[j].spec.deps && DownstreamVia(jobs, root, j, d);
    if d != root {
      ClosedIsComplete(jobs, root, found, d);
    }
    assert Reaches(jobs, root, found, j);
  }

  method FindDownstream(jobs: Jobs, root: JobID) returns (found: set<JobID>)
    requires Layered(jobs)
    ensures forall j :: j in found <==> j in jobs && Downstream(jobs, root, j)
  {
    found := {};
    while exists j :: j in jobs && j !in found && Reaches(jobs, root, found, j)
      invariant Sound(jobs, root, found)
      decreases jobs.Keys - found
    {
      var j :| j in jobs && j !in found && Reaches(jobs, root, found, j);
      StepIsSound(jobs, root, found, j);
      found := found + {j};
    }
    forall j | j in jobs && Downstream(jobs, root, j) ensures j in found {
      ClosedIsComplete(jobs, root, found, j);
    }
  }
}
