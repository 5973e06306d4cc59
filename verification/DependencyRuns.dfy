/** What every run guarantees about dependencies: no cycle and no deadlock. */
module DependencyRuns {
  import opened Domain
  import opened Tables
  import opened Transactions
  import opened Invariants
  import opened Protocol
  import opened Safety

  lemma RunOrdered(states: seq<DB>, labels: seq<Label>, i: nat)
    requires IsRun(states, labels) && i < |states|
    ensures Dependencies(states[i].jobs)
    ensures forall j :: j in states[i].jobs ==> !states[i].jobs[j].state.JobRunning?
  {
    Reachable(states, labels, i);
  }

  /** A walk along depends_on: each job depends on the next one. */
  ghost predicate IsChain(jobs: Jobs, chain: seq<JobID>) {
    && (forall i :: 0 <= i < |chain| ==> chain[i] in jobs)
    && (forall i :: 0 <= i < |chain| - 1 ==> chain[i + 1] in jobs[chain[i]].spec.deps)
  }

  lemma {:induction false} ChainsDescend(jobs: Jobs, chain: seq<JobID>)
    requires Layered(jobs) && IsChain(jobs, chain) && |chain| >= 2
    ensures jobs[chain[|chain| - 1]].spec.row < jobs[chain[0]].spec.row
  {
    var rest := chain[1..];
    assert forall i :: 0 <= i < |rest| ==> rest[i] == chain[i + 1];
    if |chain| > 2 {
      ChainsDescend(jobs, rest);
    }
  }

  /** depends_on has no cycle: no walk returns to the job it started from. */
  lemma Acyclic(states: seq<DB>, labels: seq<Label>, i: nat, chain: seq<JobID>)
    requires IsRun(states, labels) && i < |states| && IsChain(states[i].jobs, chain) && |chain| >= 2
    ensures chain[0] != chain[|chain| - 1]
  {
    RunOrdered(states, labels, i);
    ChainsDescend(states[i].jobs, chain);
  }

  /** A job that is queued, leased or succeeded depends on succeeded jobs only. */
  lemma DependenciesFirst(states: seq<DB>, labels: seq<Label>, i: nat, j: JobID, d: JobID)
    requires IsRun(states, labels) && i < |states| && j in states[i].jobs && d in states[i].jobs[j].spec.deps
    requires Started(states[i].jobs[j].state)
    ensures d in states[i].jobs && states[i].jobs[d].state.JobSucceeded?
  {
    RunOrdered(states, labels, i);
  }

  // The chain waits from its first job on, for a last job that can still run.
  ghost predicate LeadsToWork(jobs: Jobs, chain: seq<JobID>)
    requires IsChain(jobs, chain) && |chain| >= 2
  {
    && (forall i :: 0 <= i < |chain| - 1 ==> jobs[chain[i]].state.JobWaiting?)
    && (jobs[chain[|chain| - 1]].state.JobQueued? || jobs[chain[|chain| - 1]].state.JobLeased?)
  }

  lemma {:induction false} WaitsForWork(jobs: Jobs, j: JobID) returns (chain: seq<JobID>)
    requires Dependencies(jobs) && forall k :: k in jobs ==> !jobs[k].state.JobRunning?
    requires j in jobs && jobs[j].state.JobWaiting?
    ensures |chain| >= 2 && chain[0] == j && IsChain(jobs, chain) && LeadsToWork(jobs, chain)
    decreases jobs[j].spec.row
  {
    assert Held(jobs, j);
    var d :| d in jobs[j].spec.deps && d in jobs && !jobs[d].state.JobSucceeded?;
    if jobs[d].state.JobWaiting? {
      var rest := WaitsForWork(jobs, d);
      chain := [j] + rest;
      assert forall i :: 0 <= i < |rest| ==> chain[i + 1] == rest[i];
    } else {
      chain := [j, d];
    }
  }

  /** No deadlock: behind every waiting job there is a chain of waiting jobs that ends
      in one that is queued or leased. */
  lemma NoDeadlock(states: seq<DB>, labels: seq<Label>, i: nat, j: JobID) returns (chain: seq<JobID>)
    requires IsRun(states, labels) && i < |states| && j in states[i].jobs && states[i].jobs[j].state.JobWaiting?
    ensures |chain| >= 2 && chain[0] == j && IsChain(states[i].jobs, chain) && LeadsToWork(states[i].jobs, chain)
  {
    RunOrdered(states, labels, i);
    chain := WaitsForWork(states[i].jobs, j);
  }
}
