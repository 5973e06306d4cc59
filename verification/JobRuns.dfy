/** What every run guarantees about jobs, attempts and leases. */
module JobRuns {
  import opened Domain
  import opened Tables
  import opened Transactions
  import opened Invariants
  import opened Endings
  import opened Progress
  import opened Protocol
  import opened Safety
  import opened Steps

  /** Refinement, for whole runs: each step is a step of the domain's machine. */
  lemma RunMoves(states: seq<DB>, labels: seq<Label>, i: nat)
    requires IsRun(states, labels) && i < |labels|
    ensures Moves(states[i], states[i + 1])
  {
    assert Follows(states, labels, i);
    Reachable(states, labels, i);
    StepMoves(states[i], labels[i]);
  }

  // What the measures below rely on.
  ghost predicate Paced(db: DB) {
    Numbered(db.jobs, db.attempts) && Coherent(db.jobs, db.attempts, db.leases)
  }

  lemma RunPaced(states: seq<DB>, labels: seq<Label>, i: nat)
    requires IsRun(states, labels) && i < |states|
    ensures Paced(states[i])
  {
    Reachable(states, labels, i);
  }

  // Lease exclusion

  // The attempts of job `j` that hold a lease.
  function LeasesOf(db: DB, j: JobID): set<AttemptID> {
    set a | a in db.leases && a.job == j
  }

  function ActiveAttempts(db: DB, j: JobID): set<AttemptID> {
    set a | a in db.attempts && Live(db.attempts, a) && a.job == j
  }

  /** In every reachable state a job is leased exactly when it has one active attempt;
      then that attempt is the one row of the lease table for the job, held by the
      attempt's own worker. A job that is not leased has neither. */
  lemma LeaseExclusion(states: seq<DB>, labels: seq<Label>, i: nat, j: JobID)
    requires IsRun(states, labels) && i < |states| && j in states[i].jobs
    ensures var db := states[i];
      && LeasesOf(db, j) == ActiveAttempts(db, j)
      && |ActiveAttempts(db, j)| <= 1
      && (db.jobs[j].state.JobLeased? <==> |ActiveAttempts(db, j)| == 1)
      && (forall a :: a in LeasesOf(db, j) ==> a in db.attempts && db.leases[a].worker == db.attempts[a].worker)
  {
    var db := states[i];
    Reachable(states, labels, i);
    LeasedAlone(db, j);
  }

  lemma LeasedAlone(db: DB, j: JobID)
    requires Coherent(db.jobs, db.attempts, db.leases) && j in db.jobs
    ensures LeasesOf(db, j) == ActiveAttempts(db, j)
    ensures ActiveAttempts(db, j) == if db.jobs[j].state.JobLeased? then {Latest(db.attempts, j)} else {}
  {
    ActiveIsLatest(db.jobs, db.attempts, db.leases, j);
  }

  /** Two workers can never both be able to complete the same job, nor one worker by
      two attempts. */
  lemma OneCompleter(states: seq<DB>, labels: seq<Label>, i: nat,
                     w: WorkerID, a: AttemptID, c: Completion, at: Time, v: WorkerID, b: AttemptID, d: Completion, when: Time)
    requires IsRun(states, labels) && i < |states| && a.job == b.job
    requires Complete(states[i], w, a, c, at).err == Ok && Complete(states[i], v, b, d, when).err == Ok
    ensures w == v && a == b
  {
    Reachable(states, labels, i);
    assert Live(states[i].attempts, a) && Live(states[i].attempts, b);
  }

  // Concurrency

  /** Whatever the heartbeats report, a worker's free slots stay within its limit and
      it never runs more attempts than that. */
  lemma ConcurrencyCap(states: seq<DB>, labels: seq<Label>, i: nat, w: WorkerID)
    requires IsRun(states, labels) && i < |states| && w in states[i].workers
    ensures var db := states[i];
      && 0 <= db.workers[w].freeSlots <= db.workers[w].spec.maxSlots
      && |ActiveOf(db.attempts, w)| <= db.workers[w].spec.maxSlots
  {
    Reachable(states, labels, i);
  }

  // Terminal jobs

  // The rows of the attempts of `j`.
  function AttemptsOf(attempts: Attempts, j: JobID): Attempts {
    map a | a in attempts && a.job == j :: attempts[a]
  }

  lemma FrozenStep(db: DB, db': DB, j: JobID)
    requires Coherent(db.jobs, db.attempts, db.leases) && Moves(db, db') && j in db.jobs && db.jobs[j].state.Terminal()
    ensures j in db'.jobs && db'.jobs[j] == db.jobs[j]
    ensures AttemptsOf(db'.attempts, j) == AttemptsOf(db.attempts, j)
  {
    forall a | a in db'.attempts && a.job == j ensures a in db.attempts && db'.attempts[a] == db.attempts[a] {
      assert a !in db.attempts ==> Accepts(db, a, db'.jobs, db'.attempts, db'.leases);
      assert !Live(db.attempts, a);
    }
  }

  // Step `n` leaves job `j`, if it is terminal, as it is.
  ghost predicate Freezes(states: seq<DB>, j: JobID, n: nat)
    requires n + 1 < |states|
  {
    j in states[n].jobs && states[n].jobs[j].state.Terminal() ==>
      && j in states[n + 1].jobs && states[n + 1].jobs[j] == states[n].jobs[j]
      && AttemptsOf(states[n + 1].attempts, j) == AttemptsOf(states[n].attempts, j)
  }

  lemma FrozenInRun(states: seq<DB>, labels: seq<Label>, i: nat, j: JobID)
    requires IsRun(states, labels) && i < |labels|
    ensures Freezes(states, j, i)
  {
    RunPaced(states, labels, i);
    RunMoves(states, labels, i);
    if j in states[i].jobs && states[i].jobs[j].state.Terminal() {
      FrozenStep(states[i], states[i + 1], j);
    }
  }

  lemma {:induction false} FrozenSteps(states: seq<DB>, i: nat, k: nat, j: JobID)
    requires i <= k < |states| && j in states[i].jobs && states[i].jobs[j].state.Terminal()
    requires forall n :: i <= n < k ==> Freezes(states, j, n)
    ensures j in states[k].jobs && states[k].jobs[j] == states[i].jobs[j]
    ensures AttemptsOf(states[k].attempts, j) == AttemptsOf(states[i].attempts, j)
    decreases k - i
  {
    if i < k {
      FrozenSteps(states, i, k - 1, j);
      assert Freezes(states, j, k - 1);
    }
  }

  /** From the commit that makes it terminal on, a job's row, its result, its event log
      and its attempts never change. */
  lemma TerminalFreeze(states: seq<DB>, labels: seq<Label>, i: nat, k: nat, j: JobID)
    requires IsRun(states, labels) && i <= k < |states| && j in states[i].jobs && states[i].jobs[j].state.Terminal()
    ensures j in states[k].jobs && states[k].jobs[j] == states[i].jobs[j]
    ensures AttemptsOf(states[k].attempts, j) == AttemptsOf(states[i].attempts, j)
    ensures LeasesOf(states[k], j) == {}
  {
    forall n | i <= n < k ensures Freezes(states, j, n) {
      FrozenInRun(states, labels, n, j);
    }
    FrozenSteps(states, i, k, j);
    NoLeaseInRun(states, labels, k, j);
  }

  lemma NoLeaseInRun(states: seq<DB>, labels: seq<Label>, i: nat, j: JobID)
    requires IsRun(states, labels) && i < |states| && j in states[i].jobs && states[i].jobs[j].state.Terminal()
    ensures LeasesOf(states[i], j) == {}
  {
    RunPaced(states, labels, i);
    LeasedAlone(states[i], j);
  }

  /** A succeeded job has exactly one succeeded attempt, and it is its last; no other
      job has any. */
  lemma OneSuccess(states: seq<DB>, labels: seq<Label>, i: nat, j: JobID)
    requires IsRun(states, labels) && i < |states| && j in states[i].jobs
    ensures var db := states[i];
      (set a | a in db.attempts && a.job == j && db.attempts[a].state.AttemptSucceeded?)
      == if db.jobs[j].state.JobSucceeded? then {Latest(db.attempts, j)} else {}
  {
    Reachable(states, labels, i);
  }

  // Bounded attempts

  function Allowance(job: Job): int {
    Max(1, job.spec.maxAttempts)
  }

  /** A job's attempts are numbered 1 to k without a gap, k is within the retry
      allowance, and only attempt k may be active. */
  lemma AttemptsNumbered(states: seq<DB>, labels: seq<Label>, i: nat, j: JobID)
    requires IsRun(states, labels) && i < |states| && j in states[i].jobs
    ensures var db := states[i]; var k := MaxNumber(db.attempts.Keys, j);
      && k <= Allowance(db.jobs[j])
      && (forall n: nat :: AttemptID(j, n) in db.attempts <==> 1 <= n <= k)
      && (forall n: nat :: Live(db.attempts, AttemptID(j, n)) ==> n == k)
  {
    RunPaced(states, labels, i);
    NumbersDense(states[i], j);
  }

  lemma NumbersDense(db: DB, j: JobID)
    requires Paced(db) && j in db.jobs
    ensures var k := MaxNumber(db.attempts.Keys, j);
      && k <= Allowance(db.jobs[j])
      && (forall n: nat :: AttemptID(j, n) in db.attempts <==> 1 <= n <= k)
      && (forall n: nat :: Live(db.attempts, AttemptID(j, n)) ==> n == k)
  {
    var k := MaxNumber(db.attempts.Keys, j);
    assert k > 0 ==> AttemptID(j, k) in db.attempts;
    forall n: nat | 1 <= n <= k ensures AttemptID(j, n) in db.attempts {
      assert AttemptID(j, k) in db.attempts;
    }
  }

  function StateRank(s: JobState): nat {
    if s.JobWaiting? || s.JobLeased? || s.JobRunning? then 1 else 0
  }

  /** How many state changes a job can still make: attempts left, then state. */
  ghost function Fuel(jobs: Jobs, attempts: Attempts, j: JobID): int
    requires j in jobs
  {
    if jobs[j].state.Terminal() then 0
    else 2 * (Allowance(jobs[j]) - MaxNumber(attempts.Keys, j)) + StateRank(jobs[j].state)
  }

  // A job that is not terminal has fuel left.
  lemma FuelLeft(db: DB, j: JobID)
    requires Paced(db) && j in db.jobs
    ensures 0 <= Fuel(db.jobs, db.attempts, j) <= 2 * Allowance(db.jobs[j]) + 1
    ensures !db.jobs[j].state.Terminal() ==> Fuel(db.jobs, db.attempts, j) > 0
    ensures db.jobs[j].state.JobQueued? ==> Fuel(db.jobs, db.attempts, j) > 1
    ensures db.jobs[j].state.JobWaiting? ==> MaxNumber(db.attempts.Keys, j) == 0
  {
    var k := MaxNumber(db.attempts.Keys, j);
    if k > 0 {
      assert AttemptID(j, k) in db.attempts;
    }
    if db.jobs[j].state.JobLeased? {
      assert Live(db.attempts, Latest(db.attempts, j));
    }
  }

  // Only a lease adds an attempt, and it adds one.
  lemma NumbersStep(db: DB, db': DB, j: JobID)
    requires Moves(db, db') && j in db.jobs
    ensures var k, k' := MaxNumber(db.attempts.Keys, j), MaxNumber(db'.attempts.Keys, j);
      k' == if db.jobs[j].state.JobQueued? && db'.jobs[j].state.JobLeased? then k + 1 else k
  {
    var k, k' := MaxNumber(db.attempts.Keys, j), MaxNumber(db'.attempts.Keys, j);
    var a := AttemptID(j, k');
    assert k > 0 ==> AttemptID(j, k) in db'.attempts;
    assert k' > 0 ==> a in db'.attempts;
    if a in db'.attempts && a !in db.attempts {
      assert Accepts(db, a, db'.jobs, db'.attempts, db'.leases);
    }
  }

  /** Every change of a job's state burns fuel, and nothing else does. */
  lemma FuelBurns(db: DB, db': DB, j: JobID)
    requires Paced(db) && Paced(db') && Moves(db, db') && j in db.jobs
    ensures j in db'.jobs && Allowance(db'.jobs[j]) == Allowance(db.jobs[j])
    ensures db'.jobs[j].state == db.jobs[j].state ==> Fuel(db'.jobs, db'.attempts, j) == Fuel(db.jobs, db.attempts, j)
    ensures db'.jobs[j].state != db.jobs[j].state ==> Fuel(db'.jobs, db'.attempts, j) < Fuel(db.jobs, db.attempts, j)
  {
    NumbersStep(db, db', j);
    FuelLeft(db, j);
    FuelLeft(db', j);
    assert JobMoves(db.jobs[j], db'.jobs[j]);
  }

  // How often the state of `j` changes between states i and k.
  ghost function Changes(states: seq<DB>, j: JobID, i: nat, k: nat): nat
    requires i <= k < |states|
    decreases k - i
  {
    if i == k then 0
    else
      Changes(states, j, i, k - 1)
      + (if j in states[k - 1].jobs && j in states[k].jobs && states[k].jobs[j].state != states[k - 1].jobs[j].state
         then 1 else 0)
  }

  // Step `n` burns the fuel of job `j` as it changes its state.
  ghost predicate Burns(states: seq<DB>, j: JobID, n: nat)
    requires n + 1 < |states|
  {
    var db, db' := states[n], states[n + 1];
    j in db.jobs ==>
      && j in db'.jobs
      && Fuel(db'.jobs, db'.attempts, j) + (if db'.jobs[j].state != db.jobs[j].state then 1 else 0)
         <= Fuel(db.jobs, db.attempts, j)
  }

  lemma BurnsInRun(states: seq<DB>, labels: seq<Label>, i: nat, j: JobID)
    requires IsRun(states, labels) && i < |labels|
    ensures Burns(states, j, i)
  {
    RunPaced(states, labels, i);
    RunPaced(states, labels, i + 1);
    RunMoves(states, labels, i);
    if j in states[i].jobs {
      FuelBurns(states[i], states[i + 1], j);
    }
  }

  lemma {:induction false} ChangesBurnFuel(states: seq<DB>, j: JobID, i: nat, k: nat)
    requires i <= k < |states| && j in states[i].jobs && forall n :: i <= n < k ==> Burns(states, j, n)
    ensures j in states[k].jobs
    ensures Changes(states, j, i, k) + Fuel(states[k].jobs, states[k].attempts, j)
         <= Fuel(states[i].jobs, states[i].attempts, j)
    decreases k - i
  {
    if i < k {
      ChangesBurnFuel(states, j, i, k - 1);
      assert Burns(states, j, k - 1);
    }
  }

  /** Over any run, from any point on, a job changes state at most
      2 * max(1, MaxAttempts) + 1 times. */
  lemma FinitelyManyChanges(states: seq<DB>, labels: seq<Label>, j: JobID, i: nat, k: nat)
    requires IsRun(states, labels) && i <= k < |states| && j in states[i].jobs
    ensures Changes(states, j, i, k) <= 2 * Allowance(states[i].jobs[j]) + 1
  {
    forall n | i <= n < k ensures Burns(states, j, n) {
      BurnsInRun(states, labels, n, j);
    }
    ChangesBurnFuel(states, j, i, k);
    RunPaced(states, labels, i);
    RunPaced(states, labels, k);
    FuelLeft(states[i], j);
    FuelLeft(states[k], j);
  }
}
