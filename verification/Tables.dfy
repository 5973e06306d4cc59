/** The tables of the store, one map per table, and the queries that the
    transactions run on them. */
module Tables {
  import opened Domain

  datatype EventKind =
    | WorkerEvent(typ: string, data: map<string, string>)
    | JobTransition(to: JobState, reason: string)
    | AttemptTransition(outcome: AttemptState, next: JobState, note: string)

  // workerSequence 0 and the empty key mark events that no worker numbered.
  datatype Event = Event(
    kind: EventKind,
    attempt: Option<AttemptID>,
    at: Time,
    workerSequence: nat,
    key: string
  )

  datatype Result = Result(attempt: AttemptID, status: int, data: seq<int>)

  /** The columns of a job row that are written once, by CreateJob. `row` is the
      insertion number of the row. */
  datatype JobSpec = JobSpec(
    row: nat,
    session: Option<SessionID>,
    deps: set<JobID>,
    key: Option<Key>,
    maxAttempts: int,
    backoff: int,
    maxBackoff: int,
    maxElapsed: int,
    timeoutAt: Option<Time>,
    view: Candidate
  )

  /** A job row, with the rows of job_events in sequence order and the row of
      job_results that carry its id. */
  datatype Job = Job(
    spec: JobSpec,
    state: JobState,
    nextAt: Option<Time>,
    updated: Time,
    log: seq<Event>,
    result: Option<Result>
  )

  // `hash` is the hash of the attempt's identifier modulo 251, the retry jitter.
  datatype Attempt = Attempt(
    worker: WorkerID,
    box: BoxID,
    state: AttemptState,
    failure: Option<Failure>,
    endedAt: Option<Time>,
    hash: nat
  )

  datatype Lease = Lease(worker: WorkerID, expires: Time)

  datatype WorkerSpec = WorkerSpec(box: BoxID, provider: string, caps: Capabilities, maxSlots: int)

  datatype Report = Report(status: string, upstreams: map<string, Upstream>)

  datatype Worker = Worker(
    spec: WorkerSpec,
    freeSlots: int,
    reserved: Option<SessionID>,
    epoch: nat,
    report: Report
  )

  datatype SessionState = SessionPending | SessionActive | SessionRecovering | SessionClosed | SessionLost
  {
    predicate Terminal() {
      SessionClosed? || SessionLost?
    }
  }

  datatype Policy = RecoveryNone | RecoveryCheckpoint | RecoveryRebuild

  datatype RecoveryState = RecoveryIdle | RecoveryPending | RecoveryProvisioning | RecoveryRestoring | RecoveryFailed

  // `plan` holds the idempotency keys of the rebuild steps, in order.
  datatype SessionSpec = SessionSpec(caps: Capabilities, provider: string, policy: Policy, plan: seq<string>)

  datatype Session = Session(
    spec: SessionSpec,
    state: SessionState,
    epoch: nat,
    worker: Option<WorkerID>,
    box: Option<BoxID>,
    recovery: RecoveryState,
    recoveries: nat,
    recoveryAfter: Option<Time>,
    acknowledged: bool
  )

  datatype Box = Box(worker: Option<WorkerID>, caps: Capabilities, state: string, reserved: Option<SessionID>)

  type Jobs = map<JobID, Job>
  type Attempts = map<AttemptID, Attempt>
  type Leases = map<AttemptID, Lease>
  type Workers = map<WorkerID, Worker>
  type Sessions = map<SessionID, Session>
  type Boxes = map<BoxID, Box>

  datatype DB = DB(
    jobs: Jobs,
    attempts: Attempts,
    leases: Leases,
    workers: Workers,
    sessions: Sessions,
    boxes: Boxes
  )

  const EMPTY := DB(map[], map[], map[], map[], map[], map[])

  datatype Error = Ok | NotFound | Conflict

  // A transaction that fails is rolled back: `db` is then the database it began with.
  datatype Tx = Tx(db: DB, err: Error)

  ghost predicate IsMaxNumber(ids: set<AttemptID>, j: JobID, n: nat) {
    && (forall a :: a in ids && a.job == j ==> a.number <= n)
    && (n == 0 || AttemptID(j, n) in ids)
  }

  lemma MaxNumberExists(ids: set<AttemptID>, j: JobID)
    ensures exists n: nat :: IsMaxNumber(ids, j, n)
  {
    if ids == {} {
      assert IsMaxNumber(ids, j, 0);
    } else {
      var a :| a in ids;
      MaxNumberExists(ids - {a}, j);
      var n: nat :| IsMaxNumber(ids - {a}, j, n);
      var m := if a.job == j && n < a.number then a.number else n;
      assert IsMaxNumber(ids, j, m);
    }
  }

  /** SELECT COALESCE(MAX(number),0) FROM job_attempts WHERE job_id=j */
  ghost function MaxNumber(ids: set<AttemptID>, j: JobID): (n: nat)
    ensures IsMaxNumber(ids, j, n)
  {
    MaxNumberExists(ids, j);
    var n: nat :| IsMaxNumber(ids, j, n);
    n
  }

  // The attempt of `j` with the highest number, which names no row when `j` has none.
  ghost function Latest(attempts: Attempts, j: JobID): AttemptID {
    AttemptID(j, MaxNumber(attempts.Keys, j))
  }

  predicate Live(attempts: Attempts, a: AttemptID) {
    a in attempts && attempts[a].state.Active()
  }

  /** SELECT id FROM job_attempts WHERE job_id=j AND state IN ('leased','running') */
  ghost function ActiveAttempt(attempts: Attempts, j: JobID): (r: Option<AttemptID>)
    ensures r.Some? ==> r.value.job == j && Live(attempts, r.value)
    ensures r.None? ==> forall a :: Live(attempts, a) ==> a.job != j
  {
    if exists a :: Live(attempts, a) && a.job == j then
      var a :| Live(attempts, a) && a.job == j;
      Some(a)
    else
      None
  }

  // The attempts that count against the concurrency of `w`.
  function ActiveOf(attempts: Attempts, w: WorkerID): set<AttemptID> {
    set a | a in attempts && attempts[a].worker == w && attempts[a].state.Active()
  }

  function JobWith(jobs: Jobs, key: Key): set<JobID> {
    set j | j in jobs && jobs[j].spec.key == Some(key)
  }

  /** The recursive query of propagateDependencyFailure: `j` has not started, and
      it depends on `root` or on another job that the query returns. Dependencies
      are inserted before their dependents, so rows strictly fall. */
  ghost predicate Downstream(jobs: Jobs, root: JobID, j: JobID)
    requires j in jobs
    decreases jobs[j].spec.row
  {
    && jobs[j].state.Unstarted()
    && exists d :: d in jobs[j].spec.deps && DownstreamVia(jobs, root, j, d)
  }

  ghost predicate DownstreamVia(jobs: Jobs, root: JobID, j: JobID, d: JobID)
    requires j in jobs
    decreases jobs[j].spec.row, 0
  {
    d == root || (d in jobs && jobs[d].spec.row < jobs[j].spec.row && Downstream(jobs, root, d))
  }
}
