/** The vocabulary of the control plane: identifiers, job and attempt states with
    their transition tables, and what a job may ask of a worker. */
module Domain {

  datatype Option<+T> = None | Some(value: T)

  // Times and durations are nanoseconds.
  type Time = int
  type WorkerID = nat
  type SessionID = nat
  type BoxID = nat

  /** A job submitted by a client, or step `step` of the rebuild plan that a
      session runs when it recovers into `epoch`. */
  datatype JobID = Client(n: nat) | Rebuild(session: SessionID, epoch: nat, step: nat)

  datatype AttemptID = AttemptID(job: JobID, number: nat)

  /** Idempotency keys: those of the form that the recovery controller derives from a
      rebuild step, and all others. Clients may send either kind. */
  datatype Key = ClientKey(text: string) | RebuildKey(session: SessionID, epoch: nat, step: string)

  datatype JobState =
    | JobWaiting
    | JobQueued
    | JobLeased
    | JobRunning
    | JobSucceeded
    | JobFailed
    | JobCanceled
    | JobTimedOut
    | JobDependencyFailed
    | JobSessionLost
  {
    predicate Terminal() {
      JobSucceeded? || JobFailed? || JobCanceled? || JobTimedOut? || JobDependencyFailed? || JobSessionLost?
    }

    // Terminal without success: nothing that depends on the job can run.
    predicate Doomed() {
      Terminal() && !JobSucceeded?
    }

    predicate Unstarted() {
      JobWaiting? || JobQueued?
    }
  }

  datatype AttemptState =
    | AttemptLeased
    | AttemptRunning
    | AttemptSucceeded
    | AttemptFailed
    | AttemptCanceled
    | AttemptExpired
    | AttemptLost
  {
    predicate Active() {
      AttemptLeased? || AttemptRunning?
    }

    predicate Terminal() {
      !Active()
    }
  }

  predicate CanTransition(from: JobState, to: JobState) {
    if from.Terminal() || from == to then false
    else match from
      case JobWaiting =>
        to.JobQueued? || to.JobCanceled? || to.JobDependencyFailed? || to.JobSessionLost? || to.JobTimedOut?
      case JobQueued =>
        to.JobLeased? || to.JobCanceled? || to.JobTimedOut? || to.JobDependencyFailed? || to.JobSessionLost?
      case JobLeased =>
        to.JobRunning? || to.JobQueued? || to.JobCanceled? || to.JobTimedOut? || to.JobSessionLost?
      case JobRunning =>
        to.JobSucceeded? || to.JobFailed? || to.JobQueued? || to.JobCanceled? || to.JobTimedOut? || to.JobSessionLost?
      case _ => false
  }

  predicate CanAttemptTransition(from: AttemptState, to: AttemptState) {
    if from.Terminal() || from == to then false
    else match from
      case AttemptLeased =>
        to.AttemptRunning? || to.AttemptSucceeded? || to.AttemptFailed? || to.AttemptCanceled?
        || to.AttemptExpired? || to.AttemptLost?
      case AttemptRunning =>
        to.AttemptSucceeded? || to.AttemptFailed? || to.AttemptCanceled? || to.AttemptExpired? || to.AttemptLost?
      case _ => false
  }

  /** What one committed transaction may do to a job: nothing, one edge of the
      transition table, or the two edges through `running`, a state that the
      store itself never writes. */
  predicate CanMove(from: JobState, to: JobState) {
    || from == to
    || CanTransition(from, to)
    || (CanTransition(from, JobRunning) && CanTransition(JobRunning, to))
  }

  datatype Failure = Failure(code: string, retryable: bool)

  datatype Capabilities = Capabilities(
    capabilities: seq<string>,
    labels: map<string, string>,
    architecture: string,
    region: string,
    executors: seq<string>,
    upstreams: seq<string>
  )

  datatype Constraints = Constraints(
    capabilities: seq<string>,
    labels: map<string, string>,
    architecture: string,
    region: string,
    executor: string,
    upstream: string,
    preferredRegion: string,
    preferredBox: Option<BoxID>,
    preferredProvider: string,
    maxCost: Option<real>
  )

  // A missing label reads as the empty string.
  function Label(labels: map<string, string>, key: string): string {
    if key in labels then labels[key] else ""
  }

  predicate Satisfies(have: Capabilities, want: Constraints) {
    && (forall c :: c in want.capabilities ==> c in have.capabilities)
    && (want.architecture != "" ==> have.architecture == want.architecture)
    && (want.region != "" ==> have.region == want.region)
    && (want.executor != "" ==> want.executor in have.executors)
    && (want.upstream != "" ==> want.upstream in have.upstreams)
    && (forall k :: k in want.labels ==> Label(have.labels, k) == want.labels[k])
  }

  datatype UpstreamState = UpstreamUnset | UpstreamAvailable | UpstreamUnavailable | UpstreamCooldown | UpstreamOther

  datatype Upstream = Upstream(
    state: UpstreamState,
    health: real,
    cooldownUntil: Option<Time>,
    budget: Option<real>,
    cost: Option<real>
  )

  /** The part of a job that the scheduler looks at. */
  datatype Candidate = Candidate(id: JobID, created: Time, want: Constraints)

  function Max(a: int, b: int): int {
    if a < b then b else a
  }

  function Min(a: int, b: int): int {
    if b < a then b else a
  }

  lemma SmallerSet<T>(x: set<T>, y: set<T>)
    requires x <= y
    ensures |x| <= |y|
  {
    if x != {} {
      var e :| e in x;
      SmallerSet(x - {e}, y - {e});
    }
  }
}
