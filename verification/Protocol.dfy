/** Runs of the control plane: every committed transaction is one step, and any
    client, worker or controller may take the next one. */
module Protocol {
  import opened Domain
  import opened Tables
  import opened Transactions
  import opened Invariants
  import opened Recovery
  import opened JobSteps
  import S = Scheduler

  datatype Label =
    | Submit(request: NewJob)
    | CancelJob(job: JobID, at: Time)
    | OpenSession(s: SessionID, spec: SessionSpec, epoch: nat)
    | CloseJobSession(s: SessionID, at: Time)
    | Recover(s: SessionID, at: Time)
    | RegisterWorker(w: WorkerID, profile: WorkerSpec)
    | FromWorker(w: WorkerID, act: WorkerAct)
    | Health(w: WorkerID, status: string, at: Time)
    | ExpireLeases(due: seq<AttemptID>, at: Time)
    | ExpireWorkerLeases(w: WorkerID, due: seq<AttemptID>, at: Time)
    | TimeoutJobs(overdue: seq<JobID>, at: Time)
    | AdoptReplacement(s: SessionID, w: WorkerID, at: Time)
    | ProvisionReplacement(s: SessionID, limit: int, outcome: Outcome, at: Time, retryAt: Time)
    | GiveUpReplacement(s: SessionID, retryAt: Time)
    | ChangeSandboxes(boxes: Boxes)

  // What an authenticated worker can ask for.
  datatype WorkerAct =
    | Beat(freeSlots: int, reported: seq<AttemptID>, report: Report)
    | ClaimJob(config: S.Config, ranked: seq<JobID>, now: Time, duration: int, hash: nat)
    | RenewLease(a: AttemptID, now: Time, until: Time)
    | SendEvent(a: AttemptID, event: Event)
    | SendResult(a: AttemptID, status: int, data: seq<int>)
    | CompleteJob(a: AttemptID, completion: Completion, now: Time)
    | AcknowledgeRestore(s: SessionID, epoch: nat, failed: bool, retryAt: Time)

  predicate NoRepeats<T(==)>(xs: seq<T>) {
    forall i, j :: 0 <= i < j < |xs| ==> xs[i] != xs[j]
  }

  // The rows that ClaimNextJob reads.
  predicate Queued(job: Job, now: Time) {
    && job.state.JobQueued?
    && (job.spec.timeoutAt.None? || job.spec.timeoutAt.value > now)
    && (job.nextAt.None? || job.nextAt.value <= now)
  }

  function RequestOf(db: DB, w: WorkerID, now: Time): S.Request
    requires w in db.workers
  {
    var box := db.workers[w].spec.box;
    S.Request(w, db.workers[w], if box in db.boxes then Some(db.boxes[box]) else None, now, |ActiveOf(db.attempts, w)|)
  }

  /** `ranked` lists the queued jobs that the worker can run, best first. */
  ghost predicate Ranking(db: DB, w: WorkerID, config: S.Config, ranked: seq<JobID>, now: Time)
    requires w in db.workers
  {
    var r := RequestOf(db, w, now);
    && NoRepeats(ranked)
    && (forall j :: j in ranked <==>
          j in db.jobs && Queued(db.jobs[j], now) && S.CanRun(db.jobs[j].spec.view.want, r))
    && (forall i, k :: 0 <= i < k < |ranked| ==>
          !S.Before(config, r, db.jobs[ranked[k]].spec.view, db.jobs[ranked[i]].spec.view))
  }

  ghost predicate Enabled(db: DB, l: Label) {
    match l
    case Submit(r) => r.id.Client? && Legitimate(db, r)
    case FromWorker(w, act) => act.ClaimJob? ==> w in db.workers && Ranking(db, w, act.config, act.ranked, act.now)
    case ExpireLeases(due, at) =>
      NoRepeats(due) && forall a :: a in due <==> a in db.leases && db.leases[a].expires <= at
    case ExpireWorkerLeases(w, due, _) =>
      NoRepeats(due) && forall a :: a in due <==> a in db.leases && db.leases[a].worker == w
    case TimeoutJobs(overdue, at) =>
      NoRepeats(overdue) && forall j :: j in overdue <==> j in db.jobs && Overdue(db.jobs[j], at)
    case _ => true
  }

  ghost function Act(db: DB, w: WorkerID, act: WorkerAct): DB {
    match act
    case Beat(freeSlots, reported, report) => Heartbeat(db, w, freeSlots, reported, report).db
    case ClaimJob(_, ranked, now, duration, hash) => Claim(db, w, ranked, now, duration, hash).db
    case RenewLease(a, now, until) => Renew(db, w, a, now, until).db
    case SendEvent(a, event) => AppendEvent(db, w, a, event).db
    case SendResult(a, status, data) => SaveResult(db, w, a, status, data).db
    case CompleteJob(a, completion, now) => Complete(db, w, a, completion, now).db
    case AcknowledgeRestore(s, epoch, failed, retryAt) => Acknowledge(db, w, s, epoch, failed, retryAt).db
  }

  ghost function Apply(db: DB, l: Label): DB {
    match l
    case Submit(r) => CreateJob(db, r).db
    case CancelJob(j, at) => Cancel(db, j, at).db
    case OpenSession(s, spec, epoch) => CreateSession(db, s, spec, epoch).db
    case CloseJobSession(s, at) => CloseSession(db, s, at).db
    case Recover(s, at) => RequestRecovery(db, s, at).db
    case RegisterWorker(w, profile) => Register(db, w, profile).db
    case FromWorker(w, act) => if Authenticated(db, w) then Act(db, w, act) else db
    case Health(w, status, at) => SetHealth(db, w, status, at).db
    case ExpireLeases(due, at) => ExpireAll(db, due, at)
    case ExpireWorkerLeases(_, due, at) => ExpireAll(db, due, at)
    case TimeoutJobs(overdue, at) => TimeOutAll(db, overdue, at)
    case AdoptReplacement(s, w, at) => Adopt(db, s, w, at).db
    case ProvisionReplacement(s, limit, outcome, at, retryAt) => Provision(db, s, limit, outcome, at, retryAt).db
    case GiveUpReplacement(s, retryAt) => DropReplacement(db, s, retryAt).db
    case ChangeSandboxes(boxes) => db.(boxes := boxes)
  }

  // `states[i + 1]` is what `labels[i]` makes of `states[i]`.
  ghost predicate Follows(states: seq<DB>, labels: seq<Label>, i: nat)
    requires i < |labels| && |states| == |labels| + 1
  {
    Enabled(states[i], labels[i]) && states[i + 1] == Apply(states[i], labels[i])
  }

  /** A run starts from the empty store, and each state follows from the one before. */
  ghost predicate IsRun(states: seq<DB>, labels: seq<Label>) {
    && |states| == |labels| + 1
    && states[0] == EMPTY
    && forall i :: 0 <= i < |labels| ==> Follows(states, labels, i)
  }
}
