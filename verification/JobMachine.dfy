/** The domain's own job object, and that the store adds and ends attempts only as
    that object would. */
module JobMachine {
  import opened Domain
  import opened Tables
  import opened Invariants
  import opened Progress
  import opened Protocol
  import JR = JobRuns

  // `lease` is the attempt that the attempt's lease names.
  datatype DomainAttempt = DomainAttempt(id: AttemptID, number: nat, state: AttemptState, lease: Option<AttemptID>)

  datatype DomainEvent = DomainEvent(sequence: nat, job: JobID)

  // Only the last attempt may be active, and attempt i is numbered i + 1.
  predicate WellNumbered(attempts: seq<DomainAttempt>) {
    && (forall i :: 0 <= i < |attempts| ==> attempts[i].number == i + 1)
    && (forall i :: 0 <= i < |attempts| - 1 ==> attempts[i].state.Terminal())
  }

  // The event log of job `j`: sequence numbers are 1, 2, ...
  predicate Contiguous(events: seq<DomainEvent>, j: JobID) {
    forall i :: 0 <= i < |events| ==> events[i] == DomainEvent(i + 1, j)
  }

  predicate MayAdd(state: JobState, attempts: seq<DomainAttempt>, x: DomainAttempt) {
    && !state.Terminal()
    && (forall i :: 0 <= i < |attempts| ==> attempts[i].state.Terminal())
    && x.number == |attempts| + 1
    && x.state.AttemptLeased?
    && x.lease == Some(x.id)
  }

  // The first attempt with this id; their number when there is none.
  function FirstWith(attempts: seq<DomainAttempt>, id: AttemptID): (k: nat)
    ensures k <= |attempts| && (k < |attempts| ==> attempts[k].id == id)
    ensures forall i :: 0 <= i < k ==> attempts[i].id != id
  {
    if attempts == [] || attempts[0].id == id then 0 else 1 + FirstWith(attempts[1..], id)
  }

  class DomainJob {
    const id: JobID
    var state: JobState
    var attempts: seq<DomainAttempt>
    var events: seq<DomainEvent>

    ghost predicate Valid()
      reads this
    {
      WellNumbered(attempts) && Contiguous(events, id)
    }

    constructor (id: JobID, state: JobState)
      ensures Valid() && this.id == id && this.state == state && attempts == [] && events == []
    {
      this.id, this.state, attempts, events := id, state, [], [];
    }

    method Transition(to: JobState) returns (ok: bool)
      requires Valid()
      modifies this`state
      ensures Valid() && ok == CanTransition(old(state), to) && state == (if ok then to else old(state))
    {
      if !CanTransition(state, to) {
        return false;
      }
      state := to;
      return true;
    }

    method AddAttempt(x: DomainAttempt) returns (ok: bool)
      requires Valid()
      modifies this`attempts
      ensures Valid() && ok == MayAdd(state, old(attempts), x)
      ensures attempts == if ok then old(attempts) + [x] else old(attempts)
    {
      if state.Terminal() {
        return false;
      }
      for i := 0 to |attempts|
        invariant forall k :: 0 <= k < i ==> attempts[k].state.Terminal()
      {
        if attempts[i].state.Active() {
          return false;
        }
      }
      var want := 1;
      if |attempts| > 0 {
        want := attempts[|attempts| - 1].number + 1;
      }
      if x.number != want || !x.state.AttemptLeased? {
        return false;
      }
      if x.lease != Some(x.id) {
        return false;
      }
      attempts := attempts + [x];
      return true;
    }

    method TransitionAttempt(a: AttemptID, to: AttemptState) returns (ok: bool)
      requires Valid()
      modifies this`attempts
      ensures Valid()
      ensures var k := FirstWith(old(attempts), a);
        && (ok <==> k < |old(attempts)| && CanAttemptTransition(old(attempts)[k].state, to))
        && attempts == if ok then old(attempts)[k := old(attempts)[k].(state := to)] else old(attempts)
    {
      for i := 0 to |attempts|
        invariant attempts == old(attempts)
        invariant forall k :: 0 <= k < i ==> attempts[k].id != a
      {
        if attempts[i].id == a {
          assert FirstWith(attempts, a) == i;
          if !CanAttemptTransition(attempts[i].state, to) {
            return false;
          }
          attempts := attempts[i := attempts[i].(state := to)];
          return true;
        }
      }
      return false;
    }

    method AppendEvent(e: DomainEvent) returns (ok: bool)
      requires Valid()
      modifies this`events
      ensures Valid() && ok == (e == DomainEvent(|old(events)| + 1, id))
      ensures events == if ok then old(events) + [e] else old(events)
    {
      var want := 1;
      if |events| > 0 {
        want := events[|events| - 1].sequence + 1;
      }
      if e.sequence != want || e.job != id {
        return false;
      }
      events := events + [e];
      return true;
    }
  }

  // The store's rows as the domain sees them

  ghost function RowOf(attempts: Attempts, leases: Leases, a: AttemptID): DomainAttempt {
    DomainAttempt(a, a.number, if a in attempts then attempts[a].state else AttemptLost, if a in leases then Some(a) else None)
  }

  ghost function AttemptList(attempts: Attempts, leases: Leases, j: JobID): seq<DomainAttempt> {
    seq(MaxNumber(attempts.Keys, j), i requires i >= 0 => RowOf(attempts, leases, AttemptID(j, i + 1)))
  }

  lemma StoredWellNumbered(db: DB, j: JobID)
    requires JR.Paced(db) && j in db.jobs
    ensures WellNumbered(AttemptList(db.attempts, db.leases, j))
  {
    JR.NumbersDense(db, j);
    var list := AttemptList(db.attempts, db.leases, j);
    forall i | 0 <= i < |list| - 1 ensures list[i].state.Terminal() {
      assert !Live(db.attempts, AttemptID(j, i + 1));
    }
  }

  lemma AddsAsDomain(db: DB, db': DB, a: AttemptID)
    requires JR.Paced(db) && Moves(db, db') && a in db'.attempts && a !in db.attempts
    ensures a.job in db.jobs
    ensures MayAdd(db.jobs[a.job].state, AttemptList(db.attempts, db.leases, a.job), RowOf(db'.attempts, db'.leases, a))
  {
    AcceptedAsDomain(db, db', a);
  }

  lemma AcceptedAsDomain(db: DB, db': DB, a: AttemptID)
    requires JR.Paced(db) && a in db'.attempts && Accepts(db, a, db'.jobs, db'.attempts, db'.leases)
    ensures a.job in db.jobs
    ensures MayAdd(db.jobs[a.job].state, AttemptList(db.attempts, db.leases, a.job), RowOf(db'.attempts, db'.leases, a))
  {
    var j := a.job;
    JR.NumbersDense(db, j);
    var list := AttemptList(db.attempts, db.leases, j);
    forall i | 0 <= i < |list| ensures list[i].state.Terminal() {
      assert AttemptID(j, i + 1) in db.attempts;
      assert !Live(db.attempts, AttemptID(j, i + 1));
    }
  }

  /** In every run, an attempt that a step adds is one that AddAttempt accepts on the job
      as it was before. */
  lemma StoreAddsAsDomain(states: seq<DB>, labels: seq<Label>, i: nat, a: AttemptID)
    requires IsRun(states, labels) && i < |labels| && a in states[i + 1].attempts && a !in states[i].attempts
    ensures a.job in states[i].jobs
    ensures WellNumbered(AttemptList(states[i].attempts, states[i].leases, a.job))
    ensures MayAdd(states[i].jobs[a.job].state, AttemptList(states[i].attempts, states[i].leases, a.job),
                   RowOf(states[i + 1].attempts, states[i + 1].leases, a))
  {
    JR.RunPaced(states, labels, i);
    JR.RunMoves(states, labels, i);
    AddsAsDomain(states[i], states[i + 1], a);
    StoredWellNumbered(states[i], a.job);
  }
}
