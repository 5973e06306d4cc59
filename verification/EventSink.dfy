/** The worker's event sink: a first-in first-out retry buffer over a channel that
    may lose a request or its answer, in front of a store that drops repeats. */
module EventSink {
  import opened Domain
  import opened Tables
  import opened Transactions
  import Ids

  // The store's side

  // The event was numbered by the worker of attempt `a`.
  predicate Reported(e: Event, a: AttemptID) {
    e.attempt == Some(a) && e.workerSequence > 0
  }

  // A log may hold the worker's events, and others that carry no number and no key.
  predicate Tidy(log: seq<Event>, a: AttemptID) {
    forall i :: 0 <= i < |log| && log[i].attempt == Some(a) && !Reported(log[i], a) ==> log[i].key == ""
  }

  /** What the store holds of the worker's events, in the order of the log. */
  function Stored(log: seq<Event>, a: AttemptID): seq<Event> {
    if log == [] then []
    else
      var last := log[|log| - 1];
      Stored(log[..|log| - 1], a) + if Reported(last, a) then [last] else []
  }

  datatype Delivery = Delivery(log: seq<Event>, ok: bool)

  /** AppendAttemptEvent on the log of the attempt's job, while the attempt is active. */
  function Deliver(log: seq<Event>, a: AttemptID, e: Event): Delivery {
    if Duplicate(log, a, e) then Delivery(log, true)
    else if Collides(log, a, e) then Delivery(log, false)
    else Delivery(log + [e.(attempt := Some(a))], true)
  }

  lemma DeliverIsAppendEvent(db: DB, w: WorkerID, a: AttemptID, e: Event)
    requires Live(db.attempts, a) && db.attempts[a].worker == w && a.job in db.jobs
    ensures var t, d := AppendEvent(db, w, a, e), Deliver(db.jobs[a.job].log, a, e);
      && (t.err == Ok <==> d.ok)
      && t.db == db.(jobs := db.jobs[a.job := db.jobs[a.job].(log := d.log)])
  {
    assert db.jobs[a.job := db.jobs[a.job].(log := db.jobs[a.job].log)] == db.jobs;
  }

  lemma StoredAppend(log: seq<Event>, a: AttemptID, e: Event)
    ensures Stored(log + [e], a) == Stored(log, a) + if Reported(e, a) then [e] else []
  {
    assert (log + [e])[..|log|] == log;
  }

  lemma {:induction false} StoredHolds(log: seq<Event>, a: AttemptID, e: Event)
    ensures e in Stored(log, a) <==> e in log && Reported(e, a)
  {
    if log != [] {
      StoredHolds(log[..|log| - 1], a, e);
      assert log == log[..|log| - 1] + [log[|log| - 1]];
    }
  }

  // The store may look at the worker's events alone: no other event answers for one.
  lemma StoredDecides(log: seq<Event>, a: AttemptID, e: Event)
    requires Tidy(log, a) && e.workerSequence > 0 && e.key != ""
    ensures Duplicate(log, a, e) <==> Duplicate(Stored(log, a), a, e)
    ensures Collides(log, a, e) <==> Collides(Stored(log, a), a, e)
  {
    var stored := Stored(log, a);
    forall i | 0 <= i < |log| && Reported(log[i], a) ensures log[i] in stored {
      StoredHolds(log, a, log[i]);
    }
    forall i | 0 <= i < |stored| ensures stored[i] in log && Reported(stored[i], a) {
      StoredHolds(log, a, stored[i]);
    }
  }

  lemma StoredDelivers(log: seq<Event>, a: AttemptID, e: Event)
    requires Tidy(log, a) && Reported(e, a) && e.key != ""
    ensures Tidy(Deliver(log, a, e).log, a)
    ensures Deliver(Stored(log, a), a, e) == Delivery(Stored(Deliver(log, a, e).log, a), Deliver(log, a, e).ok)
  {
    StoredDecides(log, a, e);
    StoredAppend(log, a, e);
    assert e.(attempt := Some(a)) == e;
    assert Tidy(log + [e], a);
    var d := Deliver(log, a, e);
    assert d == if Duplicate(log, a, e) then Delivery(log, true)
                else if Collides(log, a, e) then Delivery(log, false) else Delivery(log + [e], true);
  }

  /** The job's log behind the network. */
  class ControlPlane {
    var log: seq<Event>
    var active: bool
    // How many requests got lost, were refused, or whose answer got lost.
    ghost var troubles: nat

    constructor ()
      ensures log == [] && active && troubles == 0
    {
      log, active, troubles := [], true, 0;
    }

    /** Anyone else may write to the log, or end the attempt. */
    method Meddle(a: AttemptID)
      requires Tidy(log, a)
      modifies this`log, this`active
      ensures Tidy(log, a) && Stored(log, a) == Stored(old(log), a)
    {
      var other: Event := *;
      if other.attempt != Some(a) || (other.workerSequence == 0 && other.key == "") {
        StoredAppend(log, a, other);
        log := log + [other];
      }
      active := *;
    }

    /** One request. It may get lost on its way, be refused, or be served; and then
        the answer may get lost. */
    method Post(a: AttemptID, e: Event) returns (ok: bool)
      requires Tidy(log, a) && Reported(e, a) && e.key != ""
      modifies this
      ensures Tidy(log, a)
      ensures Stored(log, a) == Stored(old(log), a) || Stored(log, a) == Deliver(Stored(old(log), a), a, e).log
      ensures ok ==> Deliver(Stored(old(log), a), a, e) == Delivery(Stored(log, a), true)
      ensures troubles == old(troubles) + if ok then 0 else 1
    {
      Meddle(a);
      var arrives, answered := *, *;
      ok := false;
      var served := false;
      if arrives && active {
        StoredDelivers(log, a, e);
        var d := Deliver(log, a, e);
        log := d.log;
        served := d.ok;
      }
      ok := served && answered;
      if !served || !answered {
        troubles := troubles + 1;
      }
    }
  }

  // The worker's side

  function KeyOf(name: string, n: nat): string {
    name + ":" + Ids.Decimal(n)
  }

  lemma KeysDiffer(name: string, m: nat, n: nat)
    requires KeyOf(name, m) == KeyOf(name, n)
    ensures m == n
  {
    assert Ids.Decimal(m) == KeyOf(name, m)[|name| + 1..] && Ids.Decimal(n) == KeyOf(name, n)[|name| + 1..];
    Ids.DecimalInjective(m, n);
  }

  // Events that one sink stamped: numbers strictly grow, and each key follows its number.
  ghost predicate Stamped(events: seq<Event>, name: string, a: AttemptID, last: nat) {
    && (forall i :: 0 <= i < |events| ==>
          && Reported(events[i], a)
          && events[i].workerSequence <= last
          && events[i].key == KeyOf(name, events[i].workerSequence))
    && (forall i, j :: 0 <= i < j < |events| ==> events[i].workerSequence < events[j].workerSequence)
  }

  /** The store has everything that was delivered, in order, and of what is still
      pending at most the first event. */
  predicate InStep(delivered: seq<Event>, stored: seq<Event>, pending: seq<Event>) {
    stored == delivered || (pending != [] && stored == delivered + [pending[0]])
  }

  // The store takes an event that is not among those it has.
  lemma FreshIsTaken(stored: seq<Event>, name: string, a: AttemptID, last: nat, e: Event)
    requires Stamped(stored, name, a, last) && Reported(e, a) && e.workerSequence > last && e.key == KeyOf(name, e.workerSequence)
    ensures Deliver(stored, a, e) == Delivery(stored + [e], true)
  {
    forall i | 0 <= i < |stored| ensures stored[i].key != e.key {
      if stored[i].key == e.key {
        KeysDiffer(name, stored[i].workerSequence, e.workerSequence);
      }
    }
    assert e.(attempt := Some(a)) == e;
  }

  // What was stamped before an event has smaller numbers.
  lemma StampedBefore(events: seq<Event>, e: Event, rest: seq<Event>, name: string, a: AttemptID, last: nat)
    requires Stamped(events + [e] + rest, name, a, last)
    ensures Reported(e, a) && e.workerSequence > 0 && e.key == KeyOf(name, e.workerSequence)
    ensures Stamped(events, name, a, e.workerSequence - 1) && Stamped(events + [e], name, a, last)
  {
    var all := events + [e] + rest;
    assert all[|events|] == e;
    assert forall i :: 0 <= i < |events| ==> all[i] == events[i];
  }

  /** Sending the head of the buffer brings the store exactly to what was delivered and
      the head, whether or not an earlier try had already arrived. */
  lemma HeadIsTaken(delivered: seq<Event>, stored: seq<Event>, pending: seq<Event>, name: string, a: AttemptID, last: nat)
    requires Stamped(delivered + pending, name, a, last) && InStep(delivered, stored, pending) && pending != []
    ensures Reported(pending[0], a) && pending[0].key != ""
    ensures Deliver(stored, a, pending[0]) == Delivery(delivered + [pending[0]], true)
    ensures delivered + pending == delivered + [pending[0]] + pending[1..]
  {
    var e := pending[0];
    assert delivered + pending == delivered + [e] + pending[1..];
    StampedBefore(delivered, e, pending[1..], name, a, last);
    if stored == delivered {
      FreshIsTaken(stored, name, a, e.workerSequence - 1, e);
    } else {
      assert stored[|delivered|] == e;
      assert Duplicate(stored, a, e);
    }
  }

  lemma StampedGrows(events: seq<Event>, name: string, a: AttemptID, last: nat, e: Event)
    requires Stamped(events, name, a, last) && Reported(e, a) && e.workerSequence == last + 1 && e.key == KeyOf(name, last + 1)
    ensures Stamped(events, name, a, last + 1) && Stamped(events + [e], name, a, last + 1)
  {
  }

  /** Whatever the channel did, the stored numbers strictly increase, so no event is
      stored twice or out of order; and the accepted events are the stored ones and
      the pending ones, up to one head that is both. */
  lemma StoredIncreases(delivered: seq<Event>, stored: seq<Event>, pending: seq<Event>, name: string, a: AttemptID, last: nat)
    requires Stamped(delivered + pending, name, a, last) && InStep(delivered, stored, pending)
    ensures Stamped(stored, name, a, last) && stored <= delivered + pending
    ensures delivered + pending == stored + pending || (pending != [] && delivered + pending == stored + pending[1..])
  {
    if stored == delivered {
      var all := delivered + pending;
      assert forall i :: 0 <= i < |stored| ==> all[i] == stored[i];
    } else {
      assert delivered + pending == delivered + [pending[0]] + pending[1..];
      StampedBefore(delivered, pending[0], pending[1..], name, a, last);
    }
  }

  class AttemptSink {
    const id: AttemptID
    const name: string
    const maxPending: int
    const control: ControlPlane
    var sequence: nat
    var pending: seq<Event>
    ghost var delivered: seq<Event>

    /** The events for which Emit has reported no error. */
    ghost function Accepted(): seq<Event>
      reads this
    {
      delivered + pending
    }

    ghost predicate Valid()
      reads this, control
    {
      && 0 < maxPending && |pending| <= maxPending
      && Tidy(control.log, id)
      && Stamped(Accepted(), name, id, sequence)
      && InStep(delivered, Stored(control.log, id), pending)
    }

    constructor (id: AttemptID, name: string, retryBuffer: int, control: ControlPlane)
      requires control.log == []
      ensures Valid() && fresh(this) && this.control == control && this.id == id
      ensures Accepted() == [] && pending == [] && maxPending == if retryBuffer <= 0 then 64 else retryBuffer
    {
      this.id, this.name, this.control := id, name, control;
      maxPending := if retryBuffer <= 0 then 64 else retryBuffer;
      sequence, pending, delivered := 0, [], [];
    }

    /** Accepts the event, unless the buffer is full; sends what it can. */
    method Emit(e: Event) returns (ok: bool)
      requires Valid()
      modifies this, control
      ensures Valid()
      ensures sequence == old(sequence) + 1
      ensures ok ==> Accepted() == old(Accepted()) + [Stamp(e)]
      ensures !ok ==> Accepted() == old(Accepted()) && |pending| == maxPending
      ensures pending != [] ==> control.troubles > old(control.troubles)
    {
      ghost var before, last := Accepted(), sequence;
      sequence := sequence + 1;
      var mine := Stamp(e);
      StampedGrows(before, name, id, last, mine);
      var flushed := FlushLocked();
      if !flushed {
        if |pending| >= maxPending {
          return false;
        }
        assert delivered + (pending + [mine]) == before + [mine];
        pending := pending + [mine];
        return true;
      }
      FreshIsTaken(before, name, id, last, mine);
      var sent := control.Post(id, mine);
      if sent {
        delivered := delivered + [mine];
      } else {
        pending := pending + [mine];
      }
      assert Accepted() == before + [mine];
      return true;
    }

    function Stamp(e: Event): Event
      reads this
    {
      e.(workerSequence := sequence, key := KeyOf(name, sequence), attempt := Some(id))
    }

    method Flush() returns (ok: bool)
      requires Valid()
      modifies this, control
      ensures Valid() && Accepted() == old(Accepted()) && sequence == old(sequence)
      ensures ok ==> Stored(control.log, id) == Accepted() && pending == []
      ensures control.troubles == old(control.troubles) + if ok then 0 else 1
    {
      ok := FlushLocked();
    }

    /** Sends the buffer from its head on until a request fails. */
    method FlushLocked() returns (ok: bool)
      requires Valid()
      modifies this, control
      ensures Valid() && Accepted() == old(Accepted()) && sequence == old(sequence)
      ensures |pending| <= |old(pending)|
      ensures ok ==> Stored(control.log, id) == delivered == Accepted() && pending == []
      ensures !ok ==> pending != []
      ensures control.troubles == old(control.troubles) + if ok then 0 else 1
    {
      while |pending| > 0
        invariant Valid() && Accepted() == old(Accepted()) && sequence == old(sequence)
        invariant |pending| <= |old(pending)| && control.troubles == old(control.troubles)
      {
        HeadIsTaken(delivered, Stored(control.log, id), pending, name, id, sequence);
        var sent := control.Post(id, pending[0]);
        if !sent {
          return false;
        }
        delivered, pending := delivered + [pending[0]], pending[1..];
      }
      assert Accepted() == delivered;
      return true;
    }

    /** The end of a successful execution: events first, then the completion, which is
        sent only if every accepted event is stored. */
    method Conclude() returns (completed: bool)
      requires Valid()
      modifies this, control
      ensures Valid() && Accepted() == old(Accepted())
      ensures completed ==> Stored(control.log, id) == Accepted() && pending == [] && !control.active
      ensures pending != [] ==> control.troubles > old(control.troubles)
    {
      var flushed := Flush();
      if !flushed {
        return false;
      }
      var answered := *;
      completed := control.active && answered;
      if control.active {
        control.active := false;
      }
    }
  }
}
