/** What every run guarantees about sessions, epochs and reservations. */
module SessionRuns {
  import opened Domain
  import opened Tables
  import opened Transactions
  import opened Invariants
  import opened Progress
  import opened Fences
  import opened Protocol
  import opened Safety
  import opened Epochs
  import opened SessionTurns
  import opened Leasing
  import opened JobRuns

  // What these theorems rely on.
  ghost predicate Staffed(db: DB) {
    Reserved(db.workers, db.sessions) && Owned(db.jobs, db.sessions)
  }

  lemma RunStaffed(states: seq<DB>, labels: seq<Label>, i: nat)
    requires IsRun(states, labels) && i < |states|
    ensures Staffed(states[i])
  {
    Reachable(states, labels, i);
  }

  lemma RunGuards(states: seq<DB>, labels: seq<Label>, i: nat)
    requires IsRun(states, labels) && i < |labels|
    ensures Guards(states[i], states[i + 1])
  {
    assert Follows(states, labels, i);
    Reachable(states, labels, i);
    StepGuards(states[i], labels[i]);
  }

  lemma RunGrants(states: seq<DB>, labels: seq<Label>, i: nat, a: AttemptID)
    requires IsRun(states, labels) && i < |labels| && a in states[i + 1].attempts && a !in states[i].attempts
    ensures Enabled(states[i], labels[i]) && Apply(states[i], labels[i]) == states[i + 1]
    ensures Grants(states[i], labels[i], a)
  {
    assert Follows(states, labels, i);
    Reachable(states, labels, i);
    StepGrants(states[i], labels[i], a);
  }

  lemma {:induction false} GuardsOverRuns(states: seq<DB>, labels: seq<Label>, i: nat, k: nat)
    requires IsRun(states, labels) && i <= k < |states|
    ensures Guards(states[i], states[k])
    decreases k - i
  {
    if i == k {
      SameGuards(states[i], states[k]);
    } else {
      GuardsOverRuns(states, labels, i, k - 1);
      GuardsOneMore(states, labels, states[i], k - 1);
    }
  }

  lemma GuardsOneMore(states: seq<DB>, labels: seq<Label>, start: DB, k: nat)
    requires IsRun(states, labels) && k < |labels| && Guards(start, states[k])
    ensures Guards(start, states[k + 1])
  {
    RunGuards(states, labels, k);
    GuardsTransitive(start, states[k], states[k + 1]);
  }

  // The epoch fence

  // The gate of ClaimNextJob alone keeps a stale worker out, whatever authentication does.
  lemma BehindMeetsNoGate(db: DB, w: WorkerID, j: JobID)
    requires Reserved(db.workers, db.sessions) && Behind(db.workers, db.sessions, w) && j in db.jobs
    ensures GateOf(db, w, j) == Skip
  {
    var session := db.jobs[j].spec.session;
    if session.Some? && session.value in db.sessions && db.sessions[session.value].state.SessionActive? {
      assert Serves(db.workers, db.sessions, session.value);
    }
  }

  lemma StaleLeasesNothing(db: DB, l: Label, a: AttemptID, w: WorkerID)
    requires Reserved(db.workers, db.sessions) && Behind(db.workers, db.sessions, w)
    requires Enabled(db, l) && Grants(db, l, a)
    ensures l.w != w
  {
    if l.w == w {
      BehindMeetsNoGate(db, w, a.job);
    }
  }

  lemma BehindStays(db: DB, db': DB, w: WorkerID)
    requires Guards(db, db') && Behind(db.workers, db.sessions, w)
    ensures Behind(db'.workers, db'.sessions, w)
  {
    assert SessionMoves(db.sessions[db.workers[w].reserved.value], db'.sessions[db.workers[w].reserved.value]);
  }

  lemma FencedInRun(states: seq<DB>, labels: seq<Label>, k: nat, w: WorkerID, a: AttemptID)
    requires IsRun(states, labels) && k < |labels|
    requires Behind(states[k].workers, states[k].sessions, w)
    requires a in states[k + 1].attempts && a !in states[k].attempts
    ensures states[k + 1].attempts[a].worker != w
  {
    RunStaffed(states, labels, k);
    RunGrants(states, labels, k, a);
    StaleLeasesNothing(states[k], labels[k], a, w);
  }

  /** Once the session's epoch has passed that of a worker reserved for it, then in
      every continuation of the run the worker stays stale, is refused by
      authentication, and no attempt is ever created for it again, of whatever job. */
  lemma PermanentEpochFence(states: seq<DB>, labels: seq<Label>, i: nat, k: nat, w: WorkerID)
    requires IsRun(states, labels) && i <= k < |states| && Behind(states[i].workers, states[i].sessions, w)
    ensures Behind(states[k].workers, states[k].sessions, w)
    ensures !Authenticated(states[k], w)
    ensures forall j :: j in states[k].jobs ==> GateOf(states[k], w, j) == Skip
    ensures k < |labels| ==> forall a :: a in states[k + 1].attempts && a !in states[k].attempts ==>
      states[k + 1].attempts[a].worker != w
  {
    GuardsOverRuns(states, labels, i, k);
    BehindStays(states[i], states[k], w);
    RunStaffed(states, labels, k);
    forall j | j in states[k].jobs ensures GateOf(states[k], w, j) == Skip {
      BehindMeetsNoGate(states[k], w, j);
    }
    if k < |labels| {
      forall a | a in states[k + 1].attempts && a !in states[k].attempts ensures states[k + 1].attempts[a].worker != w {
        FencedInRun(states, labels, k, w, a);
      }
    }
  }

  // Affinity

  /** An active session is served by a worker that holds its reservation at its epoch,
      and no worker serves two. */
  lemma OneServer(states: seq<DB>, labels: seq<Label>, i: nat, s: SessionID, t: SessionID)
    requires IsRun(states, labels) && i < |states|
    requires s in states[i].sessions && states[i].sessions[s].state.SessionActive?
    requires t in states[i].sessions && states[i].sessions[t].state.SessionActive?
    ensures Serves(states[i].workers, states[i].sessions, s)
    ensures states[i].sessions[s].worker == states[i].sessions[t].worker ==> s == t
  {
    RunStaffed(states, labels, i);
    assert Serves(states[i].workers, states[i].sessions, s) && Serves(states[i].workers, states[i].sessions, t);
  }

  // A job of `s` that is not a rebuild step is leased by the worker that then serves `s`.
  lemma GrantServes(db: DB, l: Label, a: AttemptID, s: SessionID)
    requires Enabled(db, l) && Grants(db, l, a) && db.jobs[a.job].spec.session == Some(s) && !a.job.Rebuild?
    ensures var db' := Apply(db, l);
      && s in db.sessions && s in db'.sessions
      && db'.sessions[s].epoch == db.sessions[s].epoch
      && db'.sessions[s].state.SessionActive?
      && db'.sessions[s].worker == Some(db'.attempts[a].worker)
      && db'.sessions[s].box == Some(db'.attempts[a].box)
  {
  }

  lemma ServesInRun(states: seq<DB>, labels: seq<Label>, i: nat, a: AttemptID, s: SessionID)
    requires IsRun(states, labels) && i < |labels| && a in states[i + 1].attempts && a !in states[i].attempts
    requires !a.job.Rebuild? && a.job in states[i].jobs && states[i].jobs[a.job].spec.session == Some(s)
    ensures s in states[i].sessions && s in states[i + 1].sessions
    ensures var v, x := states[i + 1].sessions[s], states[i + 1].attempts[a];
      && v.epoch == states[i].sessions[s].epoch && v.state.SessionActive?
      && v.worker == Some(x.worker) && v.box == Some(x.box)
  {
    RunGrants(states, labels, i, a);
    GrantServes(states[i], labels[i], a, s);
  }

  /** All the attempts that a session's own jobs get within one epoch go to one worker
      in one sandbox. */
  lemma SessionAffinity(states: seq<DB>, labels: seq<Label>, i: nat, a: AttemptID, k: nat, b: AttemptID, s: SessionID)
    requires IsRun(states, labels) && i <= k < |labels|
    requires a in states[i + 1].attempts && a !in states[i].attempts && !a.job.Rebuild?
    requires b in states[k + 1].attempts && b !in states[k].attempts && !b.job.Rebuild?
    requires a.job in states[i].jobs && states[i].jobs[a.job].spec.session == Some(s)
    requires b.job in states[k].jobs && states[k].jobs[b.job].spec.session == Some(s)
    requires s in states[i].sessions && s in states[k].sessions && states[i].sessions[s].epoch == states[k].sessions[s].epoch
    ensures states[i + 1].attempts[a].worker == states[k + 1].attempts[b].worker
    ensures states[i + 1].attempts[a].box == states[k + 1].attempts[b].box
  {
    ServesInRun(states, labels, i, a, s);
    ServesInRun(states, labels, k, b, s);
    GuardsOverRuns(states, labels, i + 1, k + 1);
    assert SessionMoves(states[i + 1].sessions[s], states[k + 1].sessions[s]);
  }

  // Closure

  /** A session that has ended stays ended, and owns no unfinished job, no active
      attempt and no lease, then and ever after. */
  lemma SessionClosure(states: seq<DB>, labels: seq<Label>, i: nat, k: nat, s: SessionID)
    requires IsRun(states, labels) && i <= k < |states| && s in states[i].sessions && states[i].sessions[s].state.Terminal()
    ensures s in states[k].sessions && states[k].sessions[s].state == states[i].sessions[s].state
    ensures forall j :: OwnedBy(states[k].jobs, j, s) ==>
      states[k].jobs[j].state.Terminal() && ActiveAttempts(states[k], j) == {} && LeasesOf(states[k], j) == {}
  {
    GuardsOverRuns(states, labels, i, k);
    assert SessionMoves(states[i].sessions[s], states[k].sessions[s]);
    RunStaffed(states, labels, k);
    RunPaced(states, labels, k);
    forall j | OwnedBy(states[k].jobs, j, s)
      ensures states[k].jobs[j].state.Terminal() && ActiveAttempts(states[k], j) == {} && LeasesOf(states[k], j) == {}
    {
      LeasedAlone(states[k], j);
    }
  }

  /** In every run, any step but the meeting of a replacement ends a session if and only if
      it closes it, kills its worker where there is no recovery, or finds its budget used up;
      a replacement ends it only as lost, while it recovers. */
  lemma SessionEndsExactly(states: seq<DB>, labels: seq<Label>, i: nat, s: SessionID)
    requires IsRun(states, labels) && i < |labels| && s in states[i].sessions && !states[i].sessions[s].state.Terminal()
    ensures s in states[i + 1].sessions
    ensures var v', l := states[i + 1].sessions[s], labels[i];
      if l.AdoptReplacement? then v'.state.Terminal() ==> l.s == s && states[i].sessions[s].state.SessionRecovering? && v'.state.SessionLost?
      else if EndsSession(states[i], l, s) then v'.state == if l.CloseJobSession? then SessionClosed else SessionLost
      else !v'.state.Terminal()
  {
    assert Follows(states, labels, i);
    Reachable(states, labels, i);
    if labels[i].AdoptReplacement? {
      StepTurns(states[i], labels[i]);
      assert Turn(states[i], labels[i], s, states[i + 1].sessions[s]);
    } else {
      OnlyEndsWhenTold(states[i], labels[i], s);
      if EndsSession(states[i], labels[i], s) {
        EndsWhenTold(states[i], labels[i], s);
      }
    }
  }
}
