/** How often the controller turns to the provider within one epoch of a session. */
module ReplacementRuns {
  import opened Domain
  import opened Tables
  import opened Transactions
  import opened Recovery
  import opened Fences
  import opened Protocol
  import opened SessionTurns
  import opened SessionRuns
  import opened RecoveryRuns

  // Step `i` provisions for epoch `e` of the session.
  ghost predicate ProvisionAt(states: seq<DB>, labels: seq<Label>, s: SessionID, e: nat, i: nat)
    requires i < |labels| && |states| == |labels| + 1
  {
    Provisions(states[i], labels[i], s) && states[i].sessions[s].epoch == e
  }

  // How many of the first `n` steps do so.
  ghost function EpochProvisions(states: seq<DB>, labels: seq<Label>, s: SessionID, e: nat, n: nat): nat
    requires n <= |labels| && |states| == |labels| + 1
  {
    if n == 0 then 0
    else EpochProvisions(states, labels, s, e, n - 1) + (if ProvisionAt(states, labels, s, e, n - 1) then 1 else 0)
  }

  // The recovery at epoch `e` was given up and waits for its retry.
  predicate WaitsForRetry(db: DB, s: SessionID, e: nat) {
    && s in db.sessions && db.sessions[s].epoch == e
    && db.sessions[s].state.SessionRecovering? && db.sessions[s].recovery.RecoveryFailed?
  }

  // Step `n` gives the recovery at epoch `e` up.
  ghost predicate GaveUpAt(states: seq<DB>, labels: seq<Label>, s: SessionID, e: nat, n: nat)
    requires n < |labels| && |states| == |labels| + 1
  {
    GivesUp(states[n], labels[n], s) && states[n].sessions[s].epoch == e && WaitsForRetry(states[n + 1], s, e)
  }

  ghost predicate WaitsThrough(states: seq<DB>, s: SessionID, e: nat, n: nat, k: nat)
    requires k < |states|
  {
    forall m :: n < m <= k ==> WaitsForRetry(states[m], s, e)
  }

  // The recovery was given up in some step from `i` on, and has waited ever since.
  ghost predicate GivenUpSince(states: seq<DB>, labels: seq<Label>, s: SessionID, e: nat, i: nat, k: nat)
    requires k < |labels| && |states| == |labels| + 1
  {
    exists n :: i <= n < k && GaveUpAt(states, labels, s, e, n) && WaitsThrough(states, s, e, n, k)
  }

  predicate RetryDue(db: DB, s: SessionID, at: Time)
    requires s in db.sessions
  {
    db.sessions[s].recoveryAfter.None? || db.sessions[s].recoveryAfter.value <= at
  }

  // The controller tries session `s` at epoch `e` in step `k`.
  ghost predicate TriesAt(states: seq<DB>, labels: seq<Label>, s: SessionID, e: nat, k: nat)
    requires k < |labels| && |states| == |labels| + 1
  {
    && labels[k].ProvisionReplacement? && labels[k].s == s
    && s in states[k].sessions && states[k].sessions[s].epoch == e
  }

  /** After a provision in step `i`, the retry in step `k` has what it needs. */
  ghost predicate MayRetry(states: seq<DB>, labels: seq<Label>, s: SessionID, e: nat, i: nat, k: nat)
    requires k < |labels| && |states| == |labels| + 1
  {
    && TriesAt(states, labels, s, e, k)
    && GivenUpSince(states, labels, s, e, i, k)
    && RetryDue(states[k], s, labels[k].at)
    && WithinBudget(labels[k].limit, states[k].sessions[s].recoveries + 1)
  }

  // A session's turns while its epoch stays `e`.
  ghost predicate TurnsAt(states: seq<DB>, labels: seq<Label>, s: SessionID, e: nat, m: nat)
    requires m < |labels| && |states| == |labels| + 1
  {
    && s in states[m].sessions && s in states[m + 1].sessions
    && states[m].sessions[s].epoch == e && states[m + 1].sessions[s].epoch == e
    && Turn(states[m], labels[m], s, states[m + 1].sessions[s])
  }

  lemma SameEpochBetween(states: seq<DB>, labels: seq<Label>, s: SessionID, e: nat, i: nat, k: nat, m: nat)
    requires IsRun(states, labels) && i <= m < k < |states|
    requires s in states[i].sessions && states[i].sessions[s].epoch == e && s in states[k].sessions && states[k].sessions[s].epoch == e
    ensures TurnsAt(states, labels, s, e, m)
  {
    RunTurns(states, labels, m);
    GuardsOverRuns(states, labels, i, m);
    GuardsOverRuns(states, labels, m, m + 1);
    GuardsOverRuns(states, labels, m + 1, k);
    assert SessionMoves(states[i].sessions[s], states[m].sessions[s]);
    assert SessionMoves(states[m].sessions[s], states[m + 1].sessions[s]);
    assert SessionMoves(states[m + 1].sessions[s], states[k].sessions[s]);
  }

  // The controller has turned to the provider, and its claim is not renewed within the epoch.
  predicate NoLongerPending(db: DB, s: SessionID) {
    s in db.sessions && !(db.sessions[s].state.SessionRecovering? && db.sessions[s].recovery.RecoveryPending?)
  }

  lemma {:induction false} StaysClaimed(states: seq<DB>, labels: seq<Label>, s: SessionID, e: nat, i: nat, k: nat)
    requires i < k < |states| && |states| == |labels| + 1 && ProvisionAt(states, labels, s, e, i)
    requires forall m :: i <= m < k ==> TurnsAt(states, labels, s, e, m)
    requires s in states[i + 1].sessions && states[i + 1].sessions[s].recoveries == states[i].sessions[s].recoveries + 1
    ensures NoLongerPending(states[k], s)
    decreases k
  {
    assert TurnsAt(states, labels, s, e, k - 1);
    if k - 1 > i {
      StaysClaimed(states, labels, s, e, i, k - 1);
    }
  }

  // Whoever waits for a retry was given up in the epoch.
  lemma {:induction false} WaitsSinceGivenUp(states: seq<DB>, labels: seq<Label>, s: SessionID, e: nat, i: nat, k: nat)
    requires i < k < |labels| && |states| == |labels| + 1 && ProvisionAt(states, labels, s, e, i)
    requires forall m :: i <= m < k ==> TurnsAt(states, labels, s, e, m)
    requires s in states[i + 1].sessions && states[i + 1].sessions[s].recoveries == states[i].sessions[s].recoveries + 1
    requires WaitsForRetry(states[k], s, e)
    ensures GivenUpSince(states, labels, s, e, i, k)
    decreases k
  {
    assert TurnsAt(states, labels, s, e, k - 1);
    if GivesUp(states[k - 1], labels[k - 1], s) {
      assert GaveUpAt(states, labels, s, e, k - 1) && WaitsThrough(states, s, e, k - 1, k);
    } else if k - 1 > i {
      WaitsSinceGivenUp(states, labels, s, e, i, k - 1);
      var n :| i <= n < k - 1 && GaveUpAt(states, labels, s, e, n) && WaitsThrough(states, s, e, n, k - 1);
      assert WaitsThrough(states, s, e, n, k);
    }
  }

  lemma ProvisionMeans(db: DB, l: Label, s: SessionID, e: nat)
    requires l.ProvisionReplacement? && l.s == s && s in db.sessions && db.sessions[s].epoch == e && NoLongerPending(db, s)
    ensures Provisions(db, l, s) <==>
      WaitsForRetry(db, s, e) && RetryDue(db, s, l.at) && WithinBudget(l.limit, db.sessions[s].recoveries + 1)
  {
  }

  /** After the controller has turned to the provider at epoch `e`, it does so again at the
      same epoch, in step `k`, if and only if in between the recovery was given up and has
      waited since, the retry is due and the budget allows it. It may be given up because
      no worker registered, because a worker's restore failed, or because the provider
      refused. */
  lemma AnotherReplacement(states: seq<DB>, labels: seq<Label>, s: SessionID, e: nat, i: nat, k: nat)
    requires IsRun(states, labels) && i < k < |labels|
    requires ProvisionAt(states, labels, s, e, i) && TriesAt(states, labels, s, e, k)
    ensures ProvisionAt(states, labels, s, e, k) <==> MayRetry(states, labels, s, e, i, k)
  {
    forall m | i <= m < k ensures TurnsAt(states, labels, s, e, m) {
      SameEpochBetween(states, labels, s, e, i, k, m);
    }
    assert Follows(states, labels, i);
    ProvisionsClaim(states[i], labels[i], s);
    StaysClaimed(states, labels, s, e, i, k);
    ProvisionMeans(states[k], labels[k], s, e);
    if WaitsForRetry(states[k], s, e) {
      WaitsSinceGivenUp(states, labels, s, e, i, k);
    }
    if GivenUpSince(states, labels, s, e, i, k) {
      var n :| i <= n < k && GaveUpAt(states, labels, s, e, n) && WaitsThrough(states, s, e, n, k);
      assert WaitsForRetry(states[k], s, e);
    }
  }

  // Two provisions within the first `n` steps.
  ghost predicate Twice(states: seq<DB>, labels: seq<Label>, s: SessionID, e: nat, n: nat)
    requires n <= |labels| && |states| == |labels| + 1
  {
    exists i, k :: 0 <= i < k < n && ProvisionAt(states, labels, s, e, i) && ProvisionAt(states, labels, s, e, k)
  }

  lemma {:induction false} CountsOnce(states: seq<DB>, labels: seq<Label>, s: SessionID, e: nat, n: nat)
    requires n <= |labels| && |states| == |labels| + 1
    ensures EpochProvisions(states, labels, s, e, n) > 0 <==> exists i :: 0 <= i < n && ProvisionAt(states, labels, s, e, i)
  {
    if n > 0 {
      CountsOnce(states, labels, s, e, n - 1);
      if ProvisionAt(states, labels, s, e, n - 1) {
        assert 0 <= n - 1 < n;
      }
    }
  }

  lemma {:induction false} CountsTwice(states: seq<DB>, labels: seq<Label>, s: SessionID, e: nat, n: nat)
    requires n <= |labels| && |states| == |labels| + 1
    ensures EpochProvisions(states, labels, s, e, n) > 1 <==> Twice(states, labels, s, e, n)
  {
    if n > 0 {
      CountsTwice(states, labels, s, e, n - 1);
      CountsOnce(states, labels, s, e, n - 1);
    }
  }

  // Some retry within the first `n` steps had what it needed.
  ghost predicate Retried(states: seq<DB>, labels: seq<Label>, s: SessionID, e: nat, n: nat)
    requires n <= |labels| && |states| == |labels| + 1
  {
    exists i, k :: 0 <= i < k < n && ProvisionAt(states, labels, s, e, i) && MayRetry(states, labels, s, e, i, k)
  }

  /** An epoch gets at most one replacement if and only if no recovery of that epoch that
      was given up is tried again when due and within the budget. */
  lemma OnePerEpoch(states: seq<DB>, labels: seq<Label>, s: SessionID, e: nat, n: nat)
    requires IsRun(states, labels) && n <= |labels|
    ensures EpochProvisions(states, labels, s, e, n) <= 1 <==> !Retried(states, labels, s, e, n)
  {
    CountsTwice(states, labels, s, e, n);
    if Twice(states, labels, s, e, n) {
      var i, k :| 0 <= i < k < n && ProvisionAt(states, labels, s, e, i) && ProvisionAt(states, labels, s, e, k);
      AnotherReplacement(states, labels, s, e, i, k);
      assert MayRetry(states, labels, s, e, i, k);
    }
    if Retried(states, labels, s, e, n) {
      var i, k :| 0 <= i < k < n && ProvisionAt(states, labels, s, e, i) && MayRetry(states, labels, s, e, i, k);
      AnotherReplacement(states, labels, s, e, i, k);
      assert ProvisionAt(states, labels, s, e, k);
    }
  }
}
