/** Session checkpoints: creation, completion, garbage collection and the choice of
    the one to restore. */
module Checkpoints {
  import opened Domain
  import opened Tables

  type CheckpointID = nat

  datatype CheckpointState = Creating | Ready | Partial | Corrupt | OtherState(name: string)

  datatype Checkpoint = Checkpoint(
    session: SessionID,
    epoch: nat,
    sequence: nat,
    adapter: string,
    location: string,
    state: CheckpointState,
    expires: Option<Time>
  )

  // The columns of a session row that checkpoints use.
  datatype Owner = Owner(state: SessionState, epoch: nat, latest: Option<CheckpointID>)

  type Rows = map<CheckpointID, Checkpoint>
  type Owners = map<SessionID, Owner>

  // UNIQUE(session_id, sequence)
  ghost predicate Unique(rows: Rows) {
    forall c, d :: c in rows && d in rows && rows[c].session == rows[d].session && rows[c].sequence == rows[d].sequence ==> c == d
  }

  ghost predicate Anchored(rows: Rows, owners: Owners) {
    forall c :: c in rows ==> rows[c].session in owners
  }

  /** A session's latest checkpoint is a row of the table, and the session's own. */
  ghost predicate Pointed(rows: Rows, owners: Owners) {
    forall s :: s in owners && owners[s].latest.Some? ==>
      owners[s].latest.value in rows && rows[owners[s].latest.value].session == s
  }

  // The collection rule

  predicate Expired(c: Checkpoint, at: Time) {
    c.expires.Some? && c.expires.value <= at
  }

  // The ready checkpoints of the session that are newer than `c`.
  function Newer(rows: Rows, c: CheckpointID): set<CheckpointID>
    requires c in rows
  {
    set d | d in rows && rows[d].session == rows[c].session && rows[d].state.Ready? && rows[d].sequence > rows[c].sequence
  }

  /** What a collection removes: everything of a closed session, if so configured; of
      other sessions the broken checkpoints, the expired ones that never got ready, and
      the expired ready ones that are not among the `keep` newest. */
  predicate Removable(rows: Rows, owners: Owners, c: CheckpointID, at: Time, keep: nat, purge: bool)
    requires c in rows
  {
    && rows[c].session in owners
    && var x := rows[c];
    if purge && owners[x.session].state.Terminal() then true
    else if x.state.Ready? then Expired(x, at) && |Newer(rows, c)| >= keep
    else x.state.Corrupt? || x.state.Partial? || Expired(x, at)
  }

  function Collected(rows: Rows, owners: Owners, at: Time, keep: nat, purge: bool): Rows {
    map c | c in rows && !Removable(rows, owners, c, at, keep, purge) :: rows[c]
  }

  function Affected(rows: Rows, owners: Owners, at: Time, keep: nat, purge: bool): set<SessionID> {
    set c | c in rows && Removable(rows, owners, c, at, keep, purge) :: rows[c].session
  }

  predicate IsNewestReady(rows: Rows, s: SessionID, c: CheckpointID) {
    && c in rows && rows[c].session == s && rows[c].state.Ready?
    && forall d :: d in rows && rows[d].session == s && rows[d].state.Ready? ==> rows[d].sequence <= rows[c].sequence
  }

  lemma NewestExists(rows: Rows, s: SessionID, among: set<CheckpointID>)
    requires among != {} && forall c :: c in among ==> c in rows && rows[c].session == s && rows[c].state.Ready?
    ensures exists c :: c in among && forall d :: d in among ==> rows[d].sequence <= rows[c].sequence
  {
    var x :| x in among;
    if among != {x} {
      NewestExists(rows, s, among - {x});
      var y :| y in among - {x} && forall d :: d in among - {x} ==> rows[d].sequence <= rows[y].sequence;
      var best := if rows[x].sequence > rows[y].sequence then x else y;
      assert forall d :: d in among ==> rows[d].sequence <= rows[best].sequence;
    }
  }

  /** The ready checkpoint of the session with the highest sequence, or none. */
  function NewestReady(rows: Rows, s: SessionID): (r: Option<CheckpointID>)
    requires Unique(rows)
    ensures r.Some? ==> IsNewestReady(rows, s, r.value)
    ensures r.None? ==> forall c :: c in rows && rows[c].session == s ==> !rows[c].state.Ready?
  {
    var ready := set c | c in rows && rows[c].session == s && rows[c].state.Ready?;
    if ready == {} then
      assert forall c :: c in rows && rows[c].session == s && rows[c].state.Ready? ==> c in ready;
      None
    else
      NewestExists(rows, s, ready);
      var c :| c in rows && IsNewestReady(rows, s, c);
      Some(c)
  }

  function Repointed(owners: Owners, rows: Rows, affected: set<SessionID>): Owners
    requires Unique(rows)
  {
    map s | s in owners :: if s in affected then owners[s].(latest := NewestReady(rows, s)) else owners[s]
  }

  lemma CollectedUnique(rows: Rows, owners: Owners, at: Time, keep: nat, purge: bool)
    requires Unique(rows)
    ensures Unique(Collected(rows, owners, at, keep, purge))
  {
  }

  /** No session is left pointing at a row that the collection deleted. */
  lemma CollectedPointed(rows: Rows, owners: Owners, at: Time, keep: nat, purge: bool)
    requires Unique(rows) && Anchored(rows, owners) && Pointed(rows, owners)
    ensures var rows' := Collected(rows, owners, at, keep, purge);
      && Unique(rows') && Anchored(rows', owners)
      && Pointed(rows', Repointed(owners, rows', Affected(rows, owners, at, keep, purge)))
  {
    CollectedUnique(rows, owners, at, keep, purge);
    var rows' := Collected(rows, owners, at, keep, purge);
    var affected := Affected(rows, owners, at, keep, purge);
    forall s | s in owners && s !in affected && owners[s].latest.Some?
      ensures owners[s].latest.value in rows'
    {
      RemovalAffects(rows, owners, at, keep, purge, owners[s].latest.value);
    }
  }

  lemma RemovalAffects(rows: Rows, owners: Owners, at: Time, keep: nat, purge: bool, c: CheckpointID)
    requires c in rows
    ensures Removable(rows, owners, c, at, keep, purge) ==> rows[c].session in Affected(rows, owners, at, keep, purge)
  {
  }

  /** A second collection at the same time removes nothing. */
  lemma SecondPassIdle(rows: Rows, owners: Owners, owners': Owners, at: Time, keep: nat, purge: bool)
    requires owners'.Keys == owners.Keys && forall s :: s in owners ==> owners'[s].state == owners[s].state
    ensures var rows' := Collected(rows, owners, at, keep, purge);
      Collected(rows', owners', at, keep, purge) == rows'
  {
    var rows' := Collected(rows, owners, at, keep, purge);
    forall c | c in rows' ensures !Removable(rows', owners', c, at, keep, purge) {
      SmallerSet(Newer(rows', c), Newer(rows, c));
    }
  }

  /** Whatever has expired, the newest `keep` ready checkpoints of a session stay, unless
      the session is closed and purged. */
  lemma NewestStay(rows: Rows, owners: Owners, at: Time, keep: nat, purge: bool, c: CheckpointID)
    requires c in rows && rows[c].state.Ready? && |Newer(rows, c)| < keep
    ensures c in Collected(rows, owners, at, keep, purge)
            <==> !(purge && rows[c].session in owners && owners[rows[c].session].state.Terminal())
  {
  }

  // The scan

  // What ORDER BY session_id, sequence DESC lists.
  ghost predicate IsScan(rows: Rows, scan: seq<CheckpointID>) {
    && (forall i, j :: 0 <= i < j < |scan| ==> scan[i] != scan[j])
    && (forall c :: c in scan <==> c in rows)
    && (forall i, j :: 0 <= i < j < |scan| ==>
          || rows[scan[i]].session < rows[scan[j]].session
          || (rows[scan[i]].session == rows[scan[j]].session && rows[scan[i]].sequence > rows[scan[j]].sequence))
  }

  // The ready checkpoints of session `s` among those seen.
  function ReadyIn(rows: Rows, seen: set<CheckpointID>, s: SessionID): set<CheckpointID> {
    set c | c in seen && c in rows && rows[c].session == s && rows[c].state.Ready?
  }

  function Listed(scan: seq<CheckpointID>): set<CheckpointID> {
    set c | c in scan
  }

  // The scan meets every newer ready checkpoint of a session before an older one.
  lemma ReadySoFar(rows: Rows, scan: seq<CheckpointID>, k: nat)
    requires IsScan(rows, scan) && k < |scan|
    ensures scan[k] in rows && ReadyIn(rows, Listed(scan[..k]), rows[scan[k]].session) == Newer(rows, scan[k])
    ensures scan[k] !in Listed(scan[..k]) && Listed(scan[..k + 1]) == Listed(scan[..k]) + {scan[k]}
  {
    assert scan[k] in scan;
    var c := scan[k];
    assert scan[..k + 1] == scan[..k] + [c];
    forall d | d in Newer(rows, c) ensures d in scan[..k] {
      var i :| 0 <= i < |scan| && scan[i] == d;
      assert i < k;
      assert scan[..k][i] == d;
    }
    forall d | d in ReadyIn(rows, Listed(scan[..k]), rows[c].session) ensures d in Newer(rows, c) {
      var i :| 0 <= i < k && scan[i] == d;
    }
  }

  // The counters of the scan, for the sessions that are not purged.
  ghost predicate Ranked(rank: map<SessionID, nat>, rows: Rows, owners: Owners, purge: bool, seen: set<CheckpointID>) {
    forall s :: s in owners && !(purge && owners[s].state.Terminal()) ==> RankOf(rank, s) == |ReadyIn(rows, seen, s)|
  }

  lemma ReadyGrows(rows: Rows, seen: set<CheckpointID>, c: CheckpointID, s: SessionID)
    requires c in rows && c !in seen
    ensures |ReadyIn(rows, seen + {c}, s)|
         == |ReadyIn(rows, seen, s)| + if rows[c].session == s && rows[c].state.Ready? then 1 else 0
  {
    if rows[c].session == s && rows[c].state.Ready? {
      assert ReadyIn(rows, seen + {c}, s) == ReadyIn(rows, seen, s) + {c};
    } else {
      assert ReadyIn(rows, seen + {c}, s) == ReadyIn(rows, seen, s);
    }
  }

  lemma RankedGrows(rank: map<SessionID, nat>, rows: Rows, owners: Owners, purge: bool, seen: set<CheckpointID>, c: CheckpointID)
    requires Ranked(rank, rows, owners, purge, seen) && c in rows && c !in seen && rows[c].session in owners
    ensures (purge && owners[rows[c].session].state.Terminal()) || !rows[c].state.Ready? ==>
      Ranked(rank, rows, owners, purge, seen + {c})
    ensures rows[c].state.Ready? ==>
      Ranked(rank[rows[c].session := RankOf(rank, rows[c].session) + 1], rows, owners, purge, seen + {c})
  {
    forall s ensures |ReadyIn(rows, seen + {c}, s)|
                  == |ReadyIn(rows, seen, s)| + if rows[c].session == s && rows[c].state.Ready? then 1 else 0 {
      ReadyGrows(rows, seen, c, s);
    }
  }

  // What the scan has chosen so far.
  ghost predicate Chosen(rows: Rows, owners: Owners, at: Time, keep: nat, purge: bool, seen: set<CheckpointID>,
                         out: seq<CheckpointID>, affected: set<SessionID>) {
    && (forall c :: c in out <==> c in seen && c in rows && Removable(rows, owners, c, at, keep, purge))
    && affected == set c | c in out && c in rows :: rows[c].session
  }

  lemma ChosenGrows(rows: Rows, owners: Owners, at: Time, keep: nat, purge: bool, seen: set<CheckpointID>,
                    out: seq<CheckpointID>, affected: set<SessionID>, c: CheckpointID)
    requires Chosen(rows, owners, at, keep, purge, seen, out, affected) && c in rows && c !in seen
    ensures if Removable(rows, owners, c, at, keep, purge)
            then Chosen(rows, owners, at, keep, purge, seen + {c}, out + [c], affected + {rows[c].session})
            else Chosen(rows, owners, at, keep, purge, seen + {c}, out, affected)
  {
  }

  function RankOf(rank: map<SessionID, nat>, s: SessionID): nat {
    if s in rank then rank[s] else 0
  }

  // COALESCE(MAX(sequence), 0) + 1
  ghost predicate IsNext(rows: Rows, s: SessionID, next: nat) {
    && next > 0
    && (forall d :: d in rows && rows[d].session == s ==> rows[d].sequence < next)
    && (next == 1 || exists d :: d in rows && rows[d].session == s && rows[d].sequence == next - 1)
  }

  datatype OpenResult = Opens | IsCorrupt | Fails

  class CheckpointStore {
    var rows: Rows
    var owners: Owners

    ghost predicate Valid()
      reads this
    {
      Unique(rows) && Anchored(rows, owners) && Pointed(rows, owners)
    }

    /** Inserts a checkpoint of the session's current epoch; sequence 0 means the next one. */
    method Create(id: CheckpointID, c: Checkpoint, next: nat) returns (err: Error)
      requires Valid()
      requires IsNext(rows, c.session, next)
      modifies this
      ensures Valid() && owners == old(owners)
      ensures err == Ok <==>
        && c.epoch != 0 && c.adapter != "" && c.session in owners && owners[c.session].epoch == c.epoch && id !in old(rows)
        && (c.sequence != 0 ==> forall d :: d in old(rows) ==>
              old(rows)[d].session != c.session || old(rows)[d].sequence != c.sequence)
      ensures rows == if err == Ok then old(rows)[id := c.(sequence := if c.sequence == 0 then next else c.sequence)] else old(rows)
    {
      if c.epoch == 0 || c.adapter == "" {
        return Conflict;
      }
      if c.session !in owners {
        return NotFound;
      }
      if owners[c.session].epoch != c.epoch {
        return Conflict;
      }
      var row := if c.sequence == 0 then c.(sequence := next) else c;
      if id in rows || exists d :: d in rows && rows[d].session == row.session && rows[d].sequence == row.sequence {
        return Conflict;
      }
      rows := rows[id := row];
      return Ok;
    }

    /** Makes a checkpoint ready and the session's latest, unless the session has moved on. */
    method Complete(id: CheckpointID, s: SessionID, epoch: nat, location: string) returns (err: Error)
      requires Valid()
      modifies this
      ensures Valid()
      ensures err == Ok <==>
        && id in old(rows) && old(rows)[id].session == s && old(rows)[id].epoch == epoch && old(rows)[id].state.Creating?
        && s in old(owners) && old(owners)[s].epoch == epoch
      ensures err == Ok ==>
        && rows == old(rows)[id := old(rows)[id].(state := Ready, location := location)]
        && owners == old(owners)[s := old(owners)[s].(latest := Some(id))]
      ensures err != Ok ==> rows == old(rows) && owners == old(owners)
    {
      if id !in rows || rows[id].session != s || rows[id].epoch != epoch || !rows[id].state.Creating? {
        return Conflict;
      }
      if s !in owners || owners[s].epoch != epoch {
        return Conflict;
      }
      rows := rows[id := rows[id].(state := Ready, location := location)];
      owners := owners[s := owners[s].(latest := Some(id))];
      return Ok;
    }

    method Mark(id: CheckpointID, state: CheckpointState) returns (err: Error)
      requires Valid()
      modifies this
      ensures Valid() && owners == old(owners)
      ensures err == Ok <==> (state.Partial? || state.Corrupt?) && id in old(rows)
      ensures rows == if err == Ok then old(rows)[id := old(rows)[id].(state := state)] else old(rows)
    {
      if !state.Partial? && !state.Corrupt? {
        return Conflict;
      }
      if id !in rows {
        return NotFound;
      }
      rows := rows[id := rows[id].(state := state)];
      return Ok;
    }

    /** One pass over the scan, with one counter per session, removes exactly what the
        rule says and repoints the sessions it touched. */
    method GarbageCollect(at: Time, retainLatest: int, purge: bool, scan: seq<CheckpointID>) returns (out: seq<CheckpointID>)
      requires Valid() && IsScan(rows, scan)
      modifies this
      ensures Valid()
      ensures var keep := Max(0, retainLatest);
        && rows == Collected(old(rows), old(owners), at, keep, purge)
        && owners == Repointed(old(owners), rows, Affected(old(rows), old(owners), at, keep, purge))
        && (forall c :: c in out <==> c in old(rows) && Removable(old(rows), old(owners), c, at, keep, purge))
    {
      var keep := Max(0, retainLatest);
      var affected;
      out, affected := Sweep(at, keep, purge, scan);
      CollectedPointed(rows, owners, at, keep, purge);
      Delete(out);
      assert rows == Collected(old(rows), owners, at, keep, purge);
      Repoint(affected);
    }

    method Delete(ids: seq<CheckpointID>)
      modifies this`rows
      ensures rows == map c | c in old(rows) && c !in ids :: old(rows)[c]
    {
      var i := 0;
      while i < |ids|
        invariant 0 <= i <= |ids|
        invariant rows == map c | c in old(rows) && c !in ids[..i] :: old(rows)[c]
      {
        rows := rows - {ids[i]};
        i := i + 1;
      }
      assert ids[..i] == ids;
    }

    // The first loop: which rows go, and which sessions lose one.
    method Sweep(at: Time, keep: nat, purge: bool, scan: seq<CheckpointID>) returns (out: seq<CheckpointID>, affected: set<SessionID>)
      requires Valid() && IsScan(rows, scan)
      ensures forall c :: c in out <==> c in rows && Removable(rows, owners, c, at, keep, purge)
      ensures affected == Affected(rows, owners, at, keep, purge)
    {
      var rank: map<SessionID, nat> := map[];
      out, affected := [], {};
      ghost var seen := {};
      var k := 0;
      while k < |scan|
        invariant 0 <= k <= |scan|
        invariant Ranked(rank, rows, owners, purge, seen)
        invariant seen == Listed(scan[..k])
        invariant Chosen(rows, owners, at, keep, purge, seen, out, affected)
      {
        ReadySoFar(rows, scan, k);
        ChosenGrows(rows, owners, at, keep, purge, seen, out, affected, scan[k]);
        var c := rows[scan[k]];
        var remove;
        remove, rank := Judge(scan[k], rank, at, keep, purge, seen);
        if remove {
          out := out + [scan[k]];
          affected := affected + {c.session};
        }
        seen := seen + {scan[k]};
        k := k + 1;
      }
      assert scan[..k] == scan;
    }

    // One row of the scan.
    method Judge(id: CheckpointID, before: map<SessionID, nat>, at: Time, keep: nat, purge: bool, ghost seen: set<CheckpointID>)
      returns (remove: bool, rank: map<SessionID, nat>)
      requires Anchored(rows, owners) && id in rows && id !in seen
      requires Ranked(before, rows, owners, purge, seen) && ReadyIn(rows, seen, rows[id].session) == Newer(rows, id)
      ensures remove == Removable(rows, owners, id, at, keep, purge)
      ensures Ranked(rank, rows, owners, purge, seen + {id})
    {
      RankedGrows(before, rows, owners, purge, seen, id);
      var c := rows[id];
      rank := before;
      remove := c.state.Corrupt? || c.state.Partial?;
      if purge && owners[c.session].state.Terminal() {
        remove := true;
      } else if c.state.Ready? {
        rank := rank[c.session := RankOf(rank, c.session) + 1];
        if rank[c.session] <= keep {
          remove := false;
        } else if Expired(c, at) {
          remove := true;
        }
      } else if Expired(c, at) {
        remove := true;
      }
    }

    // The last loop.
    method Repoint(affected: set<SessionID>)
      requires Unique(rows)
      modifies this`owners
      ensures owners == Repointed(old(owners), rows, affected)
    {
      var todo := affected;
      while todo != {}
        invariant todo <= affected
        invariant owners == Repointed(old(owners), rows, affected - todo)
        decreases |todo|
      {
        var s :| s in todo;
        if s in owners {
          owners := owners[s := owners[s].(latest := NewestReady(rows, s))];
        }
        todo := todo - {s};
      }
      assert affected - {} == affected;
    }

    /** Tries the session's ready checkpoints from the newest on, and marks those that turn
        out corrupt on the way: finds the newest one that is not corrupt, if it opens. */
    method Usable(s: SessionID, items: seq<CheckpointID>, adapters: set<string>, open: map<CheckpointID, OpenResult>)
      returns (found: Option<CheckpointID>, failed: bool)
      requires Valid() && ListsNewestFirst(rows, s, items) && forall c :: c in items ==> c in open
      modifies this`rows
      ensures Valid()
      ensures found.Some? ==> !failed && NewestSound(old(rows), s, found.value, adapters, open) && open[found.value].Opens?
      ensures failed ==> exists c :: NewestSound(old(rows), s, c, adapters, open) && open[c].Fails?
      ensures found.None? && !failed ==> forall c :: OfSession(old(rows), s, c) && Restorable(old(rows), c, adapters) ==>
        c in open && open[c].IsCorrupt?
      ensures rows.Keys == old(rows).Keys
      ensures forall c :: c in rows && rows[c] != old(rows)[c] ==>
        && OfSession(old(rows), s, c) && Restorable(old(rows), c, adapters) && c in open && open[c].IsCorrupt?
        && rows[c] == old(rows)[c].(state := Corrupt)
    {
      var tried;
      found, tried := TryInOrder(items, adapters, open);
      failed := found.None? && tried < |items|;
      SweptNewest(old(rows), rows, s, items, tried, adapters, open);
    }

    method TryInOrder(items: seq<CheckpointID>, adapters: set<string>, open: map<CheckpointID, OpenResult>)
      returns (found: Option<CheckpointID>, tried: nat)
      requires Valid() && Distinct(items) && forall c :: c in items ==> c in rows && c in open
      modifies this`rows
      ensures Valid() && tried <= |items|
      ensures SweptCorrupt(old(rows), rows, items[..tried], adapters, open)
      ensures found.Some? ==>
        && tried < |items| && found == Some(items[tried])
        && Restorable(old(rows), items[tried], adapters) && open[items[tried]].Opens?
      ensures found.None? && tried < |items| ==> Restorable(old(rows), items[tried], adapters) && open[items[tried]].Fails?
    {
      tried := 0;
      while tried < |items|
        invariant 0 <= tried <= |items| && owners == old(owners)
        invariant SweptCorrupt(old(rows), rows, items[..tried], adapters, open)
      {
        var c := items[tried];
        NotYetTried(old(rows), rows, items, tried, adapters, open);
        if rows[c].state.Ready? && rows[c].adapter in adapters {
          if !open[c].IsCorrupt? {
            SweptStaysValid(old(rows), rows, owners, items[..tried], adapters, open);
            return if open[c].Opens? then Some(c) else None, tried;
          }
          rows := rows[c := rows[c].(state := Corrupt)];
        }
        tried := tried + 1;
      }
      SweptStaysValid(old(rows), rows, owners, items[..tried], adapters, open);
      return None, tried;
    }
  }

  predicate OfSession(rows: Rows, s: SessionID, c: CheckpointID) {
    c in rows && rows[c].session == s
  }

  // What ListCheckpoints returns: the session's rows, ORDER BY sequence DESC.
  ghost predicate ListsNewestFirst(rows: Rows, s: SessionID, items: seq<CheckpointID>) {
    && (forall c :: c in items <==> OfSession(rows, s, c))
    && (forall i, j :: 0 <= i < j < |items| ==> items[i] in rows && items[j] in rows && rows[items[i]].sequence > rows[items[j]].sequence)
  }

  /** The restorable row `c` of the session is not corrupt, and all newer ones are. */
  ghost predicate NewestSound(rows: Rows, s: SessionID, c: CheckpointID, adapters: set<string>, open: map<CheckpointID, OpenResult>) {
    && OfSession(rows, s, c) && Restorable(rows, c, adapters) && c in open && !open[c].IsCorrupt?
    && forall d :: OfSession(rows, s, d) && Restorable(rows, d, adapters) && rows[d].sequence > rows[c].sequence ==>
         d in open && open[d].IsCorrupt?
  }

  lemma SweptNewest(before: Rows, after: Rows, s: SessionID, items: seq<CheckpointID>, tried: nat, adapters: set<string>,
                    open: map<CheckpointID, OpenResult>)
    requires ListsNewestFirst(before, s, items) && tried <= |items|
    requires SweptCorrupt(before, after, items[..tried], adapters, open)
    ensures tried < |items| && Restorable(before, items[tried], adapters) && items[tried] in open && !open[items[tried]].IsCorrupt? ==>
      NewestSound(before, s, items[tried], adapters, open)
    ensures tried == |items| ==> forall c :: OfSession(before, s, c) && Restorable(before, c, adapters) ==> c in open && open[c].IsCorrupt?
    ensures forall c :: c in before && after[c] != before[c] ==>
      OfSession(before, s, c) && Restorable(before, c, adapters) && c in open && open[c].IsCorrupt?
  {
    forall c | c in items[..tried] ensures c in items {
    }
    if tried < |items| {
      assert items[tried] in items;
      forall d | OfSession(before, s, d) && before[d].sequence > before[items[tried]].sequence ensures d in items[..tried] {
        var i :| 0 <= i < |items| && items[i] == d;
        assert i < tried;
        assert items[..tried][i] == d;
      }
    } else {
      assert items[..tried] == items;
    }
  }

  predicate Distinct(items: seq<CheckpointID>) {
    forall i, j :: 0 <= i < j < |items| ==> items[i] != items[j]
  }

  predicate Restorable(rows: Rows, c: CheckpointID, adapters: set<string>) {
    c in rows && rows[c].state.Ready? && rows[c].adapter in adapters
  }

  /** The restorable rows among those tried were all corrupt, and are marked so; nothing
      else changed. */
  ghost predicate SweptCorrupt(before: Rows, after: Rows, tried: seq<CheckpointID>, adapters: set<string>,
                               open: map<CheckpointID, OpenResult>) {
    && after.Keys == before.Keys
    && (forall c :: c in before ==>
          after[c] == if c in tried && Restorable(before, c, adapters) then before[c].(state := Corrupt) else before[c])
    && (forall c :: c in tried && Restorable(before, c, adapters) ==> c in open && open[c].IsCorrupt?)
  }

  lemma SweptStaysValid(before: Rows, after: Rows, owners: Owners, tried: seq<CheckpointID>, adapters: set<string>,
                        open: map<CheckpointID, OpenResult>)
    requires Unique(before) && Anchored(before, owners) && Pointed(before, owners)
    requires SweptCorrupt(before, after, tried, adapters, open)
    ensures Unique(after) && Anchored(after, owners) && Pointed(after, owners)
  {
  }

  lemma NotYetTried(before: Rows, after: Rows, items: seq<CheckpointID>, k: nat, adapters: set<string>,
                    open: map<CheckpointID, OpenResult>)
    requires Distinct(items) && k < |items| && items[k] in before && items[k] in open
    requires SweptCorrupt(before, after, items[..k], adapters, open)
    ensures after[items[k]] == before[items[k]]
    ensures !Restorable(before, items[k], adapters) ==> SweptCorrupt(before, after, items[..k + 1], adapters, open)
    ensures Restorable(before, items[k], adapters) && open[items[k]].IsCorrupt? ==>
      SweptCorrupt(before, after[items[k] := after[items[k]].(state := Corrupt)], items[..k + 1], adapters, open)
  {
    assert items[..k + 1] == items[..k] + [items[k]];
    assert items[k] !in items[..k];
  }
}
