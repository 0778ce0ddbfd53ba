/**
 The audit trail of held credentials: received, then changes of status found by
 re-checks, then at most one deletion. A re-check locks the row, reads the last
 change on record and appends when the status moved.
 */
module HeldStore {
  import opened AuditLog

  /** An event on a held credential. A change carries when its transaction began,
      which is the time the log orders by. */
  datatype HeldEvent =
    | Received
    | Changed(at: nat, before: bool, after: bool)
    | Deleted

  /** A held credential's row; its id is its position. */
  datatype HeldRow = HeldRow(org: nat, deleted: bool)

  datatype Table = Table(rows: seq<HeldRow>, log: seq<Entry<HeldEvent>>)

  /** The position of the change that began last, or none. */
  function Latest(trail: seq<HeldEvent>): (last: int)
    ensures last == -1 || (0 <= last < |trail| && trail[last].Changed?)
    ensures last == -1 ==> forall k :: 0 <= k < |trail| ==> !trail[k].Changed?
    ensures last != -1 ==> forall k :: 0 <= k < |trail| && trail[k].Changed? ==> trail[k].at <= trail[last].at
  {
    if trail == [] then -1
    else
      var n := |trail| - 1;
      var before := Latest(trail[..n]);
      if trail[n].Changed? && (before == -1 || trail[before].at <= trail[n].at) then n else before
  }

  /** The last status on record; a credential without a change was valid on receipt. */
  function LastRevoked(trail: seq<HeldEvent>): bool
  {
    var last := Latest(trail);
    last != -1 && trail[last].after
  }

  /** The row exists, is the organization's, and is not deleted. */
  predicate Active(t: Table, org: nat, id: nat)
  {
    id < |t.rows| && t.rows[id] == HeldRow(org, false)
  }

  /** A re-check of this row finds a status that is not the last on record. */
  predicate Moved(t: Table, org: nat, id: nat, revoked: bool)
  {
    Active(t, org, id) && LastRevoked(Trail(t.log, id)) != revoked
  }

  function ReceivedIn(t: Table, org: nat): Table
  {
    Table(t.rows + [HeldRow(org, false)], t.log + [Entry(|t.rows|, Received)])
  }

  function DeletedIn(t: Table, org: nat, id: nat): Table
  {
    if Active(t, org, id) then Table(t.rows[id := HeldRow(org, true)], t.log + [Entry(id, Deleted)]) else t
  }

  function ChangedIn(t: Table, id: nat, revoked: bool, at: nat): Table
  {
    t.(log := t.log + [Entry(id, Changed(at, !revoked, revoked))])
  }

  /** Every change on record began before this time. */
  ghost predicate RecordedBefore(log: seq<Entry<HeldEvent>>, time: nat)
  {
    forall e :: e in log && e.action.Changed? ==> e.action.at < time
  }

  lemma {:induction false} TrailFromLog(log: seq<Entry<HeldEvent>>, id: nat, e: HeldEvent)
    requires e in Trail(log, id)
    ensures Entry(id, e) in log
  {
    var n := |log| - 1;
    if e in Trail(log[..n], id) {
      TrailFromLog(log[..n], id, e);
    } else {
      assert log[n] == Entry(id, e);
    }
  }

  /** A change that began after every other on record is the last status on record. */
  lemma LatestChangeCounts(log: seq<Entry<HeldEvent>>, id: nat, at: nat, revoked: bool)
    requires forall e :: e in Trail(log, id) && e.Changed? ==> e.at < at
    ensures LastRevoked(Trail(log + [Entry(id, Changed(at, !revoked, revoked))], id)) == revoked
  {
    var e := Changed(at, !revoked, revoked);
    TrailAppend(log, Entry(id, e), id);
    var trail := Trail(log, id);
    assert (trail + [e])[..|trail|] == trail;
    if Latest(trail) != -1 {
      assert trail[Latest(trail)] in trail;
    }
  }

  /** Recording a change moves its own row's status, keeps every other trail, and stays before the clock. */
  lemma ChangeCounts(t: Table, id: nat, revoked: bool, at: nat)
    requires RecordedBefore(t.log, at)
    ensures RecordedBefore(ChangedIn(t, id, revoked, at).log, at + 1)
    ensures LastRevoked(Trail(ChangedIn(t, id, revoked, at).log, id)) == revoked
    ensures forall other: nat :: other != id ==> Trail(ChangedIn(t, id, revoked, at).log, other) == Trail(t.log, other)
  {
    var e := Entry(id, Changed(at, !revoked, revoked));
    forall other: nat | other != id ensures Trail(t.log + [e], other) == Trail(t.log, other) {
      TrailAppend(t.log, e, other);
    }
    forall c: HeldEvent | c in Trail(t.log, id) && c.Changed? ensures c.at < at {
      TrailFromLog(t.log, id, c);
    }
    LatestChangeCounts(t.log, id, at, revoked);
  }

  datatype Validity = Validity(hasStatusList: bool, revoked: bool)

  datatype HeldRef = HeldRef(id: nat, credentialRef: string)

  class Store {
    var rows: seq<HeldRow>
    var log: seq<Entry<HeldEvent>>
    var clock: nat

    function State(): Table
      reads this
    {
      Table(rows, log)
    }

    constructor ()
      ensures State() == Table([], []) && clock == 0
    {
      rows, log, clock := [], [], 0;
    }

    method SoftDeleteHeld(org: nat, id: nat) returns (found: bool)
      modifies this`rows, this`log
      ensures found == Active(old(State()), org, id)
      ensures State() == DeletedIn(old(State()), org, id)
    {
      if !(id < |rows| && rows[id].org == org && !rows[id].deleted) {
        return false;
      }
      rows := rows[id := rows[id].(deleted := true)];
      log := log + [Entry(id, Deleted)];
      return true;
    }

    /** Records a change of status once; a row that is gone or already in that status records nothing. */
    method RecordHeldStatusChange(org: nat, id: nat, revoked: bool) returns (recorded: bool)
      modifies this`log, this`clock
      ensures recorded == Moved(old(State()), org, id, revoked)
      ensures State() == if recorded then ChangedIn(old(State()), id, revoked, old(clock)) else old(State())
      ensures clock == old(clock) + 1
    {
      var began := clock;
      clock := clock + 1;
      if !(id < |rows| && rows[id].org == org && !rows[id].deleted) {
        return false;
      }
      if LastRevoked(Trail(log, id)) == revoked {
        return false;
      }
      log := log + [Entry(id, Changed(began, !revoked, revoked))];
      return true;
    }
  }

  /** The entry names a credential with a status list and its write does not fail. */
  predicate Checked(h: HeldRef, validities: map<string, Validity>, failing: set<nat>)
  {
    h.credentialRef in validities && validities[h.credentialRef].hasStatusList && h.id !in failing
  }

  /** The entry's check finds a status that moved. */
  predicate Reported(t: Table, org: nat, h: HeldRef, validities: map<string, Validity>, failing: set<nat>)
  {
    && Checked(h, validities, failing)
    && Moved(t, org, h.id, validities[h.credentialRef].revoked)
  }

  /** No trail but those of the first n entries differs. */
  ghost predicate OthersKept(log: seq<Entry<HeldEvent>>, log': seq<Entry<HeldEvent>>, held: seq<HeldRef>, n: nat)
  {
    forall id: nat :: (forall i :: 0 <= i < n && i < |held| ==> held[i].id != id) ==> Trail(log', id) == Trail(log, id)
  }

  /**
   Audits every held credential with a status list whose status differs from the
   last on record; one that fails is skipped, not the ones after it. It reports
   exactly the ids it audited, and every credential it did not fail on agrees with
   the holder's status afterwards.
   */
  method AuditHeldStatuses(store: Store, org: nat, held: seq<HeldRef>, validities: map<string, Validity>, failing: set<nat>)
    returns (changed: set<nat>)
    requires forall i, j :: 0 <= i < j < |held| ==> held[i].id != held[j].id
    requires RecordedBefore(store.log, store.clock)
    modifies store
    ensures forall i :: 0 <= i < |held| ==>
              (held[i].id in changed <==> Reported(old(store.State()), org, held[i], validities, failing))
    ensures forall id :: id in changed ==> exists i :: 0 <= i < |held| && held[i].id == id
    ensures store.rows == old(store.rows)
    ensures forall i :: 0 <= i < |held| && Checked(held[i], validities, failing) && Active(store.State(), org, held[i].id) ==>
              LastRevoked(Trail(store.log, held[i].id)) == validities[held[i].credentialRef].revoked
    ensures OthersKept(old(store.log), store.log, held, |held|)
  {
    changed := {};
    for n := 0 to |held|
      invariant RecordedBefore(store.log, store.clock)
      invariant store.rows == old(store.rows)
      invariant OthersKept(old(store.log), store.log, held, n)
      invariant forall i :: 0 <= i < n ==>
                  (held[i].id in changed <==> Reported(old(store.State()), org, held[i], validities, failing))
      invariant forall id :: id in changed ==> exists i :: 0 <= i < n && held[i].id == id
      invariant forall i :: 0 <= i < n && Checked(held[i], validities, failing) && Active(store.State(), org, held[i].id) ==>
                  LastRevoked(Trail(store.log, held[i].id)) == validities[held[i].credentialRef].revoked
    {
      var h := held[n];
      if h.credentialRef in validities && validities[h.credentialRef].hasStatusList && h.id !in failing {
        assert Trail(store.log, h.id) == Trail(old(store.log), h.id);
        var recorded := RecordOne(store, org, h.id, validities[h.credentialRef].revoked);
        if recorded {
          changed := changed + {h.id};
        }
      }
    }
  }

  /** One write of the loop: its own row then agrees with the holder, and no other trail moves. */
  method RecordOne(store: Store, org: nat, id: nat, revoked: bool) returns (recorded: bool)
    requires RecordedBefore(store.log, store.clock)
    modifies store
    ensures recorded == Moved(old(store.State()), org, id, revoked)
    ensures store.rows == old(store.rows) && RecordedBefore(store.log, store.clock)
    ensures forall other: nat :: other != id ==> Trail(store.log, other) == Trail(old(store.log), other)
    ensures Active(store.State(), org, id) ==> LastRevoked(Trail(store.log, id)) == revoked
    ensures !Active(store.State(), org, id) ==> store.log == old(store.log)
  {
    ghost var before, at := store.State(), store.clock;
    recorded := store.RecordHeldStatusChange(org, id, revoked);
    if recorded {
      ChangeCounts(before, id, revoked, at);
    }
  }
}

/** Re-checks of any number of tabs and replicas, deletions and crashes, interleaved around the row lock. */
module HeldProtocol {
  import opened AuditLog
  import opened HeldStore

  /** Where one re-check's transaction stands. */
  datatype Phase =
    | Waiting(org: nat, id: nat, revoked: bool, began: nat)
    | Locked(org: nat, id: nat, revoked: bool, began: nat)
    | HasRead(org: nat, id: nat, revoked: bool, began: nat, lastRevoked: bool)
    | Finished(recorded: bool)

  /**
   changes counts, per row, the changes committed; told of these, those whose re-check
   was told it recorded one, and unheard those whose commit was not answered.
   */
  datatype World = World(
    table: Table, clock: nat, locks: map<nat, nat>, callers: map<nat, Phase>,
    changes: map<nat, nat>, told: map<nat, nat>, unheard: map<nat, nat>)

  datatype Action =
    | Receive(org: nat)
    | Delete(org: nat, id: nat)
    | Begin(caller: nat, org: nat, id: nat, revoked: bool)
    | Lock(caller: nat)
    | ReadLast(caller: nat)
    | Commit(caller: nat, write: Write)
    | Crash(caller: nat)

  function Init(): World
  {
    World(Table([], []), 0, map[], map[], map[], map[], map[])
  }

  function Count(counts: map<nat, nat>, id: nat): nat
  {
    if id in counts then counts[id] else 0
  }

  function OneMore(counts: map<nat, nat>, id: nat): map<nat, nat>
  {
    counts[id := Count(counts, id) + 1]
  }

  function LockStep(w: World, c: nat): World
    requires c in w.callers && w.callers[c].Waiting?
  {
    var p := w.callers[c];
    if p.id in w.locks then w
    else if !Active(w.table, p.org, p.id) then w.(callers := w.callers[c := Finished(false)])
    else w.(callers := w.callers[c := Locked(p.org, p.id, p.revoked, p.began)], locks := w.locks[p.id := c])
  }

  function ReadStep(w: World, c: nat): World
    requires c in w.callers && w.callers[c].Locked?
  {
    var p := w.callers[c];
    w.(callers := w.callers[c := HasRead(p.org, p.id, p.revoked, p.began, LastRevoked(Trail(w.table.log, p.id)))])
  }

  function Unlock(w: World, c: nat, id: nat, recorded: bool): World
  {
    w.(callers := w.callers[c := Finished(recorded)], locks := w.locks - {id})
  }

  function CommitStep(w: World, c: nat, write: Write): World
    requires c in w.callers && w.callers[c].HasRead?
  {
    var p := w.callers[c];
    if p.lastRevoked == p.revoked || write.Lost? then Unlock(w, c, p.id, false)
    else
      Unlock(w, c, p.id, write.Done?).(
        table := ChangedIn(w.table, p.id, p.revoked, p.began), changes := OneMore(w.changes, p.id),
        told := if write.Done? then OneMore(w.told, p.id) else w.told,
        unheard := if write.Done? then w.unheard else OneMore(w.unheard, p.id))
  }

  function Step(w: World, a: Action): World
  {
    match a
    case Receive(org) => w.(table := ReceivedIn(w.table, org))
    case Delete(org, id) => if id in w.locks then w else w.(table := DeletedIn(w.table, org, id))
    case Begin(c, org, id, revoked) =>
      if c in w.callers then w
      else w.(callers := w.callers[c := Waiting(org, id, revoked, w.clock)], clock := w.clock + 1)
    case Lock(c) => if c in w.callers && w.callers[c].Waiting? then LockStep(w, c) else w
    case ReadLast(c) => if c in w.callers && w.callers[c].Locked? then ReadStep(w, c) else w
    case Commit(c, write) => if c in w.callers && w.callers[c].HasRead? then CommitStep(w, c, write) else w
    case Crash(c) =>
      if c in w.callers && Inside(w.callers[c]) then Unlock(w, c, w.callers[c].id, false)
      else if c in w.callers && w.callers[c].Waiting? then w.(callers := w.callers[c := Finished(false)])
      else w
  }

  function Run(w: World, actions: seq<Action>): World
  {
    if actions == [] then w
    else Step(Run(w, actions[..|actions| - 1]), actions[|actions| - 1])
  }

  // ---- the invariant ----

  /** The transaction holds its row's lock. */
  predicate Inside(p: Phase)
  {
    p.Locked? || p.HasRead?
  }

  /** A row's lock is held by exactly the caller inside its transaction, and only while the row is active. */
  ghost predicate LocksHeld(w: World)
  {
    && (forall c :: c in w.callers && Inside(w.callers[c]) ==>
          && w.callers[c].id in w.locks && w.locks[w.callers[c].id] == c
          && Active(w.table, w.callers[c].org, w.callers[c].id))
    && (forall id :: id in w.locks ==>
          w.locks[id] in w.callers && Inside(w.callers[w.locks[id]]) && w.callers[w.locks[id]].id == id)
  }

  /** What a transaction holding the lock has read is still the last status on record. */
  ghost predicate ReadsFresh(w: World)
  {
    forall c :: c in w.callers && w.callers[c].HasRead? ==>
      w.callers[c].lastRevoked == LastRevoked(Trail(w.table.log, w.callers[c].id))
  }

  ghost predicate LockInv(w: World)
  {
    LocksHeld(w) && ReadsFresh(w)
  }

  /** Event k is a change that moved the status then last on record. */
  predicate MovesAt(trail: seq<HeldEvent>, k: int)
  {
    1 <= k < |trail| && trail[k].Changed? && trail[k].before == !trail[k].after && trail[k].after != LastRevoked(trail[..k])
  }

  /** Received, n changes each moving the status then last on record, and a deletion last, if any. */
  ghost predicate Recorded(trail: seq<HeldEvent>, n: nat, deleted: bool)
  {
    && |trail| == 1 + n + (if deleted then 1 else 0)
    && trail[0] == Received
    && (forall k :: 1 <= k <= n ==> MovesAt(trail, k))
    && (deleted ==> trail[n + 1] == Deleted)
  }

  ghost predicate RowRecorded(t: Table, changes: map<nat, nat>, id: nat)
    requires id < |t.rows|
  {
    Recorded(Trail(t.log, id), Count(changes, id), t.rows[id].deleted)
  }

  ghost predicate RowsRecorded(t: Table, changes: map<nat, nat>)
  {
    forall id: nat :: id < |t.rows| ==> RowRecorded(t, changes, id)
  }

  ghost predicate TrailInv(w: World)
  {
    && (forall e :: e in w.table.log ==> e.target < |w.table.rows|)
    && (forall id :: id in w.changes ==> id < |w.table.rows|)
    && (forall id: nat :: Count(w.changes, id) == Count(w.told, id) + Count(w.unheard, id))
    && RowsRecorded(w.table, w.changes)
  }

  ghost predicate Inv(w: World)
  {
    LockInv(w) && TrailInv(w)
  }

  // ---- every step keeps it ----

  lemma LockKeepsInv(w: World, c: nat)
    requires LockInv(w) && c in w.callers && w.callers[c].Waiting?
    ensures LockInv(LockStep(w, c))
  {
    LockTaken(w, c);
  }

  lemma LockTaken(w: World, c: nat)
    requires LocksHeld(w) && c in w.callers && w.callers[c].Waiting?
    ensures LocksHeld(LockStep(w, c))
  {
    var p := w.callers[c];
    if p.id !in w.locks {
      if Active(w.table, p.org, p.id) {
        FreeLockTaken(w, c);
      } else {
        OutsideKeepsLocks(w, c, Finished(false));
      }
    }
  }

  lemma OutsideKeepsLocks(w: World, c: nat, p: Phase)
    requires LocksHeld(w) && !Inside(p) && (c in w.callers ==> !Inside(w.callers[c]))
    ensures LocksHeld(w.(callers := w.callers[c := p]))
  {
  }

  lemma FreeLockTaken(w: World, c: nat)
    requires LocksHeld(w) && c in w.callers && w.callers[c].Waiting?
    requires w.callers[c].id !in w.locks && Active(w.table, w.callers[c].org, w.callers[c].id)
    ensures LocksHeld(LockStep(w, c))
  {
    var p := w.callers[c];
    assert forall d :: d in w.callers && Inside(w.callers[d]) ==> w.callers[d].id != p.id;
  }

  lemma ReadKeepsInv(w: World, c: nat)
    requires LockInv(w) && c in w.callers && w.callers[c].Locked?
    ensures LockInv(ReadStep(w, c))
  {
  }

  lemma UnlockKeepsInv(w: World, c: nat, recorded: bool)
    requires LockInv(w) && c in w.callers && Inside(w.callers[c])
    ensures LockInv(Unlock(w, c, w.callers[c].id, recorded))
  {
  }

  lemma SameLocks(w: World, w': World)
    requires LocksHeld(w) && w'.callers == w.callers && w'.locks == w.locks && w'.table.rows == w.table.rows
    ensures LocksHeld(w')
  {
  }

  /** One event is appended to a row no transaction holds afterwards. */
  lemma AppendFrame(w: World, w': World, e: Entry<HeldEvent>)
    requires LockInv(w)
    requires w'.table.log == w.table.log + [e]
    requires LocksHeld(w')
    requires forall c :: c in w'.callers && Inside(w'.callers[c]) ==>
               c in w.callers && w'.callers[c] == w.callers[c] && w'.callers[c].id != e.target
    ensures LockInv(w')
  {
    TrailsAppended(w.table.log, w'.table.log, e);
    forall c | c in w'.callers && Inside(w'.callers[c])
      ensures Trail(w'.table.log, w'.callers[c].id) == Trail(w.table.log, w.callers[c].id)
    {
      assert w'.callers[c] == w.callers[c];
    }
  }

  lemma TrailsAppended(log: seq<Entry<HeldEvent>>, log': seq<Entry<HeldEvent>>, e: Entry<HeldEvent>)
    requires log' == log + [e]
    ensures forall id: nat :: Trail(log', id) == Trail(log, id) + (if e.target == id then [e.action] else [])
  {
    forall id: nat ensures Trail(log', id) == Trail(log, id) + (if e.target == id then [e.action] else []) {
      TrailAppend(log, e, id);
    }
  }

  lemma ReceiveKeepsInv(w: World, org: nat)
    requires Inv(w)
    ensures Inv(Step(w, Receive(org)))
  {
    AppendFrame(w, Step(w, Receive(org)), Entry(|w.table.rows|, Received));
    ReceiveKeepsRows(w.table, w.changes, org);
  }

  /** A row with the same trail, count and deletion. */
  lemma SameRecorded(t: Table, changes: map<nat, nat>, t': Table, changes': map<nat, nat>, id: nat)
    requires id < |t.rows| && id < |t'.rows| && RowRecorded(t, changes, id)
    requires Trail(t'.log, id) == Trail(t.log, id) + [] && Count(changes', id) == Count(changes, id)
    requires t'.rows[id] == t.rows[id]
    ensures RowRecorded(t', changes', id)
  {
    assert Trail(t.log, id) + [] == Trail(t.log, id);
  }

  lemma ReceiveKeepsRows(t: Table, changes: map<nat, nat>, org: nat)
    requires RowsRecorded(t, changes) && |t.rows| !in changes
    requires forall e :: e in t.log ==> e.target < |t.rows|
    ensures RowsRecorded(ReceivedIn(t, org), changes)
  {
    var t' := ReceivedIn(t, org);
    TrailsAppended(t.log, t'.log, Entry(|t.rows|, Received));
    forall id: nat | id < |t'.rows| ensures RowRecorded(t', changes, id) {
      if id == |t.rows| {
        TrailOfUnmentioned(t.log, id);
      } else {
        SameRecorded(t, changes, t', changes, id);
      }
    }
  }

  /** A longer trail moves where the shorter one did. */
  lemma StillMoves(trail: seq<HeldEvent>, e: HeldEvent, k: int)
    requires MovesAt(trail, k)
    ensures MovesAt(trail + [e], k)
  {
    assert (trail + [e])[..k] == trail[..k];
  }

  /** Deleting ends a trail. */
  lemma DeletedRecorded(trail: seq<HeldEvent>, n: nat)
    requires Recorded(trail, n, false)
    ensures Recorded(trail + [Deleted], n, true)
  {
    forall k | 1 <= k <= n ensures MovesAt(trail + [Deleted], k) {
      StillMoves(trail, Deleted, k);
    }
  }

  lemma DeleteKeepsRows(t: Table, changes: map<nat, nat>, org: nat, id: nat)
    requires RowsRecorded(t, changes) && Active(t, org, id)
    ensures RowsRecorded(DeletedIn(t, org, id), changes)
  {
    var t' := DeletedIn(t, org, id);
    TrailsAppended(t.log, t'.log, Entry(id, Deleted));
    forall i: nat | i < |t'.rows| ensures RowRecorded(t', changes, i) {
      if i == id {
        assert RowRecorded(t, changes, id);
        DeletedRecorded(Trail(t.log, id), Count(changes, id));
      } else {
        SameRecorded(t, changes, t', changes, i);
      }
    }
  }

  lemma DeleteKeepsInv(w: World, org: nat, id: nat)
    requires Inv(w)
    ensures Inv(Step(w, Delete(org, id)))
  {
    if id !in w.locks && Active(w.table, org, id) {
      AppendFrame(w, Step(w, Delete(org, id)), Entry(id, Deleted));
      DeleteKeepsRows(w.table, w.changes, org, id);
    }
  }

  /** A change that moves the last status on record lengthens a trail. */
  lemma ChangeRecorded(trail: seq<HeldEvent>, n: nat, began: nat, revoked: bool)
    requires Recorded(trail, n, false) && LastRevoked(trail) != revoked
    ensures Recorded(trail + [Changed(began, !revoked, revoked)], n + 1, false)
  {
    var e := Changed(began, !revoked, revoked);
    forall k | 1 <= k <= n + 1 ensures MovesAt(trail + [e], k) {
      if k <= n {
        StillMoves(trail, e, k);
      } else {
        assert (trail + [e])[..k] == trail;
      }
    }
  }

  lemma ChangeKeepsRows(t: Table, changes: map<nat, nat>, org: nat, id: nat, revoked: bool, began: nat)
    requires RowsRecorded(t, changes) && Active(t, org, id) && LastRevoked(Trail(t.log, id)) != revoked
    ensures RowsRecorded(ChangedIn(t, id, revoked, began), OneMore(changes, id))
  {
    var t', changes' := ChangedIn(t, id, revoked, began), OneMore(changes, id);
    TrailsAppended(t.log, t'.log, Entry(id, Changed(began, !revoked, revoked)));
    forall i: nat | i < |t'.rows| ensures RowRecorded(t', changes', i) {
      if i == id {
        assert RowRecorded(t, changes, id);
        ChangeRecorded(Trail(t.log, id), Count(changes, id), began, revoked);
      } else {
        SameRecorded(t, changes, t', changes', i);
      }
    }
  }

  lemma CommitKeepsInv(w: World, c: nat, write: Write)
    requires Inv(w) && c in w.callers && w.callers[c].HasRead?
    ensures Inv(CommitStep(w, c, write))
  {
    var p := w.callers[c];
    if p.lastRevoked == p.revoked || write.Lost? {
      UnlockKeepsInv(w, c, false);
    } else {
      ChangeKeepsLocks(w, c, write);
      ChangeKeepsRows(w.table, w.changes, p.org, p.id, p.revoked, p.began);
    }
  }

  /** No other transaction is inside the same row. */
  lemma OthersElsewhere(w: World, c: nat)
    requires LocksHeld(w) && c in w.callers && Inside(w.callers[c])
    ensures forall d :: d in w.callers && d != c && Inside(w.callers[d]) ==> w.callers[d].id != w.callers[c].id
  {
  }

  lemma ChangeKeepsLocks(w: World, c: nat, write: Write)
    requires LockInv(w) && c in w.callers && w.callers[c].HasRead? && w.callers[c].lastRevoked != w.callers[c].revoked
    requires !write.Lost?
    ensures LockInv(CommitStep(w, c, write))
  {
    var p := w.callers[c];
    var w' := CommitStep(w, c, write);
    UnlockKeepsInv(w, c, write.Done?);
    SameLocks(Unlock(w, c, p.id, write.Done?), w');
    OthersElsewhere(w, c);
    AppendFrame(w, w', Entry(p.id, Changed(p.began, !p.revoked, p.revoked)));
  }

  lemma BeginKeepsLocks(w: World, c: nat, org: nat, id: nat, revoked: bool)
    requires LockInv(w)
    ensures LockInv(Step(w, Begin(c, org, id, revoked)))
  {
  }

  lemma WaitingCrashKeepsLocks(w: World, c: nat)
    requires LockInv(w) && c in w.callers && w.callers[c].Waiting?
    ensures LockInv(Step(w, Crash(c)))
  {
  }

  /** A step on the callers alone. */
  lemma CallerKeepsLocks(w: World, a: Action)
    requires LockInv(w) && (a.Lock? || a.ReadLast? || a.Crash?) && a.caller in w.callers
    ensures LockInv(Step(w, a))
  {
    var c := a.caller;
    match w.callers[c]
    case Waiting(_, _, _, _) =>
      if a.Lock? { LockKeepsInv(w, c); } else if a.Crash? { WaitingCrashKeepsLocks(w, c); }
    case Locked(_, _, _, _) =>
      if a.ReadLast? { ReadKeepsInv(w, c); } else if a.Crash? { UnlockKeepsInv(w, c, false); }
    case HasRead(_, _, _, _, _) => if a.Crash? { UnlockKeepsInv(w, c, false); }
    case Finished(_) =>
  }

  lemma QuietStepKeepsTrails(w: World, a: Action)
    requires TrailInv(w) && (a.Begin? || a.Lock? || a.ReadLast? || a.Crash?)
    ensures TrailInv(Step(w, a))
  {
  }

  lemma StepKeepsInv(w: World, a: Action)
    requires Inv(w)
    ensures Inv(Step(w, a))
  {
    match a
    case Receive(org) => ReceiveKeepsInv(w, org);
    case Delete(org, id) => DeleteKeepsInv(w, org, id);
    case Commit(c, write) => if c in w.callers && w.callers[c].HasRead? { CommitKeepsInv(w, c, write); }
    case Begin(c, org, id, revoked) =>
      BeginKeepsLocks(w, c, org, id, revoked);
      QuietStepKeepsTrails(w, a);
    case _ =>
      if a.caller in w.callers {
        CallerKeepsLocks(w, a);
      }
      QuietStepKeepsTrails(w, a);
  }

  lemma {:induction false} RunKeepsInv(actions: seq<Action>)
    ensures Inv(Run(Init(), actions))
  {
    if actions != [] {
      RunKeepsInv(actions[..|actions| - 1]);
      StepKeepsInv(Run(Init(), actions[..|actions| - 1]), actions[|actions| - 1]);
    }
  }

  // ---- what the trail promises ----

  /**
   In every run every credential's trail is received, then its changes, each moving the
   status then last on record, then at most one deletion with nothing after it. Exactly
   one re-check was told of each change, but for those whose commit was not answered.
   */
  lemma {:induction false} TrailIsRecorded(actions: seq<Action>, id: nat)
    requires id < |Run(Init(), actions).table.rows|
    ensures var w := Run(Init(), actions);
            && Recorded(Trail(w.table.log, id), Count(w.changes, id), w.table.rows[id].deleted)
            && Count(w.changes, id) == Count(w.told, id) + Count(w.unheard, id)
  {
    RunKeepsInv(actions);
    assert RowRecorded(Run(Init(), actions).table, Run(Init(), actions).changes, id);
  }

  /** The row lock admits one transaction at a time. */
  lemma OneHolderPerRow(actions: seq<Action>, c: nat, d: nat, id: nat)
    requires var w := Run(Init(), actions);
             && c in w.callers && Inside(w.callers[c]) && w.callers[c].id == id
             && d in w.callers && Inside(w.callers[d]) && w.callers[d].id == id
    ensures c == d && Active(Run(Init(), actions).table, Run(Init(), actions).callers[c].org, id)
  {
    RunKeepsInv(actions);
  }

  /** Received, n changes alternating from revoked, and a deletion last, if any. */
  ghost predicate Regular(trail: seq<HeldEvent>, n: nat, deleted: bool)
  {
    && |trail| == 1 + n + (if deleted then 1 else 0)
    && trail[0] == Received
    && (forall k :: 1 <= k <= n ==> trail[k].Changed? && trail[k].after == (k % 2 == 1) && trail[k].before == (k % 2 == 0))
    && (deleted ==> trail[n + 1] == Deleted)
  }

  /** No change recorded before this one began after it. */
  ghost predicate BeganLast(trail: seq<HeldEvent>, k: nat)
    requires 1 <= k < |trail| && forall j :: 1 <= j <= k ==> trail[j].Changed?
  {
    forall j :: 1 <= j < k ==> trail[j].at <= trail[k].at
  }

  /** All changes but the last were recorded in the order their transactions began. */
  ghost predicate InBeginOrder(trail: seq<HeldEvent>, n: nat)
    requires n < |trail| && forall j :: 1 <= j <= n ==> trail[j].Changed?
  {
    forall k :: 1 <= k < n ==> BeganLast(trail, k)
  }

  /** A change is the last status on record exactly when it began last; else the one before it stays that. */
  lemma LastAfterChange(trail: seq<HeldEvent>, k: nat)
    requires 1 <= k < |trail| && trail[0] == Received && forall j :: 1 <= j <= k ==> trail[j].Changed?
    ensures LastRevoked(trail[..k + 1]) == if BeganLast(trail, k) then trail[k].after else LastRevoked(trail[..k])
  {
    var shorter, longer := trail[..k], trail[..k + 1];
    assert longer[..k] == shorter && longer[k] == trail[k];
    assert forall j :: 0 <= j < k ==> shorter[j] == trail[j] == longer[j];
    var last := Latest(shorter);
    if k > 1 {
      assert shorter[1].Changed?;
    }
  }

  /** Changes that move the status on record alternate where the earlier one began last, and only there. */
  lemma NextAlternates(trail: seq<HeldEvent>, n: nat, deleted: bool, k: nat)
    requires Recorded(trail, n, deleted) && 1 <= k < n
    ensures forall j :: 1 <= j <= n ==> trail[j].Changed?
    ensures BeganLast(trail, k) <==> trail[k + 1].after != trail[k].after
  {
    forall j | 1 <= j <= n ensures trail[j].Changed? {
      assert MovesAt(trail, j);
    }
    assert MovesAt(trail, k) && MovesAt(trail, k + 1);
    LastAfterChange(trail, k);
  }

  lemma FirstRevokes(trail: seq<HeldEvent>, n: nat, deleted: bool)
    requires Recorded(trail, n, deleted) && n >= 1
    ensures trail[1].Changed? && trail[1].after
  {
    assert MovesAt(trail, 1);
    var first := trail[..1];
    assert first[..0] == [] && first[0] == Received;
    assert Latest(first) == -1;
  }

  lemma {:induction false} InOrderAlternates(trail: seq<HeldEvent>, n: nat, deleted: bool, k: nat)
    requires Recorded(trail, n, deleted) && 1 <= k <= n
    requires forall j :: 1 <= j <= n ==> trail[j].Changed?
    requires InBeginOrder(trail, n)
    ensures trail[k].after == (k % 2 == 1)
  {
    if k == 1 {
      FirstRevokes(trail, n, deleted);
    } else {
      InOrderAlternates(trail, n, deleted, k - 1);
      assert BeganLast(trail, k - 1);
      NextAlternates(trail, n, deleted, k - 1);
    }
  }

  /** Changes that each move the last status on record alternate exactly when all but the last are in begin order. */
  lemma RecordedIsRegularIff(trail: seq<HeldEvent>, n: nat, deleted: bool)
    requires Recorded(trail, n, deleted)
    ensures forall j :: 1 <= j <= n ==> trail[j].Changed? && trail[j].before == !trail[j].after
    ensures Regular(trail, n, deleted) <==> InBeginOrder(trail, n)
  {
    forall j | 1 <= j <= n ensures trail[j].Changed? && trail[j].before == !trail[j].after {
      assert MovesAt(trail, j);
    }
    if InBeginOrder(trail, n) {
      forall k | 1 <= k <= n ensures trail[k].after == (k % 2 == 1) {
        InOrderAlternates(trail, n, deleted, k);
      }
    }
    if Regular(trail, n, deleted) {
      forall k | 1 <= k < n ensures BeganLast(trail, k) {
        NextAlternates(trail, n, deleted, k);
      }
    }
  }

  /**
   In every run a credential's trail is received, then changes alternating from revoked,
   each event's before the previous after, then at most one deletion, exactly when its
   changes, the last aside, were recorded in the order their transactions began: the
   time events are ordered by is the transaction's begin, not the moment it got the lock.
   */
  lemma RegularIffInBeginOrder(actions: seq<Action>, id: nat)
    requires id < |Run(Init(), actions).table.rows|
    ensures var w := Run(Init(), actions);
            var trail, n := Trail(w.table.log, id), Count(w.changes, id);
            && n < |trail| && (forall j :: 1 <= j <= n ==> trail[j].Changed?)
            && (Regular(trail, n, w.table.rows[id].deleted) <==> InBeginOrder(trail, n))
  {
    TrailIsRecorded(actions, id);
    var w := Run(Init(), actions);
    RecordedIsRegularIff(Trail(w.table.log, id), Count(w.changes, id), w.table.rows[id].deleted);
  }

  /**
   Two re-checks begin, the later one locks first and records the revocation, and
   the earlier one then records the return to valid with its own, earlier, begin
   time. The next re-check orders the log by that time and records the return again.
   */
  const OVERTAKEN: seq<Action> := [
    Receive(0), Begin(0, 0, 0, false), Begin(1, 0, 0, true),
    Lock(1), ReadLast(1), Commit(1, Done),
    Lock(0), ReadLast(0), Commit(0, Done),
    Begin(2, 0, 0, false), Lock(2), ReadLast(2), Commit(2, Done)]

  const OVERTAKEN_LOG: seq<Entry<HeldEvent>> := [
    Entry(0, Received), Entry(0, Changed(1, false, true)), Entry(0, Changed(0, true, false)), Entry(0, Changed(2, true, false))]

  /** The worlds OVERTAKEN goes through. */
  function OvertakenAt(n: nat): World
  {
    var first := if n < 2 then map[] else map[0 :=
                   if n < 7 then Waiting(0, 0, false, 0) else if n == 7 then Locked(0, 0, false, 0)
                   else if n == 8 then HasRead(0, 0, false, 0, true) else Finished(true)];
    var second := if n < 3 then map[] else map[1 :=
                    if n == 3 then Waiting(0, 0, true, 1) else if n == 4 then Locked(0, 0, true, 1)
                    else if n == 5 then HasRead(0, 0, true, 1, false) else Finished(true)];
    var third := if n < 10 then map[] else map[2 :=
                   if n == 10 then Waiting(0, 0, false, 2) else if n == 11 then Locked(0, 0, false, 2)
                   else if n == 12 then HasRead(0, 0, false, 2, true) else Finished(true)];
    var changes := if n < 6 then 0 else if n < 9 then 1 else if n < 13 then 2 else 3;
    var counted := if changes == 0 then map[] else map[0 := changes];
    World(
      Table(if n == 0 then [] else [HeldRow(0, false)], OVERTAKEN_LOG[..if n == 0 then 0 else 1 + changes]),
      if n < 2 then 0 else if n < 3 then 1 else if n < 10 then 2 else 3,
      if 4 <= n < 6 then map[0 := 1] else if 7 <= n < 9 then map[0 := 0] else if 11 <= n < 13 then map[0 := 2] else map[],
      first + second + third, counted, counted, map[])
  }

  const OVERTAKEN_TRAIL := [Received, Changed(1, false, true), Changed(0, true, false), Changed(2, true, false)]

  lemma {:induction false} OvertakenLogTrail(m: nat)
    requires m <= 4
    ensures Trail(OVERTAKEN_LOG[..m], 0) == OVERTAKEN_TRAIL[..m]
  {
    if m > 0 {
      OvertakenLogTrail(m - 1);
      assert OVERTAKEN_LOG[..m][..m - 1] == OVERTAKEN_LOG[..m - 1];
      assert OVERTAKEN_TRAIL[..m] == OVERTAKEN_TRAIL[..m - 1] + [OVERTAKEN_TRAIL[m - 1]];
    }
  }

  lemma {:induction false} OvertakenLatest(m: nat)
    requires m <= 4
    ensures Latest(OVERTAKEN_TRAIL[..m]) == if m < 2 then -1 else if m < 4 then 1 else 3
  {
    if m > 0 {
      OvertakenLatest(m - 1);
      assert OVERTAKEN_TRAIL[..m][..m - 1] == OVERTAKEN_TRAIL[..m - 1];
    }
  }

  /** The log orders the second change before the first, so revoked stays the last status on record. */
  lemma OvertakenTrails(m: nat)
    requires 1 <= m <= 4
    ensures Trail(OVERTAKEN_LOG[..m], 0) == OVERTAKEN_TRAIL[..m]
    ensures LastRevoked(Trail(OVERTAKEN_LOG[..m], 0)) == (m == 2 || m == 3)
  {
    OvertakenLogTrail(m);
    OvertakenLatest(m);
  }

  lemma OvertakenBegins(n: nat)
    requires n < 4
    ensures Step(OvertakenAt(n), OVERTAKEN[n]) == OvertakenAt(n + 1)
  {
  }

  lemma OvertakenReads(n: nat)
    requires n == 4
    ensures Step(OvertakenAt(n), OVERTAKEN[n]) == OvertakenAt(n + 1)
  {
    OvertakenTrails(1);
  }

  lemma OvertakenRecords(n: nat)
    requires n == 5
    ensures Step(OvertakenAt(n), OVERTAKEN[n]) == OvertakenAt(n + 1)
  {
    assert OVERTAKEN_LOG[..1] + [OVERTAKEN_LOG[1]] == OVERTAKEN_LOG[..2];
  }

  lemma OvertakenLocks(n: nat)
    requires n == 6
    ensures Step(OvertakenAt(n), OVERTAKEN[n]) == OvertakenAt(n + 1)
  {
  }

  lemma OvertakenRereads(n: nat)
    requires n == 7
    ensures Step(OvertakenAt(n), OVERTAKEN[n]) == OvertakenAt(n + 1)
  {
    OvertakenTrails(2);
  }

  lemma OvertakenReturns(n: nat)
    requires n == 8
    ensures Step(OvertakenAt(n), OVERTAKEN[n]) == OvertakenAt(n + 1)
  {
    assert OVERTAKEN_LOG[..2] + [OVERTAKEN_LOG[2]] == OVERTAKEN_LOG[..3];
  }

  lemma OvertakenRechecks(n: nat)
    requires 9 <= n < 11
    ensures Step(OvertakenAt(n), OVERTAKEN[n]) == OvertakenAt(n + 1)
  {
  }

  lemma OvertakenReadsAgain(n: nat)
    requires n == 11
    ensures Step(OvertakenAt(n), OVERTAKEN[n]) == OvertakenAt(n + 1)
  {
    OvertakenTrails(3);
  }

  lemma OvertakenRepeats(n: nat)
    requires n == 12
    ensures Step(OvertakenAt(n), OVERTAKEN[n]) == OvertakenAt(n + 1)
  {
    assert OVERTAKEN_LOG[..3] + [OVERTAKEN_LOG[3]] == OVERTAKEN_LOG[..4];
  }

  lemma OvertakenStep(n: nat)
    requires n < 13
    ensures Step(OvertakenAt(n), OVERTAKEN[n]) == OvertakenAt(n + 1)
  {
    if n < 4 {
      OvertakenBegins(n);
    } else if n == 4 {
      OvertakenReads(n);
    } else if n == 5 {
      OvertakenRecords(n);
    } else if n == 6 {
      OvertakenLocks(n);
    } else if n == 7 {
      OvertakenRereads(n);
    } else if n == 8 {
      OvertakenReturns(n);
    } else if n < 11 {
      OvertakenRechecks(n);
    } else if n == 11 {
      OvertakenReadsAgain(n);
    } else {
      OvertakenRepeats(n);
    }
  }

  lemma {:induction false} OvertakenRun(n: nat)
    requires n <= 13
    ensures Run(Init(), OVERTAKEN[..n]) == OvertakenAt(n)
  {
    if n > 0 {
      OvertakenRun(n - 1);
      OvertakenStep(n - 1);
      assert OVERTAKEN[..n][..n - 1] == OVERTAKEN[..n - 1];
    }
  }

  /** In this run the return to valid is recorded twice in a row, the second change having begun before the first. */
  lemma OvertakenIsIrregular()
    ensures var w := Run(Init(), OVERTAKEN);
            && |w.table.rows| == 1 && Count(w.changes, 0) == 3
            && Trail(w.table.log, 0) == OVERTAKEN_TRAIL
            && !Regular(OVERTAKEN_TRAIL, 3, false) && !InBeginOrder(OVERTAKEN_TRAIL, 3)
  {
    OvertakenRun(13);
    assert OVERTAKEN[..13] == OVERTAKEN && OVERTAKEN_LOG[..4] == OVERTAKEN_LOG && OVERTAKEN_TRAIL[..4] == OVERTAKEN_TRAIL;
    OvertakenTrails(4);
    assert OVERTAKEN_TRAIL[2].after == OVERTAKEN_TRAIL[3].after;
    assert OVERTAKEN_TRAIL[1].at > OVERTAKEN_TRAIL[2].at;
    assert !BeganLast(OVERTAKEN_TRAIL, 2);
  }
}
