/**
 The revocation state of every held credential, aggregated per credential batch:
 a status refresh writes back one instance of a batch, so the instance checked last
 speaks for all of them.
 */
module HeldValidities {
  import opened Wrappers

  /** A stored status bit; Other stands for invalid, suspended and application-specific values. */
  datatype StatusBit = Valid | Unknown | Other

  /** One credential instance joined with its batch. Ids are the instance table's primary key. */
  datatype Row = Row(
    id: nat, batch: nat, format: string, expiresAt: Option<int>, issuedAt: Option<int>,
    hasStatusList: bool, lastStatus: StatusBit, lastCheck: Option<int>)

  datatype HeldValidity = HeldValidity(
    format: string, revoked: bool, hasStatusList: bool, checkedAt: Option<int>,
    expiresAt: Option<int>, issuedAt: Option<int>)

  /** What has been gathered about a batch; the zero value of one no row was seen of. */
  datatype BatchStatus = BatchStatus(revoked: bool, hasStatusList: bool, uncheckedRevoked: bool, checkedAt: Option<int>)

  const UNSEEN := BatchStatus(false, false, false, None)

  predicate StatusRevoked(r: Row)
  {
    r.lastStatus != Valid && r.lastStatus != Unknown
  }

  // ---- what a verdict means ----

  predicate Checked(rows: seq<Row>, r: Row)
  {
    r in rows && r.lastCheck.Some?
  }

  /** The row was checked at its batch's latest check time. */
  ghost predicate CheckedLast(rows: seq<Row>, r: Row)
  {
    Checked(rows, r) && forall s :: Checked(rows, s) && s.batch == r.batch ==> s.lastCheck.value <= r.lastCheck.value
  }

  ghost predicate EverChecked(rows: seq<Row>, batch: nat)
  {
    exists r :: Checked(rows, r) && r.batch == batch
  }

  /** Revoked when some instance checked last is, or, when none was ever checked, when some instance is. */
  ghost predicate BatchRevoked(rows: seq<Row>, batch: nat)
  {
    if EverChecked(rows, batch) then exists r :: CheckedLast(rows, r) && r.batch == batch && StatusRevoked(r)
    else exists r :: r in rows && r.batch == batch && StatusRevoked(r)
  }

  ghost predicate BatchHasStatusList(rows: seq<Row>, batch: nat)
  {
    exists r :: r in rows && r.batch == batch && r.hasStatusList
  }

  /** The check time a batch reports: the latest of its instances, if any was checked. */
  ghost predicate IsCheckTime(rows: seq<Row>, batch: nat, at: Option<int>)
  {
    if at == None then !EverChecked(rows, batch)
    else exists r :: CheckedLast(rows, r) && r.batch == batch && r.lastCheck == at
  }

  ghost predicate IsValidity(rows: seq<Row>, r: Row, v: HeldValidity)
  {
    && v.format == r.format && v.expiresAt == r.expiresAt && v.issuedAt == r.issuedAt
    && (v.revoked <==> BatchRevoked(rows, r.batch))
    && (v.hasStatusList <==> BatchHasStatusList(rows, r.batch))
    && IsCheckTime(rows, r.batch, v.checkedAt)
  }

  ghost predicate IsValidities(rows: seq<Row>, validities: map<nat, HeldValidity>)
  {
    && (forall r :: r in rows ==> r.id in validities && IsValidity(rows, r, validities[r.id]))
    && (forall id :: id in validities ==> exists r :: r in rows && r.id == id)
  }

  ghost predicate DistinctIds(rows: seq<Row>)
  {
    forall i, j :: 0 <= i < j < |rows| ==> rows[i].id != rows[j].id
  }

  // ---- one pass over the rows ----

  /** The status gathered from the rows so far is right about the batch. */
  ghost predicate Gathered(rows: seq<Row>, batch: nat, b: BatchStatus)
  {
    && (b.hasStatusList <==> BatchHasStatusList(rows, batch))
    && (b.uncheckedRevoked <==> exists r :: r in rows && r.batch == batch && r.lastCheck == None && StatusRevoked(r))
    && IsCheckTime(rows, batch, b.checkedAt)
    && (b.checkedAt.Some? ==> (b.revoked <==> exists r :: CheckedLast(rows, r) && r.batch == batch && StatusRevoked(r)))
    && (b.checkedAt == None ==> !b.revoked)
  }

  function WithRow(b: BatchStatus, row: Row): BatchStatus
  {
    var listed := b.(hasStatusList := b.hasStatusList || row.hasStatusList);
    if row.lastCheck == None then listed.(uncheckedRevoked := b.uncheckedRevoked || StatusRevoked(row))
    else if b.checkedAt == None || row.lastCheck.value > b.checkedAt.value then
      listed.(checkedAt := row.lastCheck, revoked := StatusRevoked(row))
    else if row.lastCheck == b.checkedAt then listed.(revoked := b.revoked || StatusRevoked(row))
    else listed
  }

  lemma OtherBatchGathered(rows: seq<Row>, row: Row, batch: nat, b: BatchStatus)
    requires Gathered(rows, batch, b) && row.batch != batch
    ensures Gathered(rows + [row], batch, b)
  {
    var rows' := rows + [row];
    assert forall r :: r in rows' && r.batch == batch <==> r in rows && r.batch == batch;
    assert forall r :: Checked(rows', r) && r.batch == batch <==> Checked(rows, r) && r.batch == batch;
    assert forall r :: CheckedLast(rows', r) && r.batch == batch <==> CheckedLast(rows, r) && r.batch == batch;
  }

  /** An unchecked row leaves what was gathered about the checks. */
  lemma UncheckedRowGathered(rows: seq<Row>, row: Row, b: BatchStatus)
    requires Gathered(rows, row.batch, b) && row.lastCheck == None
    ensures Gathered(rows + [row], row.batch, WithRow(b, row))
  {
    var rows' := rows + [row];
    assert row in rows' && forall r :: r in rows' <==> r in rows || r == row;
    assert forall r :: Checked(rows', r) <==> Checked(rows, r);
    assert forall r :: CheckedLast(rows', r) <==> CheckedLast(rows, r);
  }

  lemma CheckedRowGathered(rows: seq<Row>, row: Row, b: BatchStatus)
    requires Gathered(rows, row.batch, b) && row.lastCheck.Some?
    ensures Gathered(rows + [row], row.batch, WithRow(b, row))
  {
    var rows', batch := rows + [row], row.batch;
    assert row in rows' && forall r :: r in rows' <==> r in rows || r == row;
    assert Checked(rows', row) && forall r :: Checked(rows', r) <==> Checked(rows, r) || r == row;
    if b.checkedAt == None || row.lastCheck.value > b.checkedAt.value {
      if b.checkedAt.Some? {
        var last :| CheckedLast(rows, last) && last.batch == batch && last.lastCheck == b.checkedAt;
      }
      assert CheckedLast(rows', row);
      assert forall r :: CheckedLast(rows', r) && r.batch == batch <==> r == row;
    } else {
      var last :| CheckedLast(rows, last) && last.batch == batch && last.lastCheck == b.checkedAt;
      assert CheckedLast(rows', last);
      forall r: Row | r.batch == batch
        ensures CheckedLast(rows', r) <==> CheckedLast(rows, r) || (r == row && row.lastCheck == b.checkedAt)
      {
      }
    }
  }

  ghost predicate AllGathered(rows: seq<Row>, batches: map<nat, BatchStatus>)
  {
    && (forall batch: nat :: Gathered(rows, batch, if batch in batches then batches[batch] else UNSEEN))
    && (forall r :: r in rows ==> r.batch in batches)
  }

  /** The first pass: each row widens what is known of its batch. */
  method GatherBatches(rows: seq<Row>) returns (batches: map<nat, BatchStatus>)
    ensures AllGathered(rows, batches)
  {
    batches := map[];
    for n := 0 to |rows|
      invariant AllGathered(rows[..n], batches)
    {
      var row := rows[n];
      var b := if row.batch in batches then batches[row.batch] else UNSEEN;
      ghost var before := b;
      b := b.(hasStatusList := b.hasStatusList || row.hasStatusList);
      var rowRevoked := StatusRevoked(row);
      if row.lastCheck == None {
        b := b.(uncheckedRevoked := b.uncheckedRevoked || rowRevoked);
      } else if b.checkedAt == None || row.lastCheck.value > b.checkedAt.value {
        b := b.(checkedAt := row.lastCheck, revoked := rowRevoked);
      } else if row.lastCheck == b.checkedAt {
        b := b.(revoked := b.revoked || rowRevoked);
      }
      RowGathered(rows, n, batches, before);
      batches := batches[row.batch := b];
    }
    assert rows[..|rows|] == rows;
  }

  /** A batch never checked takes the verdict of its unchecked instances. */
  function Settled(b: BatchStatus): BatchStatus
  {
    if b.checkedAt == None then b.(revoked := b.uncheckedRevoked) else b
  }

  /** The second pass, over the batches in any order. */
  method SettleUnchecked(gathered: map<nat, BatchStatus>) returns (batches: map<nat, BatchStatus>)
    ensures batches.Keys == gathered.Keys
    ensures forall batch :: batch in gathered ==> batches[batch] == Settled(gathered[batch])
  {
    batches := gathered;
    var left := gathered.Keys;
    while left != {}
      invariant left <= batches.Keys == gathered.Keys
      invariant forall batch :: batch in gathered ==>
                  batches[batch] == if batch in left then gathered[batch] else Settled(gathered[batch])
    {
      var batch :| batch in left;
      left := left - {batch};
      if batches[batch].checkedAt == None {
        batches := batches[batch := batches[batch].(revoked := batches[batch].uncheckedRevoked)];
      }
    }
  }

  function ValidityOf(row: Row, b: BatchStatus): HeldValidity
  {
    HeldValidity(row.format, b.revoked, b.hasStatusList, b.checkedAt, row.expiresAt, row.issuedAt)
  }

  /** Every instance is answered from its batch, and nothing else is. */
  ghost predicate AnsweredFrom(rows: seq<Row>, batches: map<nat, BatchStatus>, validities: map<nat, HeldValidity>)
  {
    && (forall r :: r in rows ==>
          r.batch in batches && r.id in validities && validities[r.id] == ValidityOf(r, batches[r.batch]))
    && (forall id :: id in validities ==> exists r :: r in rows && r.id == id)
  }

  /** The third pass: one answer per instance. */
  method AnswerEach(rows: seq<Row>, batches: map<nat, BatchStatus>) returns (validities: map<nat, HeldValidity>)
    requires DistinctIds(rows) && forall r :: r in rows ==> r.batch in batches
    ensures AnsweredFrom(rows, batches, validities)
  {
    validities := map[];
    for n := 0 to |rows|
      invariant forall i :: 0 <= i < n ==>
                  rows[i].id in validities && validities[rows[i].id] == ValidityOf(rows[i], batches[rows[i].batch])
      invariant forall id :: id in validities ==> exists r :: r in rows && r.id == id
    {
      var row := rows[n];
      validities := validities[row.id := ValidityOf(row, batches[row.batch])];
    }
  }

  /** Every held credential's validity. */
  method Validities(rows: seq<Row>) returns (validities: map<nat, HeldValidity>)
    requires DistinctIds(rows)
    ensures IsValidities(rows, validities)
  {
    var gathered := GatherBatches(rows);
    var batches := SettleUnchecked(gathered);
    validities := AnswerEach(rows, batches);
    AnswersAreVerdicts(rows, gathered, batches, validities);
  }

  lemma AnswersAreVerdicts(
      rows: seq<Row>, gathered: map<nat, BatchStatus>, batches: map<nat, BatchStatus>, validities: map<nat, HeldValidity>)
    requires AllGathered(rows, gathered) && AnsweredFrom(rows, batches, validities)
    requires forall batch :: batch in gathered ==> batch in batches && batches[batch] == Settled(gathered[batch])
    ensures IsValidities(rows, validities)
  {
    forall r | r in rows ensures r.id in validities && IsValidity(rows, r, validities[r.id]) {
      SettledIsVerdict(rows, r.batch, gathered[r.batch]);
    }
  }

  lemma RowGathered(rows: seq<Row>, n: nat, batches: map<nat, BatchStatus>, b: BatchStatus)
    requires n < |rows| && b == if rows[n].batch in batches then batches[rows[n].batch] else UNSEEN
    requires AllGathered(rows[..n], batches)
    ensures AllGathered(rows[..n + 1], batches[rows[n].batch := WithRow(b, rows[n])])
  {
    var row := rows[n];
    var batches' := batches[row.batch := WithRow(b, row)];
    assert rows[..n + 1] == rows[..n] + [row];
    forall batch: nat
      ensures Gathered(rows[..n + 1], batch, if batch in batches' then batches'[batch] else UNSEEN)
    {
      var was := if batch in batches then batches[batch] else UNSEEN;
      assert Gathered(rows[..n], batch, was);
      if batch != row.batch {
        OtherBatchGathered(rows[..n], row, batch, was);
      } else if row.lastCheck == None {
        UncheckedRowGathered(rows[..n], row, was);
      } else {
        CheckedRowGathered(rows[..n], row, was);
      }
    }
  }

  lemma SettledIsVerdict(rows: seq<Row>, batch: nat, gathered: BatchStatus)
    requires Gathered(rows, batch, gathered)
    ensures Settled(gathered).revoked <==> BatchRevoked(rows, batch)
    ensures Settled(gathered).hasStatusList <==> BatchHasStatusList(rows, batch)
    ensures IsCheckTime(rows, batch, Settled(gathered).checkedAt)
  {
    if gathered.checkedAt == None {
      assert forall r :: r in rows && r.batch == batch ==> !Checked(rows, r);
    }
  }

  // ---- what the answer does not depend on ----

  /** The rows' order does not matter: every order has the same one answer. */
  lemma OrderDoesNotMatter(rows: seq<Row>, shuffled: seq<Row>, v: map<nat, HeldValidity>, v': map<nat, HeldValidity>)
    requires multiset(rows) == multiset(shuffled)
    requires IsValidities(rows, v) && IsValidities(shuffled, v')
    ensures v == v'
  {
    SameRows(rows, shuffled);
    forall id | id in v ensures id in v' && v[id] == v'[id] {
      var r :| r in rows && r.id == id;
      assert r in shuffled;
      SameVerdict(rows, shuffled, r.batch);
      SameCheckTime(rows, r.batch, v[id].checkedAt, v'[id].checkedAt);
    }
    forall id | id in v' ensures id in v {
      var r :| r in shuffled && r.id == id;
      assert r in rows;
    }
  }

  lemma SameRows(rows: seq<Row>, shuffled: seq<Row>)
    requires multiset(rows) == multiset(shuffled)
    ensures forall r :: r in rows <==> r in shuffled
  {
    assert forall r :: r in rows <==> r in multiset(rows);
    assert forall r :: r in shuffled <==> r in multiset(shuffled);
  }

  lemma SameVerdict(rows: seq<Row>, shuffled: seq<Row>, batch: nat)
    requires forall r :: r in rows <==> r in shuffled
    ensures BatchRevoked(rows, batch) <==> BatchRevoked(shuffled, batch)
    ensures BatchHasStatusList(rows, batch) <==> BatchHasStatusList(shuffled, batch)
    ensures forall at :: IsCheckTime(rows, batch, at) <==> IsCheckTime(shuffled, batch, at)
  {
    assert forall r :: Checked(rows, r) <==> Checked(shuffled, r);
    assert forall r :: CheckedLast(rows, r) <==> CheckedLast(shuffled, r);
  }

  lemma SameCheckTime(rows: seq<Row>, batch: nat, at: Option<int>, at': Option<int>)
    requires IsCheckTime(rows, batch, at) && IsCheckTime(rows, batch, at')
    ensures at == at'
  {
  }

  /** All instances of a batch get the same verdict. */
  lemma {:induction false} BatchRevokedTogether(rows: seq<Row>, v: map<nat, HeldValidity>, r: Row, s: Row)
    requires IsValidities(rows, v) && r in rows && s in rows && r.batch == s.batch
    ensures v[r.id].revoked == v[s.id].revoked && v[r.id].checkedAt == v[s.id].checkedAt
  {
    SameCheckTime(rows, r.batch, v[r.id].checkedAt, v[s.id].checkedAt);
  }
}
