/** The `deliveries` table and the queries of DeliveryRepository.java over it. Every query is a
    function of the table's rows (in table order); the inherited `save` is the class
    DeliveryTable below, which the service drives. */
module DeliveryRepository {
  import opened Wrappers
  import opened Query
  import opened DeliveryEntity

  // ----- Queries -----

  /** `findByTrackingNumber`: the one row with that tracking number, none, or a failure when
      several match. */
  function FindByTrackingNumber(rows: seq<Row>, trackingNumber: string): (r: Lookup<Row>)
    ensures r.Absent? <==> forall x :: x in rows ==> x.trackingNumber != Some(trackingNumber)
    ensures r.Unique? ==> r.value in rows && r.value.trackingNumber == Some(trackingNumber)
  {
    FindUnique(rows, (x: Row) => x.trackingNumber == Some(trackingNumber))
  }

  /** `findByStatus`. */
  function FindByStatus(rows: seq<Row>, status: DeliveryStatus): (r: seq<Row>)
    ensures Selects(r, rows, (x: Row) => x.status == Some(status))
  {
    Filter(rows, (x: Row) => x.status == Some(status))
  }

  /** `findByDriverId`. */
  function FindByDriverId(rows: seq<Row>, driverId: string): (r: seq<Row>)
    ensures Selects(r, rows, (x: Row) => x.driverId == Some(driverId))
  {
    Filter(rows, (x: Row) => x.driverId == Some(driverId))
  }

  /** `findByCustomerPhone`. */
  function FindByCustomerPhone(rows: seq<Row>, customerPhone: string): (r: seq<Row>)
    ensures Selects(r, rows, (x: Row) => x.customerPhone == Some(customerPhone))
  {
    Filter(rows, (x: Row) => x.customerPhone == Some(customerPhone))
  }

  /** `createdAt BETWEEN start AND end`: both bounds included; a null stamp matches nothing. */
  predicate CreatedBetween(x: Row, startDate: Timestamp, endDate: Timestamp) {
    x.createdAt.Some? && startDate <= x.createdAt.value <= endDate
  }

  /** `findByCreatedAtBetween`. */
  function FindByCreatedAtBetween(rows: seq<Row>, startDate: Timestamp, endDate: Timestamp): (r: seq<Row>)
    ensures Selects(r, rows, (x: Row) => CreatedBetween(x, startDate, endDate))
    ensures forall x :: x in rows && x.createdAt == Some(startDate) && startDate <= endDate ==> x in r
    ensures forall x :: x in rows && x.createdAt == Some(endDate) && startDate <= endDate ==> x in r
  {
    Filter(rows, (x: Row) => CreatedBetween(x, startDate, endDate))
  }

  /** `findByCity`: picked up in the city or delivered to it; a row matching both ways is
      returned once. */
  function FindByCity(rows: seq<Row>, city: string): (r: seq<Row>)
    ensures Selects(r, rows, (x: Row) => x.pickupCity == Some(city) || x.deliveryCity == Some(city))
  {
    Filter(rows, (x: Row) => x.pickupCity == Some(city) || x.deliveryCity == Some(city))
  }

  /** `countByStatus`: the number of rows findByStatus returns. */
  function CountByStatus(rows: seq<Row>, status: DeliveryStatus): (n: nat)
    ensures n == |FindByStatus(rows, status)|
  {
    CountIsFilterSize(rows, (x: Row) => x.status == Some(status));
    Count(rows, (x: Row) => x.status == Some(status))
  }

  /** `status IN :statuses`; a null status matches nothing. */
  predicate StatusIn(x: Row, statuses: seq<DeliveryStatus>) {
    x.status.Some? && x.status.value in statuses
  }

  /** The sort key of `ORDER BY createdAt`: createdAt itself for every row the table holds,
      whose createdAt column is not null. */
  function CreatedKey(x: Row): int {
    if x.createdAt.Some? then x.createdAt.value else 0
  }

  /** Newest first: `ORDER BY createdAt DESC`. */
  predicate NewestFirst(xs: seq<Row>) {
    forall i, j :: 0 <= i < j < |xs| ==> CreatedKey(xs[j]) <= CreatedKey(xs[i])
  }

  function InsertNewestFirst(x: Row, xs: seq<Row>): (r: seq<Row>)
    requires NewestFirst(xs)
    ensures NewestFirst(r)
    ensures multiset(r) == multiset(xs) + multiset{x}
  {
    if xs == [] then [x]
    else if CreatedKey(xs[0]) <= CreatedKey(x) then [x] + xs
    else
      var rest := InsertNewestFirst(x, xs[1..]);
      assert xs == [xs[0]] + xs[1..];
      KeysBounded(rest, xs[1..], x, CreatedKey(xs[0]));
      ConsNewestFirst(xs[0], rest);
      [xs[0]] + rest
  }

  /** Every row of a rearrangement of `pool` plus `x` keeps a bound that `pool` and `x` keep. */
  lemma KeysBounded(rest: seq<Row>, pool: seq<Row>, x: Row, bound: int)
    requires multiset(rest) == multiset(pool) + multiset{x}
    requires forall k :: 0 <= k < |pool| ==> CreatedKey(pool[k]) <= bound
    requires CreatedKey(x) <= bound
    ensures forall k :: 0 <= k < |rest| ==> CreatedKey(rest[k]) <= bound
  {
    forall k | 0 <= k < |rest| ensures CreatedKey(rest[k]) <= bound {
      assert rest[k] in multiset(rest);
      if rest[k] != x {
        assert rest[k] in multiset(pool);
        var m :| 0 <= m < |pool| && pool[m] == rest[k];
      }
    }
  }

  lemma ConsNewestFirst(h: Row, rest: seq<Row>)
    requires NewestFirst(rest)
    requires forall k :: 0 <= k < |rest| ==> CreatedKey(rest[k]) <= CreatedKey(h)
    ensures NewestFirst([h] + rest)
  {
    var r := [h] + rest;
    forall i, j | 0 <= i < j < |r| ensures CreatedKey(r[j]) <= CreatedKey(r[i]) {
      assert r[j] == rest[j - 1];
      if i > 0 { assert r[i] == rest[i - 1]; }
    }
  }

  function SortNewestFirst(xs: seq<Row>): (r: seq<Row>)
    ensures NewestFirst(r)
    ensures multiset(r) == multiset(xs)
  {
    if xs == [] then []
    else
      assert xs == [xs[0]] + xs[1..];
      InsertNewestFirst(xs[0], SortNewestFirst(xs[1..]))
  }

  /** `findByStatusIn`: the rows whose status is listed, newest first (rows with equal stamps
      in no promised order). */
  function FindByStatusIn(rows: seq<Row>, statuses: seq<DeliveryStatus>): (r: seq<Row>)
    requires forall x :: x in rows ==> x.createdAt.Some?
    ensures SelectsInAnyOrder(r, rows, (x: Row) => StatusIn(x, statuses))
    ensures forall i, j :: 0 <= i < j < |r| ==> r[i].createdAt.Some? && r[j].createdAt.Some?
                                                && r[j].createdAt.value <= r[i].createdAt.value
  {
    var selected := Filter(rows, (x: Row) => StatusIn(x, statuses));
    var r := SortNewestFirst(selected);
    assert forall x :: x in r ==> x in selected by {
      forall x | x in r ensures x in selected {
        assert multiset(r)[x] > 0;
      }
    }
    r
  }

  // ----- The table -----

  /** Why an insert is refused (a `DataIntegrityViolationException`). */
  datatype SaveError = NotNullViolation | UniqueViolation

  /** No two rows share an id or a tracking number (`unique = true`). */
  predicate UniqueKeys(rows: seq<Row>) {
    forall i, j :: 0 <= i < j < |rows| ==> rows[i].id != rows[j].id && rows[i].trackingNumber != rows[j].trackingNumber
  }

  /** Unique tracking numbers make findByTrackingNumber yield at most one row. */
  lemma {:induction false} TrackingNumberFindsAtMostOne(rows: seq<Row>, trackingNumber: string)
    requires UniqueKeys(rows)
    ensures !FindByTrackingNumber(rows, trackingNumber).NonUnique?
  {
    var p := (x: Row) => x.trackingNumber == Some(trackingNumber);
    assert AtMostOne(rows, p) by {
      forall i, j | 0 <= i < j < |rows| && p(rows[i]) ensures !p(rows[j]) {
        assert rows[i].trackingNumber != rows[j].trackingNumber;
      }
    }
    UniqueKeyNeverNonUnique(rows, p);
  }

  /** The outcome of inserting a row whose hooks have run: the NOT NULL constraints first, then
      the unique tracking number; a row that passes gets the next identity value. */
  function Inserted(rows: seq<Row>, nextId: int, pending: Row): (r: Result<Row, SaveError>)
    ensures r.Success? <==> NotNullColumns(pending) && forall x :: x in rows ==> x.trackingNumber != pending.trackingNumber
    ensures r.Success? ==> r.value == pending.(id := Some(nextId))
    ensures r == Failure(NotNullViolation) <==> !NotNullColumns(pending)
  {
    if !NotNullColumns(pending) then Failure(NotNullViolation)
    else if exists k :: 0 <= k < |rows| && rows[k].trackingNumber == pending.trackingNumber then Failure(UniqueViolation)
    else Success(pending.(id := Some(nextId)))
  }

  /** `UPDATE deliveries SET ... WHERE id = row.id`. */
  function Replace(rows: seq<Row>, row: Row): (r: seq<Row>)
    ensures |r| == |rows|
    ensures forall k :: 0 <= k < |rows| ==> r[k] == if rows[k].id == row.id then row else rows[k]
  {
    seq(|rows|, k requires 0 <= k < |rows| => if rows[k].id == row.id then row else rows[k])
  }

  /** What a managed entity's row becomes at commit: nothing happens to a clean entity; a dirty
      one runs onUpdate (a new updatedAt) and is written. */
  function Committed(loaded: Row, current: Row, now: Timestamp): (r: Row)
    ensures current == loaded ==> r == loaded
    ensures current != loaded ==> r == current.(updatedAt := Some(now))
  {
    if current == loaded then loaded else current.(updatedAt := Some(now))
  }

  class DeliveryTable {
    var rows: seq<Row>
    /** The next value of the id column's identity sequence. */
    var nextId: int

    /** Every row is stored whole with an id below the sequence, and ids and tracking numbers
        are unique. */
    predicate Valid()
      reads this
    {
      && (forall k :: 0 <= k < |rows| ==> Stored(rows[k]) && rows[k].id.value < nextId)
      && UniqueKeys(rows)
    }

    constructor ()
      ensures Valid() && rows == [] && nextId == 1
    {
      rows := [];
      nextId := 1;
    }

    /** `save` of a new entity (id null): `@PrePersist` runs with two clock readings, then the
        insert either fails, leaving the table as it was, or stores the row under a fresh id
        and writes that id back into the entity. */
    method Persist(d: Delivery, first: Timestamp, second: Timestamp) returns (r: Result<Row, SaveError>)
      requires Valid() && d.id.None?
      modifies this, d
      ensures Valid()
      ensures r == Inserted(old(rows), old(nextId), old(d.Snapshot()).(createdAt := Some(first), updatedAt := Some(second)))
      ensures r.Success? ==> rows == old(rows) + [r.value] && nextId == old(nextId) + 1 && d.Snapshot() == r.value
      ensures r.Failure? ==> rows == old(rows) && nextId == old(nextId)
    {
      d.OnCreate(first, second);
      r := Inserted(rows, nextId, d.Snapshot());
      if r.Success? {
        d.id := Some(nextId);
        rows := rows + [d.Snapshot()];
        nextId := nextId + 1;
      }
    }

    /** The commit of a transaction that loaded `loaded` into the managed entity d and changed
        its fields without touching id or tracking number (a `save` of a managed entity only
        hands it back; the row is written here). */
    method Flush(loaded: Row, d: Delivery, now: Timestamp)
      requires Valid() && loaded in rows
      requires d.id == loaded.id && d.trackingNumber == loaded.trackingNumber && NotNullColumns(d.Snapshot())
      modifies this, d
      ensures Valid()
      ensures d.Snapshot() == Committed(loaded, old(d.Snapshot()), now)
      ensures rows == (if old(d.Snapshot()) == loaded then old(rows) else Replace(old(rows), d.Snapshot()))
      ensures nextId == old(nextId)
    {
      if d.Snapshot() != loaded {
        d.OnUpdate(now);
        ReplaceKeepsValid(rows, nextId, loaded, d.Snapshot());
        rows := Replace(rows, d.Snapshot());
      }
    }
  }

  /** Rewriting a stored row with a whole row of the same id and tracking number keeps the
      table's invariant. */
  lemma {:induction false} ReplaceKeepsValid(rows: seq<Row>, nextId: int, loaded: Row, row: Row)
    requires forall k :: 0 <= k < |rows| ==> Stored(rows[k]) && rows[k].id.value < nextId
    requires UniqueKeys(rows) && loaded in rows
    requires row.id == loaded.id && row.trackingNumber == loaded.trackingNumber && NotNullColumns(row)
    ensures var r := Replace(rows, row);
            (forall k :: 0 <= k < |r| ==> Stored(r[k]) && r[k].id.value < nextId) && UniqueKeys(r)
  {
    var r := Replace(rows, row);
    forall k | 0 <= k < |rows| && rows[k].id == row.id
      ensures rows[k] == loaded
    {
      var m :| 0 <= m < |rows| && rows[m] == loaded;
      assert !(k < m || m < k);
    }
    assert forall k :: 0 <= k < |rows| ==> r[k].id == rows[k].id && r[k].trackingNumber == rows[k].trackingNumber;
  }
}
