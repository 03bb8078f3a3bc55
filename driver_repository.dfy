/** The `drivers` table (Driver.java) and the queries of DriverRepository.java. A row is a
    stored driver: every column but `lastActiveAt` is NOT NULL, so only that one is optional. */
module DriverRepository {
  import opened Wrappers
  import opened Text
  import opened Query
  import opened DeliveryEntity

  datatype DriverStatus = Available | Busy | Offline | OnDelivery | OnBreak

  /** `@Enumerated(EnumType.STRING)`: the text the `status` column holds. */
  function StatusName(s: DriverStatus): string {
    match s
    case Available => "AVAILABLE"
    case Busy => "BUSY"
    case Offline => "OFFLINE"
    case OnDelivery => "ON_DELIVERY"
    case OnBreak => "ON_BREAK"
  }

  datatype Driver = Driver(
    id: int,
    driverId: string,
    firstName: string,
    lastName: string,
    phoneNumber: string,
    email: string,
    licenseNumber: string,
    status: DriverStatus,
    currentLocation: string,
    createdAt: Timestamp,
    updatedAt: Timestamp,
    lastActiveAt: Option<Timestamp>)

  /** The table's unique columns: the identity, `driverId`, `phoneNumber` and `email`. */
  predicate UniqueKeys(rows: seq<Driver>) {
    forall i, j :: 0 <= i < j < |rows| ==>
      && rows[i].id != rows[j].id && rows[i].driverId != rows[j].driverId
      && rows[i].phoneNumber != rows[j].phoneNumber && rows[i].email != rows[j].email
  }

  /** `findByDriverId`. */
  function FindByDriverId(rows: seq<Driver>, driverId: string): (r: Lookup<Driver>)
    ensures r.Absent? <==> forall d :: d in rows ==> d.driverId != driverId
    ensures r.Unique? ==> r.value in rows && r.value.driverId == driverId
  {
    FindUnique(rows, (d: Driver) => d.driverId == driverId)
  }

  /** `findByPhoneNumber`. */
  function FindByPhoneNumber(rows: seq<Driver>, phoneNumber: string): (r: Lookup<Driver>)
    ensures r.Absent? <==> forall d :: d in rows ==> d.phoneNumber != phoneNumber
    ensures r.Unique? ==> r.value in rows && r.value.phoneNumber == phoneNumber
  {
    FindUnique(rows, (d: Driver) => d.phoneNumber == phoneNumber)
  }

  /** `findByEmail`. */
  function FindByEmail(rows: seq<Driver>, email: string): (r: Lookup<Driver>)
    ensures r.Absent? <==> forall d :: d in rows ==> d.email != email
    ensures r.Unique? ==> r.value in rows && r.value.email == email
  {
    FindUnique(rows, (d: Driver) => d.email == email)
  }

  /** The unique columns make each of the three Optional finders yield at most one driver. */
  lemma {:induction false} KeyedFindersYieldAtMostOne(rows: seq<Driver>, driverId: string, phoneNumber: string, email: string)
    requires UniqueKeys(rows)
    ensures !FindByDriverId(rows, driverId).NonUnique?
    ensures !FindByPhoneNumber(rows, phoneNumber).NonUnique?
    ensures !FindByEmail(rows, email).NonUnique?
  {
    var byId := (d: Driver) => d.driverId == driverId;
    var byPhone := (d: Driver) => d.phoneNumber == phoneNumber;
    var byEmail := (d: Driver) => d.email == email;
    assert AtMostOne(rows, byId) by {
      forall i, j | 0 <= i < j < |rows| && byId(rows[i]) ensures !byId(rows[j]) {
        assert rows[i].driverId != rows[j].driverId;
      }
    }
    assert AtMostOne(rows, byPhone) by {
      forall i, j | 0 <= i < j < |rows| && byPhone(rows[i]) ensures !byPhone(rows[j]) {
        assert rows[i].phoneNumber != rows[j].phoneNumber;
      }
    }
    assert AtMostOne(rows, byEmail) by {
      forall i, j | 0 <= i < j < |rows| && byEmail(rows[i]) ensures !byEmail(rows[j]) {
        assert rows[i].email != rows[j].email;
      }
    }
    UniqueKeyNeverNonUnique(rows, byId);
    UniqueKeyNeverNonUnique(rows, byPhone);
    UniqueKeyNeverNonUnique(rows, byEmail);
  }

  /** `findByStatus`. */
  function FindByStatus(rows: seq<Driver>, status: DriverStatus): (r: seq<Driver>)
    ensures Selects(r, rows, (d: Driver) => d.status == status)
  {
    Filter(rows, (d: Driver) => d.status == status)
  }

  /** `findAvailableDrivers`: the JPQL compares the status column's text with 'AVAILABLE'. */
  function FindAvailableDrivers(rows: seq<Driver>): (r: seq<Driver>)
    ensures Selects(r, rows, (d: Driver) => StatusName(d.status) == "AVAILABLE")
  {
    Filter(rows, (d: Driver) => StatusName(d.status) == "AVAILABLE")
  }

  /** Only AVAILABLE is stored as the text 'AVAILABLE', so the query is findByStatus(AVAILABLE). */
  lemma {:induction false} AvailableDriversAreFindByStatus(rows: seq<Driver>)
    ensures FindAvailableDrivers(rows) == FindByStatus(rows, Available)
  {
    var byName := (d: Driver) => StatusName(d.status) == "AVAILABLE";
    var byStatus := (d: Driver) => d.status == Available;
    forall d: Driver ensures byName(d) == byStatus(d) {
      assert StatusName(d.status) == "AVAILABLE" ==> d.status == Available by {
        if StatusName(d.status) == "AVAILABLE" {
          assert |StatusName(d.status)| == 9;
          assert StatusName(d.status)[0] == 'A';
        }
      }
    }
    FilterCongruence(rows, byName, byStatus);
  }

  /** `currentLocation LIKE %:location%`: the location occurs somewhere in the column. */
  function FindByLocationContaining(rows: seq<Driver>, location: string): (r: seq<Driver>)
    ensures Selects(r, rows, (d: Driver) => Contains(d.currentLocation, location))
  {
    Filter(rows, (d: Driver) => Contains(d.currentLocation, location))
  }

  /** An empty location, `LIKE '%%'`, matches every driver. */
  lemma {:induction false} EmptyLocationMatchesAll(rows: seq<Driver>)
    ensures FindByLocationContaining(rows, "") == rows
  {
    var p := (d: Driver) => Contains(d.currentLocation, "");
    var all := (d: Driver) => true;
    forall d: Driver ensures p(d) == all(d) {
      assert OccursAt(d.currentLocation, "", 0);
    }
    FilterCongruence(rows, p, all);
    FilterAllKeepsEverything(rows, all);
  }

  lemma {:induction false} FilterAllKeepsEverything(rows: seq<Driver>, all: Driver -> bool)
    requires forall d :: all(d)
    ensures Filter(rows, all) == rows
  {
    if rows != [] {
      FilterAllKeepsEverything(rows[1..], all);
      assert rows == [rows[0]] + rows[1..];
    }
  }
}
