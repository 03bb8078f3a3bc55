/** The `vehicles` table (Vehicle.java) and the queries of VehicleRepository.java. A row is a
    stored vehicle: every column but `lastMaintenanceAt` is NOT NULL. */
module VehicleRepository {
  import opened Wrappers
  import opened Query
  import opened DeliveryEntity

  datatype VehicleStatus = Available | InUse | Maintenance | OutOfService

  datatype VehicleType = Motorcycle | Car | Van | Truck | Bicycle

  /** `@Enumerated(EnumType.STRING)`: the text the `status` column holds. */
  function StatusName(s: VehicleStatus): string {
    match s
    case Available => "AVAILABLE"
    case InUse => "IN_USE"
    case Maintenance => "MAINTENANCE"
    case OutOfService => "OUT_OF_SERVICE"
  }

  datatype Vehicle = Vehicle(
    id: int,
    vehicleId: string,
    brand: string,
    model: string,
    licensePlate: string,
    color: string,
    vehicleType: VehicleType,
    status: VehicleStatus,
    driverId: string,
    createdAt: Timestamp,
    updatedAt: Timestamp,
    lastMaintenanceAt: Option<Timestamp>)

  /** The table's unique columns: the identity and `vehicleId`; `licensePlate` is not one. */
  predicate UniqueKeys(rows: seq<Vehicle>) {
    forall i, j :: 0 <= i < j < |rows| ==> rows[i].id != rows[j].id && rows[i].vehicleId != rows[j].vehicleId
  }

  /** `findByVehicleId`. */
  function FindByVehicleId(rows: seq<Vehicle>, vehicleId: string): (r: Lookup<Vehicle>)
    ensures r.Absent? <==> forall v :: v in rows ==> v.vehicleId != vehicleId
    ensures r.Unique? ==> r.value in rows && r.value.vehicleId == vehicleId
  {
    FindUnique(rows, (v: Vehicle) => v.vehicleId == vehicleId)
  }

  /** The unique `vehicleId` column makes findByVehicleId yield at most one vehicle. */
  lemma {:induction false} VehicleIdFindsAtMostOne(rows: seq<Vehicle>, vehicleId: string)
    requires UniqueKeys(rows)
    ensures !FindByVehicleId(rows, vehicleId).NonUnique?
  {
    var p := (v: Vehicle) => v.vehicleId == vehicleId;
    assert AtMostOne(rows, p) by {
      forall i, j | 0 <= i < j < |rows| && p(rows[i]) ensures !p(rows[j]) {
        assert rows[i].vehicleId != rows[j].vehicleId;
      }
    }
    UniqueKeyNeverNonUnique(rows, p);
  }

  /** `findByLicensePlate`, declared to return an Optional. */
  function FindByLicensePlate(rows: seq<Vehicle>, licensePlate: string): (r: Lookup<Vehicle>)
    ensures r.Absent? <==> forall v :: v in rows ==> v.licensePlate != licensePlate
    ensures r.Unique? ==> r.value in rows && r.value.licensePlate == licensePlate
  {
    FindUnique(rows, (v: Vehicle) => v.licensePlate == licensePlate)
  }

  /** Nothing in the table stops two vehicles from sharing a plate, and then the finder fails. */
  lemma SharedPlateIsNonUnique(a: Vehicle, b: Vehicle)
    requires a.id != b.id && a.vehicleId != b.vehicleId && a.licensePlate == b.licensePlate
    ensures UniqueKeys([a, b])
    ensures FindByLicensePlate([a, b], a.licensePlate).NonUnique?
  {
    assert Filter([a, b], (v: Vehicle) => v.licensePlate == a.licensePlate) == [a, b] by {
      assert [a, b][1..] == [b];
    }
  }

  /** "At most one" for findByLicensePlate holds only once plates are assumed distinct. */
  lemma {:induction false} DistinctPlatesFindAtMostOne(rows: seq<Vehicle>, licensePlate: string)
    requires forall i, j :: 0 <= i < j < |rows| ==> rows[i].licensePlate != rows[j].licensePlate
    ensures !FindByLicensePlate(rows, licensePlate).NonUnique?
  {
    var p := (v: Vehicle) => v.licensePlate == licensePlate;
    assert AtMostOne(rows, p) by {
      forall i, j | 0 <= i < j < |rows| && p(rows[i]) ensures !p(rows[j]) {
        assert rows[i].licensePlate != rows[j].licensePlate;
      }
    }
    UniqueKeyNeverNonUnique(rows, p);
  }

  /** `findByStatus`. */
  function FindByStatus(rows: seq<Vehicle>, status: VehicleStatus): (r: seq<Vehicle>)
    ensures Selects(r, rows, (v: Vehicle) => v.status == status)
  {
    Filter(rows, (v: Vehicle) => v.status == status)
  }

  /** `findByType`. */
  function FindByType(rows: seq<Vehicle>, vehicleType: VehicleType): (r: seq<Vehicle>)
    ensures Selects(r, rows, (v: Vehicle) => v.vehicleType == vehicleType)
  {
    Filter(rows, (v: Vehicle) => v.vehicleType == vehicleType)
  }

  /** `findByDriverId`. */
  function FindByDriverId(rows: seq<Vehicle>, driverId: string): (r: seq<Vehicle>)
    ensures Selects(r, rows, (v: Vehicle) => v.driverId == driverId)
  {
    Filter(rows, (v: Vehicle) => v.driverId == driverId)
  }

  /** The JPQL literal test `v.status = 'AVAILABLE'` on the status column's text. */
  predicate IsAvailable(v: Vehicle) {
    StatusName(v.status) == "AVAILABLE"
  }

  /** `findAvailableVehicles`. */
  function FindAvailableVehicles(rows: seq<Vehicle>): (r: seq<Vehicle>)
    ensures Selects(r, rows, (v: Vehicle) => IsAvailable(v))
  {
    Filter(rows, (v: Vehicle) => IsAvailable(v))
  }

  /** Only AVAILABLE is stored as 'AVAILABLE', so the query is findByStatus(AVAILABLE). */
  lemma {:induction false} AvailableVehiclesAreFindByStatus(rows: seq<Vehicle>)
    ensures FindAvailableVehicles(rows) == FindByStatus(rows, Available)
  {
    var byName := (v: Vehicle) => IsAvailable(v);
    var byStatus := (v: Vehicle) => v.status == Available;
    forall v: Vehicle ensures byName(v) == byStatus(v) {
      if IsAvailable(v) {
        assert |StatusName(v.status)| == 9;
      }
    }
    FilterCongruence(rows, byName, byStatus);
  }

  /** `findAvailableVehiclesByType`: available and of that type, in table order. */
  function FindAvailableVehiclesByType(rows: seq<Vehicle>, vehicleType: VehicleType): (r: seq<Vehicle>)
    ensures Selects(r, rows, (v: Vehicle) => IsAvailable(v) && v.vehicleType == vehicleType)
  {
    Filter(rows, (v: Vehicle) => IsAvailable(v) && v.vehicleType == vehicleType)
  }

  /** The by-type query is the available vehicles narrowed to that type, so it lists a subset
      of findAvailableVehicles, in the same order. */
  lemma {:induction false} AvailableByTypeNarrowsAvailable(rows: seq<Vehicle>, vehicleType: VehicleType)
    ensures FindAvailableVehiclesByType(rows, vehicleType)
            == Filter(FindAvailableVehicles(rows), (v: Vehicle) => v.vehicleType == vehicleType)
    ensures Subsequence(FindAvailableVehiclesByType(rows, vehicleType), FindAvailableVehicles(rows))
  {
    FilterNarrows(rows, (v: Vehicle) => IsAvailable(v), (v: Vehicle) => v.vehicleType == vehicleType,
                  (v: Vehicle) => IsAvailable(v) && v.vehicleType == vehicleType);
  }
}
