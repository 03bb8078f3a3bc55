/** The `Delivery` JPA entity of backend/src/main/java/com/mobility/delivery/entity/Delivery.java:
    a mutable object with one field per column of the `deliveries` table, its two lifecycle
    hooks, and the column constraints the table enforces. */
module DeliveryEntity {
  import opened Wrappers

  /** `DeliveryStatus`, the nine states a delivery can be in. */
  datatype DeliveryStatus =
    | Pending | Assigned | PickupInProgress | PickedUp | InTransit
    | OutForDelivery | Delivered | Failed | Cancelled

  /** A `LocalDateTime`, as a point on the clock. */
  type Timestamp = int

  /** A `BigDecimal`; no arithmetic is done on weights and prices. */
  type Decimal = real

  /** The value of every field of a Delivery at one moment (a row of the table); None is null. */
  datatype Row = Row(
    id: Option<int>,
    trackingNumber: Option<string>,
    customerName: Option<string>,
    customerPhone: Option<string>,
    pickupAddress: Option<string>,
    deliveryAddress: Option<string>,
    pickupCity: Option<string>,
    deliveryCity: Option<string>,
    weight: Option<Decimal>,
    price: Option<Decimal>,
    status: Option<DeliveryStatus>,
    driverId: Option<string>,
    vehicleId: Option<string>,
    createdAt: Option<Timestamp>,
    updatedAt: Option<Timestamp>,
    pickupTime: Option<Timestamp>,
    deliveryTime: Option<Timestamp>,
    notes: Option<string>)

  /** What `Delivery.builder().build()` holds before any field is set. */
  const Unset: Row := Row(None, None, None, None, None, None, None, None, None,
                          None, None, None, None, None, None, None, None, None)

  /** The columns declared `nullable = false`: all but id (generated), pickupTime, deliveryTime
      and notes. */
  predicate NotNullColumns(r: Row) {
    && r.trackingNumber.Some? && r.customerName.Some? && r.customerPhone.Some?
    && r.pickupAddress.Some? && r.deliveryAddress.Some? && r.pickupCity.Some? && r.deliveryCity.Some?
    && r.weight.Some? && r.price.Some? && r.status.Some?
    && r.driverId.Some? && r.vehicleId.Some? && r.createdAt.Some? && r.updatedAt.Some?
  }

  /** A row as the table holds it: every non-null column set, and an id the store assigned. */
  predicate Stored(r: Row) {
    r.id.Some? && NotNullColumns(r)
  }

  /** The entity object. Lombok's `@Data` setters are plain field assignments. */
  class Delivery {
    var id: Option<int>
    var trackingNumber: Option<string>
    var customerName: Option<string>
    var customerPhone: Option<string>
    var pickupAddress: Option<string>
    var deliveryAddress: Option<string>
    var pickupCity: Option<string>
    var deliveryCity: Option<string>
    var weight: Option<Decimal>
    var price: Option<Decimal>
    var status: Option<DeliveryStatus>
    var driverId: Option<string>
    var vehicleId: Option<string>
    var createdAt: Option<Timestamp>
    var updatedAt: Option<Timestamp>
    var pickupTime: Option<Timestamp>
    var deliveryTime: Option<Timestamp>
    var notes: Option<string>

    function Snapshot(): Row
      reads this
    {
      Row(id, trackingNumber, customerName, customerPhone, pickupAddress, deliveryAddress,
          pickupCity, deliveryCity, weight, price, status, driverId, vehicleId,
          createdAt, updatedAt, pickupTime, deliveryTime, notes)
    }

    /** The all-arguments constructor (and what the builder's `build()` amounts to). */
    constructor (r: Row)
      ensures Snapshot() == r
    {
      id, trackingNumber, customerName, customerPhone := r.id, r.trackingNumber, r.customerName, r.customerPhone;
      pickupAddress, deliveryAddress, pickupCity, deliveryCity := r.pickupAddress, r.deliveryAddress, r.pickupCity, r.deliveryCity;
      weight, price, status, driverId, vehicleId := r.weight, r.price, r.status, r.driverId, r.vehicleId;
      createdAt, updatedAt, pickupTime, deliveryTime := r.createdAt, r.updatedAt, r.pickupTime, r.deliveryTime;
      notes := r.notes;
    }

    /** `@PrePersist onCreate`: both stamps from the clock, read twice (so they may differ). */
    method OnCreate(first: Timestamp, second: Timestamp)
      modifies this
      ensures Snapshot() == old(Snapshot()).(createdAt := Some(first), updatedAt := Some(second))
    {
      createdAt := Some(first);
      updatedAt := Some(second);
    }

    /** `@PreUpdate onUpdate`: a new `updatedAt`; `createdAt` and every other field are kept. */
    method OnUpdate(now: Timestamp)
      modifies this
      ensures Snapshot() == old(Snapshot()).(updatedAt := Some(now))
    {
      updatedAt := Some(now);
    }
  }
}
