/** DeliveryService.java: each public operation runs in one transaction over the `deliveries`
    table, maps its result to a DTO and, when it mutates, publishes one event. The clock, the
    UUID generator and the broker's answer are parameters: `millis` and `uuid` for the tracking
    number, the clock readings each hook or setter takes, and a Broker value per publication. */
module DeliveryService {
  import opened Wrappers
  import opened Text
  import opened Query
  import opened DeliveryEntity
  import opened DeliveryRepository
  import opened DeliveryMapper
  import opened CreateRequest
  import opened EventType

  const Topic: string := "delivery-events"

  // ----- Tracking numbers -----

  predicate IsLowerHex(c: char) { IsDigit(c) || 'a' <= c <= 'f' }

  /** The text of `UUID.randomUUID()`: 36 characters, lower-case hex digits in five groups
      separated by '-' at positions 8, 13, 18 and 23. */
  predicate UuidText(u: string) {
    |u| == 36 && forall i :: 0 <= i < 36 ==> if i == 8 || i == 13 || i == 18 || i == 23 then u[i] == '-' else IsLowerHex(u[i])
  }

  /** `generateTrackingNumber`: "DEL", the clock in milliseconds, then the first 8 characters of
      the UUID upper-cased (`substring(0, 8)` needs at least 8). */
  function GenerateTrackingNumber(millis: nat, uuid: string): (t: string)
    requires |uuid| >= 8
    ensures StartsWith(t, "DEL")
    ensures |t| == 3 + |Text.Decimal(millis)| + 8
    ensures t[3..|t| - 8] == Text.Decimal(millis)
    ensures t[|t| - 8..] == Upper(uuid[..8])
    ensures forall i :: |t| - 8 <= i < |t| ==> !IsLowerAscii(t[i])
  {
    var t := "DEL" + Text.Decimal(millis) + Upper(uuid[..8]);
    assert t[3..|t| - 8] == Text.Decimal(millis);
    assert t[|t| - 8..] == Upper(uuid[..8]);
    t
  }

  /** After "DEL" a generated tracking number holds only decimal digits and the upper-case hex
      digits A to F. */
  lemma {:induction false} TrackingNumberAlphabet(millis: nat, uuid: string)
    requires UuidText(uuid)
    ensures var t := GenerateTrackingNumber(millis, uuid);
            forall i :: 3 <= i < |t| ==> IsDigit(t[i]) || 'A' <= t[i] <= 'F'
  {
    var t := GenerateTrackingNumber(millis, uuid);
    var n := |Text.Decimal(millis)|;
    forall i | 3 <= i < |t| ensures IsDigit(t[i]) || 'A' <= t[i] <= 'F' {
      if i < 3 + n {
        assert t[i] == t[3..|t| - 8][i - 3] == Text.Decimal(millis)[i - 3];
      } else {
        assert t[i] == t[|t| - 8..][i - 3 - n] == UpperChar(uuid[i - 3 - n]);
        assert IsLowerHex(uuid[i - 3 - n]);
      }
    }
  }

  // ----- Events -----

  /** `DeliveryEvent`. */
  datatype DeliveryEvent = DeliveryEvent(
    eventId: string,
    eventType: string,
    timestamp: Timestamp,
    trackingNumber: Option<string>,
    deliveryId: Option<int>,
    customerName: Option<string>,
    customerPhone: Option<string>,
    pickupAddress: Option<string>,
    deliveryAddress: Option<string>,
    pickupCity: Option<string>,
    deliveryCity: Option<string>,
    weight: Option<Decimal>,
    price: Option<Decimal>,
    status: Option<DeliveryStatus>,
    driverId: Option<string>,
    vehicleId: Option<string>,
    notes: Option<string>)

  /** The event's payload carries the row's fields (its id as `deliveryId`); the row's four
      timestamps are not part of it. */
  predicate Mirrors(e: DeliveryEvent, d: Row) {
    && e.trackingNumber == d.trackingNumber && e.deliveryId == d.id
    && e.customerName == d.customerName && e.customerPhone == d.customerPhone
    && e.pickupAddress == d.pickupAddress && e.deliveryAddress == d.deliveryAddress
    && e.pickupCity == d.pickupCity && e.deliveryCity == d.deliveryCity
    && e.weight == d.weight && e.price == d.price && e.status == d.status
    && e.driverId == d.driverId && e.vehicleId == d.vehicleId && e.notes == d.notes
  }

  /** The builder call in `publishDeliveryEvent`. */
  function BuildEvent(d: Row, t: EventType, eventId: string, at: Timestamp): (e: DeliveryEvent)
    ensures e.eventType == Value(t) && e.eventId == eventId && e.timestamp == at
    ensures Mirrors(e, d)
  {
    DeliveryEvent(eventId, Value(t), at, d.trackingNumber, d.id, d.customerName, d.customerPhone,
                  d.pickupAddress, d.deliveryAddress, d.pickupCity, d.deliveryCity, d.weight,
                  d.price, d.status, d.driverId, d.vehicleId, d.notes)
  }

  /** What a publication needs from outside: a fresh event id, a clock reading, and whether the
      broker takes the message. */
  datatype Broker = Broker(eventId: string, at: Timestamp, accepted: bool)

  /** The messages one publication adds to the topic. */
  function Published(d: Row, t: EventType, broker: Broker): seq<(string, DeliveryEvent)> {
    if broker.accepted then [(Topic, BuildEvent(d, t, broker.eventId, broker.at))] else []
  }

  /** An event and the DTO built from the same row agree on every property they share. */
  lemma {:induction false} EventAgreesWithDto(d: Row, t: EventType, eventId: string, at: Timestamp)
    ensures var e, dto := BuildEvent(d, t, eventId, at), ToDto(Some(d)).value;
            && e.trackingNumber == dto.trackingNumber && e.deliveryId == dto.id
            && e.customerName == dto.customerName && e.customerPhone == dto.customerPhone
            && e.pickupAddress == dto.pickupAddress && e.deliveryAddress == dto.deliveryAddress
            && e.pickupCity == dto.pickupCity && e.deliveryCity == dto.deliveryCity
            && e.weight == dto.weight && e.price == dto.price && e.status == dto.status
            && e.driverId == dto.driverId && e.vehicleId == dto.vehicleId && e.notes == dto.notes
  {
    var e, dto := BuildEvent(d, t, eventId, at), ToDto(Some(d)).value;
    assert Mirrors(e, d);
    assert SameOrderData(dto, d) && SameServerData(dto, d);
  }

  /** The Kafka topic as the list of messages it received, with their topic names. */
  class EventLog {
    var sent: seq<(string, DeliveryEvent)>

    constructor ()
      ensures sent == []
    {
      sent := [];
    }

    /** `sendDeliveryEvent`: the message is appended when the broker accepts it; a refusal only
        completes the returned future exceptionally, which nobody waits on. */
    method Send(topic: string, event: DeliveryEvent, accepted: bool)
      modifies this
      ensures sent == old(sent) + (if accepted then [(topic, event)] else [])
    {
      if accepted {
        sent := sent + [(topic, event)];
      }
    }
  }

  // ----- Record builders -----

  /** The record `createDelivery` builds: the nine request fields, the tracking number, status
      PENDING and empty driver and vehicle ids; id and the four stamps are left unset. */
  function NewDelivery(request: CreateDeliveryRequest, trackingNumber: string): (d: Row)
    ensures d.trackingNumber == Some(trackingNumber) && d.status == Some(Pending)
    ensures d.driverId == Some("") && d.vehicleId == Some("")
    ensures && d.customerName == request.customerName && d.customerPhone == request.customerPhone
            && d.pickupAddress == request.pickupAddress && d.deliveryAddress == request.deliveryAddress
            && d.pickupCity == request.pickupCity && d.deliveryCity == request.deliveryCity
            && d.weight == request.weight && d.price == request.price && d.notes == request.notes
    ensures d.id.None? && d.createdAt.None? && d.updatedAt.None? && d.pickupTime.None? && d.deliveryTime.None?
  {
    Unset.(trackingNumber := Some(trackingNumber), customerName := request.customerName,
           customerPhone := request.customerPhone, pickupAddress := request.pickupAddress,
           deliveryAddress := request.deliveryAddress, pickupCity := request.pickupCity,
           deliveryCity := request.deliveryCity, weight := request.weight, price := request.price,
           status := Some(Pending), driverId := Some(""), vehicleId := Some(""), notes := request.notes)
  }

  /** `updateDeliveryStatus` request body. */
  datatype UpdateDeliveryStatusRequest = UpdateDeliveryStatusRequest(status: DeliveryStatus, notes: Option<string>)

  /** The fields `updateDeliveryStatus` sets: the new status whatever the old one, the pickup
      time on PICKED_UP only, the delivery time on DELIVERED only, and notes when given. */
  function StatusUpdated(row: Row, request: UpdateDeliveryStatusRequest, now: Timestamp): (u: Row)
    ensures u.status == Some(request.status)
    ensures u.pickupTime == if request.status == PickedUp then Some(now) else row.pickupTime
    ensures u.deliveryTime == if request.status == Delivered then Some(now) else row.deliveryTime
    ensures u.notes == if request.notes.Some? then request.notes else row.notes
    ensures u.(status := row.status, pickupTime := row.pickupTime, deliveryTime := row.deliveryTime, notes := row.notes) == row
  {
    row.(status := Some(request.status),
         pickupTime := if request.status == PickedUp then Some(now) else row.pickupTime,
         deliveryTime := if request.status == Delivered then Some(now) else row.deliveryTime,
         notes := if request.notes.Some? then request.notes else row.notes)
  }

  /** The setter calls of `updateDeliveryStatus` on the loaded entity. */
  method SetStatus(delivery: Delivery, request: UpdateDeliveryStatusRequest, now: Timestamp)
    modifies delivery
    ensures delivery.Snapshot() == StatusUpdated(old(delivery.Snapshot()), request, now)
  {
    delivery.status := Some(request.status);
    if request.status == PickedUp {
      delivery.pickupTime := Some(now);
    } else if request.status == Delivered {
      delivery.deliveryTime := Some(now);
    }
    if request.notes.Some? {
      delivery.notes := request.notes;
    }
  }

  /** The fields `assignDeliveryToDriver` sets: driver, vehicle, and status ASSIGNED whatever the
      old status. */
  function AssignedTo(row: Row, driverId: string, vehicleId: string): (u: Row)
    ensures u.driverId == Some(driverId) && u.vehicleId == Some(vehicleId) && u.status == Some(Assigned)
    ensures u.(driverId := row.driverId, vehicleId := row.vehicleId, status := row.status) == row
  {
    row.(driverId := Some(driverId), vehicleId := Some(vehicleId), status := Some(Assigned))
  }

  /** The setter calls of `assignDeliveryToDriver` on the loaded entity. */
  method Assign(delivery: Delivery, driverId: string, vehicleId: string)
    modifies delivery
    ensures delivery.Snapshot() == AssignedTo(old(delivery.Snapshot()), driverId, vehicleId)
  {
    delivery.driverId := Some(driverId);
    delivery.vehicleId := Some(vehicleId);
    delivery.status := Some(Assigned);
  }

  /** A request that passes validation, under a tracking number no row holds, is always stored. */
  lemma {:induction false} ValidRequestIsStored(rows: seq<Row>, nextId: int, request: CreateDeliveryRequest,
                                                trackingNumber: string, first: Timestamp, second: Timestamp)
    requires CreateRequest.Valid(request)
    requires forall x :: x in rows ==> x.trackingNumber != Some(trackingNumber)
    ensures Inserted(rows, nextId, NewDelivery(request, trackingNumber).(createdAt := Some(first), updatedAt := Some(second))).Success?
  {
    var pending := NewDelivery(request, trackingNumber).(createdAt := Some(first), updatedAt := Some(second));
    assert NotNullColumns(pending);
  }

  /** The table checks only nulls: any request whose eight constrained fields are set is stored
      under an unused tracking number, blank strings and amounts <= 0 included. */
  lemma {:induction false} NullFreeRequestIsStored(rows: seq<Row>, nextId: int, request: CreateDeliveryRequest,
                                                   trackingNumber: string, first: Timestamp, second: Timestamp)
    requires && request.customerName.Some? && request.customerPhone.Some?
             && request.pickupAddress.Some? && request.deliveryAddress.Some?
             && request.pickupCity.Some? && request.deliveryCity.Some?
             && request.weight.Some? && request.price.Some?
    requires forall x :: x in rows ==> x.trackingNumber != Some(trackingNumber)
    ensures Inserted(rows, nextId, NewDelivery(request, trackingNumber).(createdAt := Some(first), updatedAt := Some(second))).Success?
  {
    var pending := NewDelivery(request, trackingNumber).(createdAt := Some(first), updatedAt := Some(second));
    assert NotNullColumns(pending);
  }

  /** So a request that validation refuses, such as a blank name with a zero weight, is stored
      when the service is called directly. */
  lemma InvalidRequestIsStoredUnchecked(rows: seq<Row>, nextId: int, name: string, weight: Decimal,
                                        trackingNumber: string, first: Timestamp, second: Timestamp)
    requires IsBlank(name) || weight <= 0.0
    requires forall x :: x in rows ==> x.trackingNumber != Some(trackingNumber)
    ensures var request := CreateDeliveryRequest(Some(name), Some("+221"), Some("a"), Some("b"), Some("c"), Some("d"),
                                                 Some(weight), Some(1.0), None);
            && !CreateRequest.Valid(request)
            && Inserted(rows, nextId, NewDelivery(request, trackingNumber).(createdAt := Some(first), updatedAt := Some(second))).Success?
  {
    var request := CreateDeliveryRequest(Some(name), Some("+221"), Some("a"), Some("b"), Some("c"), Some("d"),
                                         Some(weight), Some(1.0), None);
    NullFreeRequestIsStored(rows, nextId, request, trackingNumber, first, second);
  }

  // ----- The service -----

  datatype ServiceError =
    | DeliveryNotFound(trackingNumber: string)   // DeliveryNotFoundException
    | IncorrectResultSize                         // several rows for one Optional finder
    | SaveFailed(cause: SaveError)               // DataIntegrityViolationException on insert
    | BadRequest(violations: set<Violation>)     // rejected by `@Valid` before the service runs

  class Service {
    const table: DeliveryTable
    const events: EventLog

    predicate Valid()
      reads this, table
    {
      table.Valid()
    }

    constructor (table: DeliveryTable, events: EventLog)
      requires table.Valid()
      ensures Valid() && this.table == table && this.events == events
    {
      this.table := table;
      this.events := events;
    }

    /** `publishDeliveryEvent`: builds the event and sends it; a failure is logged and
        swallowed, so the caller's outcome never depends on it. */
    method PublishDeliveryEvent(d: Row, t: EventType, broker: Broker)
      modifies events
      ensures events.sent == old(events.sent) + Published(d, t, broker)
    {
      var event := BuildEvent(d, t, broker.eventId, broker.at);
      events.Send(Topic, event, broker.accepted);
    }

    /** `createDelivery`: insert the new record (onCreate reads the clock twice), then publish
        DELIVERY_CREATED; a refused insert propagates, rolls back and publishes nothing. */
    method CreateDelivery(request: CreateDeliveryRequest, millis: nat, uuid: string,
                          first: Timestamp, second: Timestamp, broker: Broker) returns (r: Result<Dto, ServiceError>)
      requires Valid() && |uuid| >= 8
      modifies table, events
      ensures Valid()
      ensures var pending := NewDelivery(request, GenerateTrackingNumber(millis, uuid)).(createdAt := Some(first), updatedAt := Some(second));
              match Inserted(old(table.rows), old(table.nextId), pending)
              case Success(row) =>
                && table.rows == old(table.rows) + [row]
                && events.sent == old(events.sent) + Published(row, DeliveryCreated, broker)
                && r == Success(ToDto(Some(row)).value)
              case Failure(e) =>
                && table.rows == old(table.rows)
                && events.sent == old(events.sent)
                && r == Failure(SaveFailed(e))
    {
      var trackingNumber := GenerateTrackingNumber(millis, uuid);
      var delivery := new Delivery(NewDelivery(request, trackingNumber));
      var saved := table.Persist(delivery, first, second);
      match saved {
        case Failure(e) =>
          r := Failure(SaveFailed(e));
        case Success(row) =>
          PublishDeliveryEvent(row, DeliveryCreated, broker);
          r := Success(ToDto(Some(row)).value);
      }
    }

    /** The controller's `@Valid` gate in front of createDelivery: a request with violations is
        answered with them and reaches neither the table nor the topic; one without can only be
        refused for a tracking number that is already taken. */
    method PostDelivery(request: CreateDeliveryRequest, millis: nat, uuid: string,
                        first: Timestamp, second: Timestamp, broker: Broker) returns (r: Result<Dto, ServiceError>)
      requires Valid() && |uuid| >= 8
      modifies table, events
      ensures Valid()
      ensures Violations(request) != {} ==>
                (r == Failure(BadRequest(Violations(request))) && table.rows == old(table.rows) && events.sent == old(events.sent))
      ensures Violations(request) == {} ==>
                var pending := NewDelivery(request, GenerateTrackingNumber(millis, uuid)).(createdAt := Some(first), updatedAt := Some(second));
                match Inserted(old(table.rows), old(table.nextId), pending)
                case Success(row) =>
                  && table.rows == old(table.rows) + [row]
                  && events.sent == old(events.sent) + Published(row, DeliveryCreated, broker)
                  && r == Success(ToDto(Some(row)).value)
                case Failure(e) =>
                  && table.rows == old(table.rows)
                  && events.sent == old(events.sent)
                  && r == Failure(SaveFailed(e))
      ensures Violations(request) == {} && r.Failure? ==>
                (r == Failure(SaveFailed(UniqueViolation))
                 && exists x :: x in old(table.rows) && x.trackingNumber == Some(GenerateTrackingNumber(millis, uuid)))
    {
      var violations := Violations(request);
      if violations != {} {
        return Failure(BadRequest(violations));
      }
      var tn := GenerateTrackingNumber(millis, uuid);
      if forall x :: x in table.rows ==> x.trackingNumber != Some(tn) {
        ValidRequestIsStored(table.rows, table.nextId, request, tn, first, second);
      }
      r := CreateDelivery(request, millis, uuid, first, second, broker);
    }

    /** `getDeliveryByTrackingNumber`. */
    method GetDeliveryByTrackingNumber(trackingNumber: string) returns (r: Result<Dto, ServiceError>)
      requires Valid()
      ensures r.Success? <==> exists x :: x in table.rows && x.trackingNumber == Some(trackingNumber)
      ensures r.Success? ==> exists x :: x in table.rows && x.trackingNumber == Some(trackingNumber) && Some(r.value) == ToDto(Some(x))
      ensures r.Failure? ==> r.error == DeliveryNotFound(trackingNumber)
    {
      TrackingNumberFindsAtMostOne(table.rows, trackingNumber);
      var found := FindByTrackingNumber(table.rows, trackingNumber);
      if found.Unique? {
        r := Success(ToDto(Some(found.value)).value);
      } else {
        r := Failure(DeliveryNotFound(trackingNumber));
      }
    }

    /** `getAllDeliveries`: every row, in table order, as a DTO. */
    method GetAllDeliveries() returns (r: seq<Dto>)
      ensures |r| == |table.rows|
      ensures forall i :: 0 <= i < |r| ==> Some(r[i]) == ToDto(Some(table.rows[i]))
    {
      var list := ToDtoList(Some(table.rows));
      r := list.value;
    }

    /** `getDeliveriesByStatus`: the DTOs of exactly the rows with that status, in table order. */
    method GetDeliveriesByStatus(status: DeliveryStatus) returns (r: seq<Dto>)
      ensures var selected := FindByStatus(table.rows, status);
              |r| == |selected| && forall i :: 0 <= i < |r| ==> Some(r[i]) == ToDto(Some(selected[i]))
      ensures forall d :: d in r ==> d.status == Some(status)
    {
      var selected := FindByStatus(table.rows, status);
      var list := ToDtoList(Some(selected));
      r := list.value;
      forall d | d in r ensures d.status == Some(status) {
        var i :| 0 <= i < |r| && r[i] == d;
        assert selected[i] in selected;
      }
    }

    /** `getDeliveriesByDriver`: the DTOs of exactly the rows of that driver, in table order. */
    method GetDeliveriesByDriver(driverId: string) returns (r: seq<Dto>)
      ensures var selected := FindByDriverId(table.rows, driverId);
              |r| == |selected| && forall i :: 0 <= i < |r| ==> Some(r[i]) == ToDto(Some(selected[i]))
      ensures forall d :: d in r ==> d.driverId == Some(driverId)
    {
      var selected := FindByDriverId(table.rows, driverId);
      var list := ToDtoList(Some(selected));
      r := list.value;
      forall d | d in r ensures d.driverId == Some(driverId) {
        var i :| 0 <= i < |r| && r[i] == d;
        assert selected[i] in selected;
      }
    }

    /** What both updates do once the loaded entity's fields are set: publish the event built
        from it, map it, and commit the transaction. */
    method PublishAndCommit(loaded: Row, delivery: Delivery, t: EventType, broker: Broker, commitAt: Timestamp) returns (dto: Dto)
      requires Valid() && loaded in table.rows
      requires delivery.id == loaded.id && delivery.trackingNumber == loaded.trackingNumber
      requires NotNullColumns(delivery.Snapshot())
      modifies table, events, delivery
      ensures Valid()
      ensures dto == ToDto(Some(old(delivery.Snapshot()))).value
      ensures events.sent == old(events.sent) + Published(old(delivery.Snapshot()), t, broker)
      ensures table.rows == if old(delivery.Snapshot()) == loaded then old(table.rows)
                            else Replace(old(table.rows), Committed(loaded, old(delivery.Snapshot()), commitAt))
    {
      var updated := delivery.Snapshot();
      PublishDeliveryEvent(updated, t, broker);
      dto := ToDto(Some(updated)).value;
      table.Flush(loaded, delivery, commitAt);
    }

    /** `updateDeliveryStatus`: load the record, set its fields through the setters, "save" it
        (a managed entity is only handed back), publish DELIVERY_STATUS_UPDATED and map it, then
        commit, which writes the row (with onUpdate) only if a field changed. The DTO and the
        event therefore carry the updatedAt from before the commit. */
    method UpdateDeliveryStatus(trackingNumber: string, request: UpdateDeliveryStatusRequest,
                                now: Timestamp, broker: Broker, commitAt: Timestamp) returns (r: Result<Dto, ServiceError>)
      requires Valid()
      modifies table, events
      ensures Valid()
      ensures match FindByTrackingNumber(old(table.rows), trackingNumber)
              case Unique(row) =>
                var u := StatusUpdated(row, request, now);
                && r == Success(ToDto(Some(u)).value)
                && events.sent == old(events.sent) + Published(u, DeliveryStatusUpdated, broker)
                && table.rows == (if u == row then old(table.rows) else Replace(old(table.rows), Committed(row, u, commitAt)))
              case Absent =>
                r == Failure(DeliveryNotFound(trackingNumber)) && table.rows == old(table.rows) && events.sent == old(events.sent)
              case NonUnique =>
                r == Failure(IncorrectResultSize) && table.rows == old(table.rows) && events.sent == old(events.sent)
    {
      var found := FindByTrackingNumber(table.rows, trackingNumber);
      match found {
        case Absent =>
          r := Failure(DeliveryNotFound(trackingNumber));
        case NonUnique =>
          r := Failure(IncorrectResultSize);
        case Unique(row) =>
          var delivery := new Delivery(row);
          SetStatus(delivery, request, now);
          StoredInTable(table.rows, table.nextId, row);
          var dto := PublishAndCommit(row, delivery, DeliveryStatusUpdated, broker, commitAt);
          r := Success(dto);
      }
    }

    /** `assignDeliveryToDriver`: as updateDeliveryStatus, setting driver, vehicle and status
        ASSIGNED, and publishing DELIVERY_ASSIGNED. */
    method AssignDeliveryToDriver(trackingNumber: string, driverId: string, vehicleId: string,
                                  broker: Broker, commitAt: Timestamp) returns (r: Result<Dto, ServiceError>)
      requires Valid()
      modifies table, events
      ensures Valid()
      ensures match FindByTrackingNumber(old(table.rows), trackingNumber)
              case Unique(row) =>
                var u := AssignedTo(row, driverId, vehicleId);
                && r == Success(ToDto(Some(u)).value)
                && events.sent == old(events.sent) + Published(u, DeliveryAssigned, broker)
                && table.rows == (if u == row then old(table.rows) else Replace(old(table.rows), Committed(row, u, commitAt)))
              case Absent =>
                r == Failure(DeliveryNotFound(trackingNumber)) && table.rows == old(table.rows) && events.sent == old(events.sent)
              case NonUnique =>
                r == Failure(IncorrectResultSize) && table.rows == old(table.rows) && events.sent == old(events.sent)
    {
      var found := FindByTrackingNumber(table.rows, trackingNumber);
      match found {
        case Absent =>
          r := Failure(DeliveryNotFound(trackingNumber));
        case NonUnique =>
          r := Failure(IncorrectResultSize);
        case Unique(row) =>
          var delivery := new Delivery(row);
          Assign(delivery, driverId, vehicleId);
          StoredInTable(table.rows, table.nextId, row);
          var dto := PublishAndCommit(row, delivery, DeliveryAssigned, broker, commitAt);
          r := Success(dto);
      }
    }
  }

  /** A row of a valid table is stored whole. */
  lemma StoredInTable(rows: seq<Row>, nextId: int, row: Row)
    requires forall k :: 0 <= k < |rows| ==> Stored(rows[k]) && rows[k].id.value < nextId
    requires row in rows
    ensures Stored(row)
  {
    var k :| 0 <= k < |rows| && rows[k] == row;
  }
}
