/** The MapStruct mapper generated in DeliveryMapperImpl.java: entity-to-DTO and DTO-to-entity
    copies, and the two list maps that loop over their input. Java's null is None. */
module DeliveryMapper {
  import opened Wrappers
  import opened DeliveryEntity

  /** `DeliveryDto`: the same eighteen properties as the entity. */
  datatype Dto = Dto(
    id: Option<int>,
    trackingNumber: Option<string>,
    customerName: Option<string>,
    customerPhone: Option<string>,
    pickupAddress: Option<string>,
    deliveryAddress: Option<string>,
    pickupCity: Option<string>,
    deliveryCity: Option<string>,
    weight: Option<Decimal>,
    price: Option<Decimal>,
    status: Option<DeliveryStatus>,
    driverId: Option<string>,
    vehicleId: Option<string>,
    createdAt: Option<Timestamp>,
    updatedAt: Option<Timestamp>,
    pickupTime: Option<Timestamp>,
    deliveryTime: Option<Timestamp>,
    notes: Option<string>)

  /** The nine customer, address, city, weight, price and notes properties agree. */
  predicate SameOrderData(d: Dto, e: Row) {
    && d.customerName == e.customerName && d.customerPhone == e.customerPhone
    && d.pickupAddress == e.pickupAddress && d.deliveryAddress == e.deliveryAddress
    && d.pickupCity == e.pickupCity && d.deliveryCity == e.deliveryCity
    && d.weight == e.weight && d.price == e.price && d.notes == e.notes
  }

  /** The properties the server assigns agree: id, tracking number, status, assignment, stamps. */
  predicate SameServerData(d: Dto, e: Row) {
    && d.id == e.id && d.trackingNumber == e.trackingNumber && d.status == e.status
    && d.driverId == e.driverId && d.vehicleId == e.vehicleId
    && d.createdAt == e.createdAt && d.updatedAt == e.updatedAt
    && d.pickupTime == e.pickupTime && d.deliveryTime == e.deliveryTime
  }

  /** `toDto`: null to null, otherwise all eighteen fields copied unchanged. */
  function ToDto(delivery: Option<Row>): (r: Option<Dto>)
    ensures r.None? <==> delivery.None?
    ensures delivery.Some? ==> SameOrderData(r.value, delivery.value) && SameServerData(r.value, delivery.value)
  {
    match delivery
    case None => None
    case Some(e) =>
      Some(Dto(e.id, e.trackingNumber, e.customerName, e.customerPhone, e.pickupAddress,
               e.deliveryAddress, e.pickupCity, e.deliveryCity, e.weight, e.price, e.status,
               e.driverId, e.vehicleId, e.createdAt, e.updatedAt, e.pickupTime, e.deliveryTime, e.notes))
  }

  /** `toEntity`: null to null, otherwise the nine order fields copied, status PENDING whatever
      the DTO says, and id, tracking number, assignment and the four stamps left unset. */
  function ToEntity(dto: Option<Dto>): (r: Option<Row>)
    ensures r.None? <==> dto.None?
    ensures dto.Some? ==> SameOrderData(dto.value, r.value)
    ensures dto.Some? ==> r.value.status == Some(Pending)
    ensures dto.Some? ==> && r.value.id.None? && r.value.trackingNumber.None?
                          && r.value.driverId.None? && r.value.vehicleId.None?
                          && r.value.createdAt.None? && r.value.updatedAt.None?
                          && r.value.pickupTime.None? && r.value.deliveryTime.None?
  {
    match dto
    case None => None
    case Some(d) =>
      Some(Unset.(customerName := d.customerName, customerPhone := d.customerPhone,
                  deliveryAddress := d.deliveryAddress, deliveryCity := d.deliveryCity,
                  notes := d.notes, pickupAddress := d.pickupAddress, pickupCity := d.pickupCity,
                  price := d.price, weight := d.weight, status := Some(Pending)))
  }

  /** toDto loses nothing: two entities with the same DTO are the same entity. */
  lemma ToDtoIsInjective(a: Option<Row>, b: Option<Row>)
    requires ToDto(a) == ToDto(b)
    ensures a == b
  {
    if a.Some? && b.Some? {
      assert SameOrderData(ToDto(a).value, b.value) && SameServerData(ToDto(a).value, b.value);
    }
  }

  /** DTO to entity and back keeps the nine order fields and yields a fresh PENDING delivery
      with no server data. */
  lemma {:induction false} DtoRoundTrip(d: Dto)
    ensures var back := ToDto(ToEntity(Some(d))).value;
            SameOrderData(back, ToEntity(Some(d)).value)
            && back.customerName == d.customerName && back.customerPhone == d.customerPhone
            && back.pickupAddress == d.pickupAddress && back.deliveryAddress == d.deliveryAddress
            && back.pickupCity == d.pickupCity && back.deliveryCity == d.deliveryCity
            && back.weight == d.weight && back.price == d.price && back.notes == d.notes
            && back.status == Some(Pending) && back.id.None? && back.trackingNumber.None?
  {
    var e := ToEntity(Some(d)).value;
    assert SameOrderData(d, e);
    assert SameOrderData(ToDto(Some(e)).value, e);
  }

  /** Entity to DTO and back keeps exactly the order data of the entity. */
  lemma {:induction false} EntityRoundTrip(e: Row)
    ensures var back := ToEntity(ToDto(Some(e))).value;
            SameOrderData(ToDto(Some(e)).value, back) && back.status == Some(Pending)
            && back == Unset.(customerName := e.customerName, customerPhone := e.customerPhone,
                              pickupAddress := e.pickupAddress, deliveryAddress := e.deliveryAddress,
                              pickupCity := e.pickupCity, deliveryCity := e.deliveryCity,
                              weight := e.weight, price := e.price, notes := e.notes,
                              status := Some(Pending))
  {
    var d := ToDto(Some(e)).value;
    assert SameOrderData(d, e);
  }

  /** `toDtoList`: null to null, otherwise a new list with toDto of each element in order. */
  method ToDtoList(deliveries: Option<seq<Row>>) returns (r: Option<seq<Dto>>)
    ensures r.None? <==> deliveries.None?
    ensures deliveries.Some? ==> |r.value| == |deliveries.value|
    ensures deliveries.Some? ==> forall i :: 0 <= i < |deliveries.value| ==> Some(r.value[i]) == ToDto(Some(deliveries.value[i]))
  {
    if deliveries.None? {
      return None;
    }
    var xs := deliveries.value;
    var list: seq<Dto> := [];
    for i := 0 to |xs|
      invariant |list| == i
      invariant forall k :: 0 <= k < i ==> Some(list[k]) == ToDto(Some(xs[k]))
    {
      list := list + [ToDto(Some(xs[i])).value];
    }
    return Some(list);
  }

  /** `toEntityList`: null to null, otherwise a new list with toEntity of each element in order. */
  method ToEntityList(deliveryDtos: Option<seq<Dto>>) returns (r: Option<seq<Row>>)
    ensures r.None? <==> deliveryDtos.None?
    ensures deliveryDtos.Some? ==> |r.value| == |deliveryDtos.value|
    ensures deliveryDtos.Some? ==> forall i :: 0 <= i < |deliveryDtos.value| ==> Some(r.value[i]) == ToEntity(Some(deliveryDtos.value[i]))
  {
    if deliveryDtos.None? {
      return None;
    }
    var xs := deliveryDtos.value;
    var list: seq<Row> := [];
    for i := 0 to |xs|
      invariant |list| == i
      invariant forall k :: 0 <= k < i ==> Some(list[k]) == ToEntity(Some(xs[k]))
    {
      list := list + [ToEntity(Some(xs[i])).value];
    }
    return Some(list);
  }
}
