/** The `EventType` enum of EventType.java (constant to wire string), and the switch on that
    string in KafkaConsumerService's delivery-event listener. */
module EventType {
  import opened Wrappers
  import opened Text

  datatype EventType =
    | DeliveryCreated | DeliveryAssigned | DeliveryStatusUpdated | DeliveryPickedUp
    | DeliveryInTransit | DeliveryOutForDelivery | DeliveryDelivered | DeliveryFailed
    | DeliveryCancelled | DriverLocationUpdated | VehicleStatusUpdated

  /** The constant's Java name. */
  function Name(t: EventType): string {
    match t
    case DeliveryCreated => "DELIVERY_CREATED"
    case DeliveryAssigned => "DELIVERY_ASSIGNED"
    case DeliveryStatusUpdated => "DELIVERY_STATUS_UPDATED"
    case DeliveryPickedUp => "DELIVERY_PICKED_UP"
    case DeliveryInTransit => "DELIVERY_IN_TRANSIT"
    case DeliveryOutForDelivery => "DELIVERY_OUT_FOR_DELIVERY"
    case DeliveryDelivered => "DELIVERY_DELIVERED"
    case DeliveryFailed => "DELIVERY_FAILED"
    case DeliveryCancelled => "DELIVERY_CANCELLED"
    case DriverLocationUpdated => "DRIVER_LOCATION_UPDATED"
    case VehicleStatusUpdated => "VEHICLE_STATUS_UPDATED"
  }

  /** `getValue`: the string each constant was constructed with. */
  function Value(t: EventType): (v: string)
    ensures |v| == |Name(t)|
  {
    match t
    case DeliveryCreated => "delivery-created"
    case DeliveryAssigned => "delivery-assigned"
    case DeliveryStatusUpdated => "delivery-status-updated"
    case DeliveryPickedUp => "delivery-picked-up"
    case DeliveryInTransit => "delivery-in-transit"
    case DeliveryOutForDelivery => "delivery-out-for-delivery"
    case DeliveryDelivered => "delivery-delivered"
    case DeliveryFailed => "delivery-failed"
    case DeliveryCancelled => "delivery-cancelled"
    case DriverLocationUpdated => "driver-location-updated"
    case VehicleStatusUpdated => "vehicle-status-updated"
  }

  /** Lower-case, with each `_` turned into `-`. */
  function Kebab(s: string): (k: string)
    ensures |k| == |s|
    ensures forall i :: 0 <= i < |s| ==> k[i] == (if s[i] == '_' then '-' else LowerChar(s[i]))
  {
    seq(|s|, i requires 0 <= i < |s| => if s[i] == '_' then '-' else LowerChar(s[i]))
  }

  /** Every value is its constant's name in kebab case. */
  lemma {:induction false} ValueIsKebabName(t: EventType)
    ensures Value(t) == Kebab(Name(t))
  {
    // One lemma per constant keeps each obligation small.
    match t
    case DeliveryCreated => KebabDeliveryCreated();
    case DeliveryAssigned => KebabDeliveryAssigned();
    case DeliveryStatusUpdated => KebabDeliveryStatusUpdated();
    case DeliveryPickedUp => KebabDeliveryPickedUp();
    case DeliveryInTransit => KebabDeliveryInTransit();
    case DeliveryOutForDelivery => KebabDeliveryOutForDelivery();
    case DeliveryDelivered => KebabDeliveryDelivered();
    case DeliveryFailed => KebabDeliveryFailed();
    case DeliveryCancelled => KebabDeliveryCancelled();
    case DriverLocationUpdated => KebabDriverLocationUpdated();
    case VehicleStatusUpdated => KebabVehicleStatusUpdated();
  }

  lemma KebabDeliveryCreated()
    ensures Value(DeliveryCreated) == Kebab(Name(DeliveryCreated))
  {
    KebabOf("DELIVERY_CREATED", "delivery-created");
  }

  lemma KebabDeliveryAssigned()
    ensures Value(DeliveryAssigned) == Kebab(Name(DeliveryAssigned))
  {
    KebabOf("DELIVERY_ASSIGNED", "delivery-assigned");
  }

  lemma KebabDeliveryStatusUpdated()
    ensures Value(DeliveryStatusUpdated) == Kebab(Name(DeliveryStatusUpdated))
  {
    KebabOf("DELIVERY_STATUS_UPDATED", "delivery-status-updated");
  }

  lemma KebabDeliveryPickedUp()
    ensures Value(DeliveryPickedUp) == Kebab(Name(DeliveryPickedUp))
  {
    KebabOf("DELIVERY_PICKED_UP", "delivery-picked-up");
  }

  lemma KebabDeliveryInTransit()
    ensures Value(DeliveryInTransit) == Kebab(Name(DeliveryInTransit))
  {
    KebabOf("DELIVERY_IN_TRANSIT", "delivery-in-transit");
  }

  lemma KebabDeliveryOutForDelivery()
    ensures Value(DeliveryOutForDelivery) == Kebab(Name(DeliveryOutForDelivery))
  {
    KebabOf("DELIVERY_OUT_FOR_DELIVERY", "delivery-out-for-delivery");
  }

  lemma KebabDeliveryDelivered()
    ensures Value(DeliveryDelivered) == Kebab(Name(DeliveryDelivered))
  {
    KebabOf("DELIVERY_DELIVERED", "delivery-delivered");
  }

  lemma KebabDeliveryFailed()
    ensures Value(DeliveryFailed) == Kebab(Name(DeliveryFailed))
  {
    KebabOf("DELIVERY_FAILED", "delivery-failed");
  }

  lemma KebabDeliveryCancelled()
    ensures Value(DeliveryCancelled) == Kebab(Name(DeliveryCancelled))
  {
    KebabOf("DELIVERY_CANCELLED", "delivery-cancelled");
  }

  lemma KebabDriverLocationUpdated()
    ensures Value(DriverLocationUpdated) == Kebab(Name(DriverLocationUpdated))
  {
    KebabOf("DRIVER_LOCATION_UPDATED", "driver-location-updated");
  }

  lemma KebabVehicleStatusUpdated()
    ensures Value(VehicleStatusUpdated) == Kebab(Name(VehicleStatusUpdated))
  {
    KebabOf("VEHICLE_STATUS_UPDATED", "vehicle-status-updated");
  }

  /** A name of upper-case letters and `_`, and a value agreeing with it position by position
      once lower-cased and with `-` for `_`, are related by Kebab. */
  lemma {:induction false} KebabOf(name: string, value: string)
    requires |name| == |value|
    requires forall i :: 0 <= i < |name| ==> (name[i] == '_' && value[i] == '-') || (IsUpperAscii(name[i]) && value[i] as int == name[i] as int + 32)
    ensures Kebab(name) == value
  {
  }

  /** The constant a wire string names, if any (the inverse of getValue). */
  function FromValue(s: string): (r: Option<EventType>)
    ensures r.Some? ==> Value(r.value) == s
  {
    if s == "delivery-created" then Some(DeliveryCreated)
    else if s == "delivery-assigned" then Some(DeliveryAssigned)
    else if s == "delivery-status-updated" then Some(DeliveryStatusUpdated)
    else if s == "delivery-picked-up" then Some(DeliveryPickedUp)
    else if s == "delivery-in-transit" then Some(DeliveryInTransit)
    else if s == "delivery-out-for-delivery" then Some(DeliveryOutForDelivery)
    else if s == "delivery-delivered" then Some(DeliveryDelivered)
    else if s == "delivery-failed" then Some(DeliveryFailed)
    else if s == "delivery-cancelled" then Some(DeliveryCancelled)
    else if s == "driver-location-updated" then Some(DriverLocationUpdated)
    else if s == "vehicle-status-updated" then Some(VehicleStatusUpdated)
    else None
  }

  /** Reading back a constant's value gives the constant. */
  lemma {:induction false} FromValueInvertsValue(t: EventType)
    ensures FromValue(Value(t)) == Some(t)
  {
    // One lemma per constant keeps each obligation small.
    match t
    case DeliveryCreated => ReadBackDeliveryCreated();
    case DeliveryAssigned => ReadBackDeliveryAssigned();
    case DeliveryStatusUpdated => ReadBackDeliveryStatusUpdated();
    case DeliveryPickedUp => ReadBackDeliveryPickedUp();
    case DeliveryInTransit => ReadBackDeliveryInTransit();
    case DeliveryOutForDelivery => ReadBackDeliveryOutForDelivery();
    case DeliveryDelivered => ReadBackDeliveryDelivered();
    case DeliveryFailed => ReadBackDeliveryFailed();
    case DeliveryCancelled => ReadBackDeliveryCancelled();
    case DriverLocationUpdated => ReadBackDriverLocationUpdated();
    case VehicleStatusUpdated => ReadBackVehicleStatusUpdated();
  }

  lemma ReadBackDeliveryCreated()
    ensures FromValue(Value(DeliveryCreated)) == Some(DeliveryCreated)
  {
  }

  lemma ReadBackDeliveryAssigned()
    ensures FromValue(Value(DeliveryAssigned)) == Some(DeliveryAssigned)
  {
    // The values before it in FromValue differ from it in length or at position 9.
    assert Value(DeliveryAssigned)[9] == 'a';
  }

  lemma ReadBackDeliveryStatusUpdated()
    ensures FromValue(Value(DeliveryStatusUpdated)) == Some(DeliveryStatusUpdated)
  {
    // The values before it in FromValue differ from it in length or at position 9.
    assert Value(DeliveryStatusUpdated)[9] == 's';
  }

  lemma ReadBackDeliveryPickedUp()
    ensures FromValue(Value(DeliveryPickedUp)) == Some(DeliveryPickedUp)
  {
    // The values before it in FromValue differ from it in length or at position 9.
    assert Value(DeliveryPickedUp)[9] == 'p';
  }

  lemma ReadBackDeliveryInTransit()
    ensures FromValue(Value(DeliveryInTransit)) == Some(DeliveryInTransit)
  {
    // The values before it in FromValue differ from it in length or at position 10.
    assert Value(DeliveryInTransit)[10] == 'n';
  }

  lemma ReadBackDeliveryOutForDelivery()
    ensures FromValue(Value(DeliveryOutForDelivery)) == Some(DeliveryOutForDelivery)
  {
    // The values before it in FromValue differ from it in length or at position 9.
    assert Value(DeliveryOutForDelivery)[9] == 'o';
  }

  lemma ReadBackDeliveryDelivered()
    ensures FromValue(Value(DeliveryDelivered)) == Some(DeliveryDelivered)
  {
    // The values before it in FromValue differ from it in length or at position 9.
    assert Value(DeliveryDelivered)[9] == 'd';
  }

  lemma ReadBackDeliveryFailed()
    ensures FromValue(Value(DeliveryFailed)) == Some(DeliveryFailed)
  {
    // The values before it in FromValue differ from it in length or at position 9.
    assert Value(DeliveryFailed)[9] == 'f';
  }

  lemma ReadBackDeliveryCancelled()
    ensures FromValue(Value(DeliveryCancelled)) == Some(DeliveryCancelled)
  {
    // The values before it in FromValue differ from it in length or at position 9.
    assert Value(DeliveryCancelled)[9] == 'c';
  }

  lemma ReadBackDriverLocationUpdated()
    ensures FromValue(Value(DriverLocationUpdated)) == Some(DriverLocationUpdated)
  {
    // The values before it in FromValue differ from it in length or at position 1.
    assert Value(DriverLocationUpdated)[1] == 'r';
  }

  lemma ReadBackVehicleStatusUpdated()
    ensures FromValue(Value(VehicleStatusUpdated)) == Some(VehicleStatusUpdated)
  {
    // The values before it in FromValue differ from it in length or at position 0.
    assert Value(VehicleStatusUpdated)[0] == 'v';
  }

  /** getValue is injective: different constants put different strings on the wire. */
  lemma ValueIsInjective(a: EventType, b: EventType)
    requires Value(a) == Value(b)
    ensures a == b
  {
    FromValueInvertsValue(a);
    FromValueInvertsValue(b);
  }

  /** The branches of the delivery-event listener's switch. */
  datatype Handler = HandleCreated | HandleStatusUpdated | HandleDelivered | NotHandled

  function Dispatch(eventType: string): (h: Handler)
    ensures h == HandleCreated <==> eventType == Value(DeliveryCreated)
    ensures h == HandleStatusUpdated <==> eventType == Value(DeliveryStatusUpdated)
    ensures h == HandleDelivered <==> eventType == Value(DeliveryDelivered)
  {
    match eventType
    case "delivery-created" => HandleCreated
    case "delivery-status-updated" => HandleStatusUpdated
    case "delivery-delivered" => HandleDelivered
    case _ => NotHandled
  }

  /** Of the constants, only CREATED, STATUS_UPDATED and DELIVERED have a handler; the ASSIGNED
      events the service publishes fall to the default branch. */
  lemma {:induction false} OnlyThreeEventsHandled(t: EventType)
    ensures Dispatch(Value(t)) != NotHandled <==> t in {DeliveryCreated, DeliveryStatusUpdated, DeliveryDelivered}
    ensures Dispatch(Value(DeliveryAssigned)) == NotHandled
  {
    FromValueInvertsValue(t);
    if Value(t) == Value(DeliveryCreated) { ValueIsInjective(t, DeliveryCreated); }
    if Value(t) == Value(DeliveryStatusUpdated) { ValueIsInjective(t, DeliveryStatusUpdated); }
    if Value(t) == Value(DeliveryDelivered) { ValueIsInjective(t, DeliveryDelivered); }
    FromValueInvertsValue(DeliveryAssigned);
  }
}
