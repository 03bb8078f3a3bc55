/** The Bean Validation constraints of CreateDeliveryRequest.java, as the set of violations a
    request produces; the controller validates with `@Valid` before the service sees it. */
module CreateRequest {
  import opened Wrappers
  import opened Text
  import opened DeliveryEntity

  datatype CreateDeliveryRequest = CreateDeliveryRequest(
    customerName: Option<string>,
    customerPhone: Option<string>,
    pickupAddress: Option<string>,
    deliveryAddress: Option<string>,
    pickupCity: Option<string>,
    deliveryCity: Option<string>,
    weight: Option<Decimal>,
    price: Option<Decimal>,
    notes: Option<string>)

  /** The validated properties, as the property paths a violation reports. */
  datatype Property =
    CustomerName | CustomerPhone | PickupAddress | DeliveryAddress | PickupCity | DeliveryCity | Weight | Price

  /** One constraint violation: the property and the constraint's message. */
  datatype Violation = Violation(property: Property, message: string)

  /** `@NotBlank`: not null, and not empty after trimming. */
  predicate NotBlank(s: Option<string>) {
    s.Some? && !IsBlank(s.value)
  }

  /** `@NotBlank` on one property: its violation, if any. */
  function BlankCheck(s: Option<string>, property: Property, message: string): (v: set<Violation>)
    ensures v == {} <==> NotBlank(s)
    ensures v != {} ==> v == {Violation(property, message)}
    ensures forall x :: x in v ==> x.property == property
  {
    if NotBlank(s) then {} else {Violation(property, message)}
  }

  /** `@NotNull @Positive` on one number: null breaks only `@NotNull` (`@Positive` accepts
      null), a value <= 0 breaks only `@Positive`. */
  function AmountCheck(x: Option<Decimal>, property: Property, required: string, positive: string): (v: set<Violation>)
    requires required != positive
    ensures v == {} <==> x.Some? && x.value > 0.0
    ensures x.None? ==> v == {Violation(property, required)}
    ensures x.Some? && x.value <= 0.0 ==> v == {Violation(property, positive)}
    ensures forall y :: y in v ==> y.property == property
    ensures Violation(property, required) in v <==> x.None?
  {
    if x.None? then {Violation(property, required)}
    else if x.value <= 0.0 then {Violation(property, positive)}
    else {}
  }

  /** All violations of a request; `notes` carries no constraint. */
  function Violations(r: CreateDeliveryRequest): (v: set<Violation>)
    ensures v == {} <==> Valid(r)
    ensures Violation(Weight, "Le poids est requis") in v <==> r.weight.None?
    ensures Violation(Price, "Le prix est requis") in v <==> r.price.None?
  {
    TextViolations(r) + AmountViolations(r)
  }

  /** The six `@NotBlank` properties. */
  function TextViolations(r: CreateDeliveryRequest): (v: set<Violation>)
    ensures v == {} <==> (NotBlank(r.customerName) && NotBlank(r.customerPhone) && NotBlank(r.pickupAddress)
                          && NotBlank(r.deliveryAddress) && NotBlank(r.pickupCity) && NotBlank(r.deliveryCity))
    ensures forall x :: x in v ==> x.property != Weight && x.property != Price
  {
    BlankCheck(r.customerName, CustomerName, "Le nom du client est requis")
    + BlankCheck(r.customerPhone, CustomerPhone, "Le téléphone du client est requis")
    + BlankCheck(r.pickupAddress, PickupAddress, "L'adresse de ramassage est requise")
    + BlankCheck(r.deliveryAddress, DeliveryAddress, "L'adresse de livraison est requise")
    + BlankCheck(r.pickupCity, PickupCity, "La ville de ramassage est requise")
    + BlankCheck(r.deliveryCity, DeliveryCity, "La ville de livraison est requise")
  }

  /** The two `@NotNull @Positive` amounts. */
  function AmountViolations(r: CreateDeliveryRequest): (v: set<Violation>)
    ensures v == {} <==> (r.weight.Some? && r.weight.value > 0.0 && r.price.Some? && r.price.value > 0.0)
    ensures Violation(Weight, "Le poids est requis") in v <==> r.weight.None?
    ensures Violation(Price, "Le prix est requis") in v <==> r.price.None?
  {
    assert |"Le poids est requis"| != |"Le poids doit être positif"|;
    assert |"Le prix est requis"| != |"Le prix doit être positif"|;
    AmountCheck(r.weight, Weight, "Le poids est requis", "Le poids doit être positif")
    + AmountCheck(r.price, Price, "Le prix est requis", "Le prix doit être positif")
  }

  /** The request passes validation: six non-blank strings, two positive amounts, any notes. */
  predicate Valid(r: CreateDeliveryRequest) {
    && NotBlank(r.customerName) && NotBlank(r.customerPhone)
    && NotBlank(r.pickupAddress) && NotBlank(r.deliveryAddress)
    && NotBlank(r.pickupCity) && NotBlank(r.deliveryCity)
    && r.weight.Some? && r.weight.value > 0.0
    && r.price.Some? && r.price.value > 0.0
  }

  /** Notes may be anything, null included: they never change the verdict. */
  lemma NotesAreUnconstrained(r: CreateDeliveryRequest, notes: Option<string>)
    ensures Violations(r.(notes := notes)) == Violations(r)
  {
  }
}
