/** `OrderItemDto`: one line of an order. `productId` must be a UUID string and not empty;
    `quantity` and `price` must be numbers greater than zero (fractions allowed). Every failed
    constraint is reported, not only the first. */
module OrderItemDto {
  import opened Wrappers
  import opened Json
  import opened Uuid

  /** One failed class-validator constraint, named by field and decorator. */
  datatype Violation =
    | ProductIdIsUuid
    | ProductIdIsNotEmpty
    | QuantityIsNumber
    | QuantityIsPositive
    | PriceIsNumber
    | PriceIsPositive

  /** The item as it arrives in the body; a missing field is `None`. */
  datatype RawItem = RawItem(productId: Option<Json>, quantity: Option<Json>, price: Option<Json>)

  /** A validated item. */
  datatype OrderItem = OrderItem(productId: string, quantity: real, price: real)

  /** `@IsUUID()`: a string in UUID form. */
  predicate UuidField(v: Option<Json>) {
    v.Some? && v.value.JStr? && IsUuid(v.value.s)
  }

  /** `@IsNotEmpty()`: anything but `undefined`, `null` and `""`. */
  predicate NotEmptyField(v: Option<Json>) {
    v.Some? && v.value != JNull && v.value != JStr("")
  }

  /** `@IsNumber()`: a finite number. */
  predicate NumberField(v: Option<Json>) {
    v.Some? && v.value.JNum?
  }

  /** `@IsPositive()`: a number greater than zero. */
  predicate PositiveField(v: Option<Json>) {
    v.Some? && v.value.JNum? && v.value.n > 0.0
  }

  /** Every constraint the item fails. */
  function Violations(item: RawItem): set<Violation> {
    (if UuidField(item.productId) then {} else {ProductIdIsUuid})
    + (if NotEmptyField(item.productId) then {} else {ProductIdIsNotEmpty})
    + (if NumberField(item.quantity) then {} else {QuantityIsNumber})
    + (if PositiveField(item.quantity) then {} else {QuantityIsPositive})
    + (if NumberField(item.price) then {} else {PriceIsNumber})
    + (if PositiveField(item.price) then {} else {PriceIsPositive})
  }

  /** Validation of one item: the typed item when no constraint fails, else all the violations. */
  function Validate(item: RawItem): (r: Result<OrderItem, set<Violation>>)
    ensures r.Ok? <==>
      && item.productId.Some? && item.productId.value.JStr? && IsUuid(item.productId.value.s)
      && item.quantity.Some? && item.quantity.value.JNum? && item.quantity.value.n > 0.0
      && item.price.Some? && item.price.value.JNum? && item.price.value.n > 0.0
    ensures r.Ok? ==>
      && item.productId == Some(JStr(r.value.productId))
      && item.quantity == Some(JNum(r.value.quantity))
      && item.price == Some(JNum(r.value.price))
    ensures r.Err? ==> r.error != {} && r.error == Violations(item)
  {
    var vs := Violations(item);
    if vs == {} then
      Ok(OrderItem(item.productId.value.s, item.quantity.value.n, item.price.value.n))
    else
      // A UUID is never empty, so `@IsNotEmpty()` cannot be the only violation.
      if UuidField(item.productId) then UuidIsNotEmpty(item.productId.value.s); Err(vs)
      else Err(vs)
  }

  /** Each constraint is reported exactly when it fails. */
  lemma ViolationsAreTheFailedConstraints(item: RawItem)
    ensures ProductIdIsUuid in Violations(item) <==> !UuidField(item.productId)
    ensures ProductIdIsNotEmpty in Violations(item) <==> !NotEmptyField(item.productId)
    ensures QuantityIsNumber in Violations(item) <==> !NumberField(item.quantity)
    ensures QuantityIsPositive in Violations(item) <==> !PositiveField(item.quantity)
    ensures PriceIsNumber in Violations(item) <==> !NumberField(item.price)
    ensures PriceIsPositive in Violations(item) <==> !PositiveField(item.price)
  {
  }

  /** Every field is checked on its own: the violations reported for a field depend on that field
      alone, so one failing field never hides another's violations. */
  lemma ViolationsArePerField(a: RawItem, b: RawItem)
    ensures a.productId == b.productId ==>
      (ProductIdIsUuid in Violations(a) <==> ProductIdIsUuid in Violations(b))
      && (ProductIdIsNotEmpty in Violations(a) <==> ProductIdIsNotEmpty in Violations(b))
    ensures a.quantity == b.quantity ==>
      (QuantityIsNumber in Violations(a) <==> QuantityIsNumber in Violations(b))
      && (QuantityIsPositive in Violations(a) <==> QuantityIsPositive in Violations(b))
    ensures a.price == b.price ==>
      (PriceIsNumber in Violations(a) <==> PriceIsNumber in Violations(b))
      && (PriceIsPositive in Violations(a) <==> PriceIsPositive in Violations(b))
  {
  }

  /** Fractional quantities pass: nothing asks for an integer. */
  lemma FractionalQuantityIsAccepted(id: string)
    requires IsUuid(id)
    ensures Validate(RawItem(Some(JStr(id)), Some(JNum(0.5)), Some(JNum(1.0)))).Ok?
  {
  }

  /** A zero or negative quantity is a number but not positive; a quoted number is neither. */
  lemma NonPositiveQuantityIsRejected(id: string, q: real)
    requires IsUuid(id) && q <= 0.0
    ensures Validate(RawItem(Some(JStr(id)), Some(JNum(q)), Some(JNum(1.0)))).Err?
    ensures Violations(RawItem(Some(JStr(id)), Some(JNum(q)), Some(JNum(1.0)))) == {QuantityIsPositive}
    ensures Violations(RawItem(Some(JStr(id)), Some(JStr("5")), Some(JNum(1.0))))
      == {QuantityIsNumber, QuantityIsPositive}
  {
  }

  /** An empty item fails every constraint at once. */
  lemma MissingFieldsFailEverything()
    ensures Violations(RawItem(None, None, None))
      == {ProductIdIsUuid, ProductIdIsNotEmpty, QuantityIsNumber, QuantityIsPositive, PriceIsNumber, PriceIsPositive}
  {
  }
}
