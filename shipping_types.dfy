/** The booking form's shipment record and the spread-merge that applies a
    partial update to it (src/types/index.ts, src/App.tsx). */
module ShippingTypes {
  import opened Optional

  datatype Category = Mail | Parcel | Container
  datatype Country = Benin | China | France

  datatype Dimensions = Dimensions(length: real, width: real, height: real)

  datatype Person = Person(
    address: string, firstName: string, lastName: string,
    contact: string, email: string, country: string)

  /** `ShippingData`; the empty-string choices of `category` and `country`
      are `None`. */
  datatype ShippingData = ShippingData(
    category: Option<Category>,
    details: string,
    country: Option<Country>,
    weight: real,
    dimensions: Dimensions,
    sender: Person,
    recipient: Person,
    insurance: bool,
    message: string)

  /** `Partial<ShippingData>`: `Some` for each field the update supplies. */
  datatype ShippingPatch = ShippingPatch(
    category: Option<Option<Category>>,
    details: Option<string>,
    country: Option<Option<Country>>,
    weight: Option<real>,
    dimensions: Option<Dimensions>,
    sender: Option<Person>,
    recipient: Option<Person>,
    insurance: Option<bool>,
    message: Option<string>)

  const NoChanges := ShippingPatch(None, None, None, None, None, None, None, None, None)

  const BlankPerson := Person("", "", "", "", "", "")

  /** The form as the page first shows it. */
  const InitialShippingData := ShippingData(
    None, "", None, 0.0, Dimensions(0.0, 0.0, 0.0), BlankPerson, BlankPerson, false, "")

  /** `{ ...prev, ...updates }`: every field the update supplies takes the
      supplied value. */
  function Merge(prev: ShippingData, u: ShippingPatch): (r: ShippingData)
    ensures u.category.Some? ==> r.category == u.category.value
    ensures u.details.Some? ==> r.details == u.details.value
    ensures u.country.Some? ==> r.country == u.country.value
    ensures u.weight.Some? ==> r.weight == u.weight.value
    ensures u.dimensions.Some? ==> r.dimensions == u.dimensions.value
    ensures u.sender.Some? ==> r.sender == u.sender.value
    ensures u.recipient.Some? ==> r.recipient == u.recipient.value
    ensures u.insurance.Some? ==> r.insurance == u.insurance.value
    ensures u.message.Some? ==> r.message == u.message.value
  {
    ShippingData(
      u.category.GetOr(prev.category),
      u.details.GetOr(prev.details),
      u.country.GetOr(prev.country),
      u.weight.GetOr(prev.weight),
      u.dimensions.GetOr(prev.dimensions),
      u.sender.GetOr(prev.sender),
      u.recipient.GetOr(prev.recipient),
      u.insurance.GetOr(prev.insurance),
      u.message.GetOr(prev.message))
  }

  /** The update written second wins wherever both supply a field. */
  function Then(first: ShippingPatch, second: ShippingPatch): ShippingPatch {
    ShippingPatch(
      if second.category.Some? then second.category else first.category,
      if second.details.Some? then second.details else first.details,
      if second.country.Some? then second.country else first.country,
      if second.weight.Some? then second.weight else first.weight,
      if second.dimensions.Some? then second.dimensions else first.dimensions,
      if second.sender.Some? then second.sender else first.sender,
      if second.recipient.Some? then second.recipient else first.recipient,
      if second.insurance.Some? then second.insurance else first.insurance,
      if second.message.Some? then second.message else first.message)
  }

  /** The update supplies one of the two fields the price depends on. */
  predicate TouchesPricing(u: ShippingPatch) {
    u.weight.Some? || u.insurance.Some?
  }

  /** A supplied field takes the supplied value; a field the update does not
      supply keeps its previous value. */
  lemma MergeOverwritesSuppliedOnly(prev: ShippingData, u: ShippingPatch)
    ensures u.category.Some? ==> Merge(prev, u).category == u.category.value
    ensures u.category.None? ==> Merge(prev, u).category == prev.category
    ensures u.details.Some? ==> Merge(prev, u).details == u.details.value
    ensures u.details.None? ==> Merge(prev, u).details == prev.details
    ensures u.country.Some? ==> Merge(prev, u).country == u.country.value
    ensures u.country.None? ==> Merge(prev, u).country == prev.country
    ensures u.weight.Some? ==> Merge(prev, u).weight == u.weight.value
    ensures u.weight.None? ==> Merge(prev, u).weight == prev.weight
    ensures u.dimensions.Some? ==> Merge(prev, u).dimensions == u.dimensions.value
    ensures u.dimensions.None? ==> Merge(prev, u).dimensions == prev.dimensions
    ensures u.sender.Some? ==> Merge(prev, u).sender == u.sender.value
    ensures u.sender.None? ==> Merge(prev, u).sender == prev.sender
    ensures u.recipient.Some? ==> Merge(prev, u).recipient == u.recipient.value
    ensures u.recipient.None? ==> Merge(prev, u).recipient == prev.recipient
    ensures u.insurance.Some? ==> Merge(prev, u).insurance == u.insurance.value
    ensures u.insurance.None? ==> Merge(prev, u).insurance == prev.insurance
    ensures u.message.Some? ==> Merge(prev, u).message == u.message.value
    ensures u.message.None? ==> Merge(prev, u).message == prev.message
    ensures u == NoChanges ==> Merge(prev, u) == prev
  {
  }

  /** Applying the same update twice is applying it once. */
  lemma MergeIdempotent(prev: ShippingData, u: ShippingPatch)
    ensures Merge(Merge(prev, u), u) == Merge(prev, u)
  {
  }

  /** Two successive updates act as their combination. */
  lemma MergeThen(prev: ShippingData, u: ShippingPatch, v: ShippingPatch)
    ensures Merge(Merge(prev, u), v) == Merge(prev, Then(u, v))
  {
  }

  /** An update that supplies neither weight nor insurance leaves both as
      they were. */
  lemma MergeKeepsPricingInputs(prev: ShippingData, u: ShippingPatch)
    requires !TouchesPricing(u)
    ensures Merge(prev, u).weight == prev.weight
    ensures Merge(prev, u).insurance == prev.insurance
  {
  }
}
