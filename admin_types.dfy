/** The records the operations dashboards show and edit
    (src/types/admin.ts), and `Partial<...>` updates of them. */
module AdminTypes {
  import opened Optional
  import opened ShippingTypes

  /** A user role. Profiles stored by the sign-up flow may carry roles
      outside the declared three (such as "driver"); those are `OtherRole`. */
  datatype Role = Admin | Courier | Client | OtherRole(name: string)

  datatype DeliveryStatus = Pending | Assigned | InTransit | Delivered | Failed | Cancelled
  datatype Priority = Low | Medium | High | Urgent

  /** The string value of a status, as the filters and lookups compare it. */
  function StatusName(s: DeliveryStatus): string {
    match s
    case Pending => "pending"
    case Assigned => "assigned"
    case InTransit => "in_transit"
    case Delivered => "delivered"
    case Failed => "failed"
    case Cancelled => "cancelled"
  }

  function PriorityName(p: Priority): string {
    match p
    case Low => "low"
    case Medium => "medium"
    case High => "high"
    case Urgent => "urgent"
  }

  datatype Delivery = Delivery(
    id: string,
    trackingNumber: string,
    senderId: string,
    recipientId: string,
    courierId: Option<string>,
    category: Category,
    status: DeliveryStatus,
    priority: Priority,
    origin: string,
    destination: string,
    weight: real,
    dimensions: Dimensions,
    cost: real,
    currency: string,
    insurance: bool,
    insuranceCost: real,
    estimatedDelivery: string,
    actualDelivery: Option<string>,
    notes: string,
    createdAt: string,
    updatedAt: string)
  {
    /** `{ ...delivery, ...updates }`: a supplied field takes the supplied
        value. */
    function Apply(u: DeliveryPatch): (r: Delivery)
      ensures u.id.Some? ==> r.id == u.id.value
      ensures u.trackingNumber.Some? ==> r.trackingNumber == u.trackingNumber.value
      ensures u.senderId.Some? ==> r.senderId == u.senderId.value
      ensures u.recipientId.Some? ==> r.recipientId == u.recipientId.value
      ensures u.courierId.Some? ==> r.courierId == u.courierId
      ensures u.category.Some? ==> r.category == u.category.value
      ensures u.status.Some? ==> r.status == u.status.value
      ensures u.priority.Some? ==> r.priority == u.priority.value
      ensures u.origin.Some? ==> r.origin == u.origin.value
      ensures u.destination.Some? ==> r.destination == u.destination.value
      ensures u.weight.Some? ==> r.weight == u.weight.value
      ensures u.dimensions.Some? ==> r.dimensions == u.dimensions.value
      ensures u.cost.Some? ==> r.cost == u.cost.value
      ensures u.currency.Some? ==> r.currency == u.currency.value
      ensures u.insurance.Some? ==> r.insurance == u.insurance.value
      ensures u.insuranceCost.Some? ==> r.insuranceCost == u.insuranceCost.value
      ensures u.estimatedDelivery.Some? ==> r.estimatedDelivery == u.estimatedDelivery.value
      ensures u.actualDelivery.Some? ==> r.actualDelivery == u.actualDelivery
      ensures u.notes.Some? ==> r.notes == u.notes.value
      ensures u.createdAt.Some? ==> r.createdAt == u.createdAt.value
      ensures u.updatedAt.Some? ==> r.updatedAt == u.updatedAt.value
    {
      Delivery(
        u.id.GetOr(id),
        u.trackingNumber.GetOr(trackingNumber),
        u.senderId.GetOr(senderId),
        u.recipientId.GetOr(recipientId),
        if u.courierId.Some? then u.courierId else courierId,
        u.category.GetOr(category),
        u.status.GetOr(status),
        u.priority.GetOr(priority),
        u.origin.GetOr(origin),
        u.destination.GetOr(destination),
        u.weight.GetOr(weight),
        u.dimensions.GetOr(dimensions),
        u.cost.GetOr(cost),
        u.currency.GetOr(currency),
        u.insurance.GetOr(insurance),
        u.insuranceCost.GetOr(insuranceCost),
        u.estimatedDelivery.GetOr(estimatedDelivery),
        if u.actualDelivery.Some? then u.actualDelivery else actualDelivery,
        u.notes.GetOr(notes),
        u.createdAt.GetOr(createdAt),
        u.updatedAt.GetOr(updatedAt))
    }
  }

  /** `Partial<Delivery>`: `Some` for each field the update supplies. */
  datatype DeliveryPatch = DeliveryPatch(
    id: Option<string>,
    trackingNumber: Option<string>,
    senderId: Option<string>,
    recipientId: Option<string>,
    courierId: Option<string>,
    category: Option<Category>,
    status: Option<DeliveryStatus>,
    priority: Option<Priority>,
    origin: Option<string>,
    destination: Option<string>,
    weight: Option<real>,
    dimensions: Option<Dimensions>,
    cost: Option<real>,
    currency: Option<string>,
    insurance: Option<bool>,
    insuranceCost: Option<real>,
    estimatedDelivery: Option<string>,
    actualDelivery: Option<string>,
    notes: Option<string>,
    createdAt: Option<string>,
    updatedAt: Option<string>)

  const NoDeliveryChanges := DeliveryPatch(
    None, None, None, None, None, None, None, None, None, None, None,
    None, None, None, None, None, None, None, None, None, None)

  datatype User = User(
    id: string,
    email: string,
    firstName: string,
    lastName: string,
    role: Role,
    phone: string,
    address: string,
    createdAt: string,
    isActive: bool)
  {
    /** `{ ...user, ...updates }`: a supplied field takes the supplied value,
        every other field keeps its own. */
    function Apply(u: UserPatch): (r: User)
      ensures u.id.Some? ==> r.id == u.id.value
      ensures u.id.None? ==> r.id == id
      ensures u.email.Some? ==> r.email == u.email.value
      ensures u.email.None? ==> r.email == email
      ensures u.firstName.Some? ==> r.firstName == u.firstName.value
      ensures u.firstName.None? ==> r.firstName == firstName
      ensures u.lastName.Some? ==> r.lastName == u.lastName.value
      ensures u.lastName.None? ==> r.lastName == lastName
      ensures u.role.Some? ==> r.role == u.role.value
      ensures u.role.None? ==> r.role == role
      ensures u.phone.Some? ==> r.phone == u.phone.value
      ensures u.phone.None? ==> r.phone == phone
      ensures u.address.Some? ==> r.address == u.address.value
      ensures u.address.None? ==> r.address == address
      ensures u.createdAt.Some? ==> r.createdAt == u.createdAt.value
      ensures u.createdAt.None? ==> r.createdAt == createdAt
      ensures u.isActive.Some? ==> r.isActive == u.isActive.value
      ensures u.isActive.None? ==> r.isActive == isActive
    {
      User(
        u.id.GetOr(id),
        u.email.GetOr(email),
        u.firstName.GetOr(firstName),
        u.lastName.GetOr(lastName),
        u.role.GetOr(role),
        u.phone.GetOr(phone),
        u.address.GetOr(address),
        u.createdAt.GetOr(createdAt),
        u.isActive.GetOr(isActive))
    }
  }

  /** `Partial<User>`. */
  datatype UserPatch = UserPatch(
    id: Option<string>,
    email: Option<string>,
    firstName: Option<string>,
    lastName: Option<string>,
    role: Option<Role>,
    phone: Option<string>,
    address: Option<string>,
    createdAt: Option<string>,
    isActive: Option<bool>)

  /** `Omit<User, 'id' | 'createdAt'>`: what the user form submits. */
  datatype UserData = UserData(
    email: string,
    firstName: string,
    lastName: string,
    role: Role,
    phone: string,
    address: string,
    isActive: bool)

  datatype AlertType = Delay | Incident | System | Payment
  datatype Severity = LowSeverity | MediumSeverity | HighSeverity | Critical

  function AlertTypeName(t: AlertType): string {
    match t
    case Delay => "delay"
    case Incident => "incident"
    case System => "system"
    case Payment => "payment"
  }

  function SeverityName(s: Severity): string {
    match s
    case LowSeverity => "low"
    case MediumSeverity => "medium"
    case HighSeverity => "high"
    case Critical => "critical"
  }

  datatype Alert = Alert(
    id: string,
    kind: AlertType,
    severity: Severity,
    title: string,
    message: string,
    deliveryId: Option<string>,
    userId: Option<string>,
    isRead: bool,
    createdAt: string)

  /** `Omit<Alert, 'id' | 'createdAt'>`: what the alert form submits. The form
      always carries `deliveryId` and `userId`, possibly as empty strings. */
  datatype AlertData = AlertData(
    kind: AlertType,
    severity: Severity,
    title: string,
    message: string,
    deliveryId: string,
    userId: string,
    isRead: bool)

  datatype RecordType = Revenue | Cost | Refund
  datatype PaymentState = PaymentPending | Completed | PaymentFailed | Refunded

  datatype FinancialRecord = FinancialRecord(
    id: string,
    deliveryId: string,
    recordType: RecordType,
    amount: real,
    currency: string,
    description: string,
    paymentMethod: string,
    paymentStatus: PaymentState,
    createdAt: string)

  /** An update applied twice has the effect of applying it once, and the
      empty update changes nothing. */
  lemma DeliveryApplyLaws(d: Delivery, u: DeliveryPatch)
    ensures d.Apply(u).Apply(u) == d.Apply(u)
    ensures d.Apply(NoDeliveryChanges) == d
    ensures u.id.None? ==> d.Apply(u).id == d.id
  {
  }

  /** A field the update does not supply keeps the delivery's own value. */
  lemma DeliveryApplyKeepsUnsupplied(d: Delivery, u: DeliveryPatch)
    ensures u.id.None? ==> d.Apply(u).id == d.id
    ensures u.trackingNumber.None? ==> d.Apply(u).trackingNumber == d.trackingNumber
    ensures u.senderId.None? ==> d.Apply(u).senderId == d.senderId
    ensures u.recipientId.None? ==> d.Apply(u).recipientId == d.recipientId
    ensures u.courierId.None? ==> d.Apply(u).courierId == d.courierId
    ensures u.category.None? ==> d.Apply(u).category == d.category
    ensures u.status.None? ==> d.Apply(u).status == d.status
    ensures u.priority.None? ==> d.Apply(u).priority == d.priority
    ensures u.origin.None? ==> d.Apply(u).origin == d.origin
    ensures u.destination.None? ==> d.Apply(u).destination == d.destination
    ensures u.weight.None? ==> d.Apply(u).weight == d.weight
    ensures u.dimensions.None? ==> d.Apply(u).dimensions == d.dimensions
    ensures u.cost.None? ==> d.Apply(u).cost == d.cost
    ensures u.currency.None? ==> d.Apply(u).currency == d.currency
    ensures u.insurance.None? ==> d.Apply(u).insurance == d.insurance
    ensures u.insuranceCost.None? ==> d.Apply(u).insuranceCost == d.insuranceCost
    ensures u.estimatedDelivery.None? ==> d.Apply(u).estimatedDelivery == d.estimatedDelivery
    ensures u.actualDelivery.None? ==> d.Apply(u).actualDelivery == d.actualDelivery
    ensures u.notes.None? ==> d.Apply(u).notes == d.notes
    ensures u.createdAt.None? ==> d.Apply(u).createdAt == d.createdAt
    ensures u.updatedAt.None? ==> d.Apply(u).updatedAt == d.updatedAt
  {
  }

  /** The same laws for users. */
  lemma UserApplyLaws(x: User, u: UserPatch)
    ensures x.Apply(u).Apply(u) == x.Apply(u)
    ensures x.Apply(UserPatch(None, None, None, None, None, None, None, None, None)) == x
    ensures u.id.None? ==> x.Apply(u).id == x.id
  {
  }
}
