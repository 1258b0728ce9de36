/** The admin dashboard's in-memory lists of deliveries, users and alerts,
    and the handlers that replace them (src/components/admin/AdminDashboard.tsx). */
module AdminDashboard {
  import opened Optional
  import opened Seqs
  import opened AdminTypes

  /** `deliveries.map(d => d.id === id ? { ...d, ...updates } : d)`. */
  function UpdateDeliveries(ds: seq<Delivery>, id: string, updates: DeliveryPatch): (r: seq<Delivery>)
    ensures |r| == |ds|
    ensures forall i :: 0 <= i < |ds| && ds[i].id == id ==> r[i] == ds[i].Apply(updates)
    ensures forall i :: 0 <= i < |ds| && ds[i].id != id ==> r[i] == ds[i]
  {
    MapSeq(ds, (d: Delivery) => if d.id == id then d.Apply(updates) else d)
  }

  /** The update `handleAssignCourier` applies. */
  function AssignPatch(courierId: string): DeliveryPatch {
    NoDeliveryChanges.(courierId := Some(courierId), status := Some(Assigned))
  }

  /** `handleAssignCourier`: the matching deliveries carry the courier and the
      status "assigned"; every other field, and every other delivery, is as
      before. */
  lemma AssignCourierEffect(ds: seq<Delivery>, id: string, courierId: string, i: int)
    requires 0 <= i < |ds|
    ensures var r := UpdateDeliveries(ds, id, AssignPatch(courierId));
      r[i] == if ds[i].id == id then ds[i].(courierId := Some(courierId), status := Assigned) else ds[i]
  {
  }

  /** An update that does not rename keeps every delivery's id in place, so a
      list with distinct ids keeps them distinct. */
  lemma UpdateKeepsIds(ds: seq<Delivery>, id: string, updates: DeliveryPatch)
    requires updates.id.None?
    ensures var r := UpdateDeliveries(ds, id, updates);
      forall i :: 0 <= i < |ds| ==> r[i].id == ds[i].id
  {
  }

  /** `users.map(u => u.id === id ? { ...u, ...updates } : u)`. */
  function UpdateUsers(us: seq<User>, id: string, updates: UserPatch): (r: seq<User>)
    ensures |r| == |us|
    ensures forall i :: 0 <= i < |us| && us[i].id == id ==> r[i] == us[i].Apply(updates)
    ensures forall i :: 0 <= i < |us| && us[i].id != id ==> r[i] == us[i]
  {
    MapSeq(us, (u: User) => if u.id == id then u.Apply(updates) else u)
  }

  /** `users.filter(u => u.id !== id)`. */
  function RemoveUser(us: seq<User>, id: string): (r: seq<User>)
    ensures forall u :: u in r ==> u.id != id
    ensures forall u :: u in us && u.id != id ==> u in r
    ensures IsSubsequence(r, us)
    ensures forall u :: multiset(r)[u] == if u.id != id then multiset(us)[u] else 0
  {
    FilterIsSubsequence(us, (u: User) => u.id != id);
    FilterMultiset(us, (u: User) => u.id != id);
    Filter(us, (u: User) => u.id != id)
  }

  /** The user the create handler appends; `stamp` stands for `Date.now()`
      and `createdAt` for the current time as an ISO string. */
  function NewUser(data: UserData, stamp: string, createdAt: string): (u: User)
    ensures u.id == "user_" + stamp && u.createdAt == createdAt
    ensures u.email == data.email && u.role == data.role && u.isActive == data.isActive
    ensures u.firstName == data.firstName && u.lastName == data.lastName
    ensures u.phone == data.phone && u.address == data.address
  {
    User("user_" + stamp, data.email, data.firstName, data.lastName, data.role,
         data.phone, data.address, createdAt, data.isActive)
  }

  /** `alerts.map(a => a.id === id ? { ...a, isRead: true } : a)`. */
  function MarkRead(alerts: seq<Alert>, id: string): (r: seq<Alert>)
    ensures |r| == |alerts|
    ensures forall i :: 0 <= i < |alerts| && alerts[i].id == id ==> r[i] == alerts[i].(isRead := true)
    ensures forall i :: 0 <= i < |alerts| && alerts[i].id != id ==> r[i] == alerts[i]
  {
    MapSeq(alerts, (a: Alert) => if a.id == id then a.(isRead := true) else a)
  }

  /** Marking an alert read a second time changes nothing. */
  lemma MarkReadIdempotent(alerts: seq<Alert>, id: string)
    ensures MarkRead(MarkRead(alerts, id), id) == MarkRead(alerts, id)
  {
    var once := MarkRead(alerts, id);
    var twice := MarkRead(once, id);
    assert forall i :: 0 <= i < |once| ==> twice[i] == once[i];
  }

  /** `alerts.filter(a => a.id !== id)`. */
  function RemoveAlert(alerts: seq<Alert>, id: string): (r: seq<Alert>)
    ensures forall a :: a in r ==> a.id != id
    ensures forall a :: a in alerts && a.id != id ==> a in r
    ensures IsSubsequence(r, alerts)
    ensures forall a :: multiset(r)[a] == if a.id != id then multiset(alerts)[a] else 0
  {
    FilterIsSubsequence(alerts, (a: Alert) => a.id != id);
    FilterMultiset(alerts, (a: Alert) => a.id != id);
    Filter(alerts, (a: Alert) => a.id != id)
  }

  /** The alert the create handler prepends. */
  function NewAlert(data: AlertData, stamp: string, createdAt: string): (a: Alert)
    ensures a.id == "alert_" + stamp && a.createdAt == createdAt
    ensures a.kind == data.kind && a.severity == data.severity && a.isRead == data.isRead
    ensures a.title == data.title && a.message == data.message
    ensures a.deliveryId == Some(data.deliveryId) && a.userId == Some(data.userId)
  {
    Alert("alert_" + stamp, data.kind, data.severity, data.title, data.message,
          Some(data.deliveryId), Some(data.userId), data.isRead, createdAt)
  }

  /** The dashboard's state: the page shown and the three lists. */
  class DashboardState {
    var currentPage: string
    var deliveries: seq<Delivery>
    var users: seq<User>
    var alerts: seq<Alert>

    /** The lists start from the mock data they are given. */
    constructor (mockDeliveries: seq<Delivery>, mockUsers: seq<User>, mockAlerts: seq<Alert>)
      ensures currentPage == "dashboard"
      ensures deliveries == mockDeliveries && users == mockUsers && alerts == mockAlerts
    {
      currentPage := "dashboard";
      deliveries, users, alerts := mockDeliveries, mockUsers, mockAlerts;
    }

    /** `setCurrentPage`, the layout's navigation callback. */
    method ChangePage(page: string)
      modifies this
      ensures currentPage == page
      ensures deliveries == old(deliveries) && users == old(users) && alerts == old(alerts)
    {
      currentPage := page;
    }

    /** `handleUpdateDelivery`. */
    method UpdateDelivery(id: string, updates: DeliveryPatch)
      modifies this
      ensures deliveries == UpdateDeliveries(old(deliveries), id, updates)
      ensures users == old(users) && alerts == old(alerts) && currentPage == old(currentPage)
    {
      deliveries := UpdateDeliveries(deliveries, id, updates);
    }

    /** `handleAssignCourier`. */
    method AssignCourier(deliveryId: string, courierId: string)
      modifies this
      ensures |deliveries| == |old(deliveries)|
      ensures forall i :: 0 <= i < |deliveries| ==>
        deliveries[i] == if old(deliveries)[i].id == deliveryId
                         then old(deliveries)[i].(courierId := Some(courierId), status := Assigned)
                         else old(deliveries)[i]
      ensures users == old(users) && alerts == old(alerts) && currentPage == old(currentPage)
    {
      UpdateDelivery(deliveryId, AssignPatch(courierId));
    }

    /** `handleCreateUser`: exactly one user is appended at the end. */
    method CreateUser(data: UserData, stamp: string, createdAt: string)
      modifies this
      ensures users == old(users) + [NewUser(data, stamp, createdAt)]
      ensures deliveries == old(deliveries) && alerts == old(alerts) && currentPage == old(currentPage)
    {
      users := users + [NewUser(data, stamp, createdAt)];
    }

    /** `handleUpdateUser`. */
    method UpdateUser(id: string, updates: UserPatch)
      modifies this
      ensures users == UpdateUsers(old(users), id, updates)
      ensures deliveries == old(deliveries) && alerts == old(alerts) && currentPage == old(currentPage)
    {
      users := UpdateUsers(users, id, updates);
    }

    /** `handleDeleteUser`. */
    method DeleteUser(id: string)
      modifies this
      ensures users == RemoveUser(old(users), id)
      ensures forall u :: u in users ==> u.id != id
      ensures deliveries == old(deliveries) && alerts == old(alerts) && currentPage == old(currentPage)
    {
      users := RemoveUser(users, id);
    }

    /** `handleMarkAlertAsRead`. */
    method MarkAlertAsRead(id: string)
      modifies this
      ensures alerts == MarkRead(old(alerts), id)
      ensures deliveries == old(deliveries) && users == old(users) && currentPage == old(currentPage)
    {
      alerts := MarkRead(alerts, id);
    }

    /** `handleDismissAlert`. */
    method DismissAlert(id: string)
      modifies this
      ensures alerts == RemoveAlert(old(alerts), id)
      ensures forall a :: a in alerts ==> a.id != id
      ensures deliveries == old(deliveries) && users == old(users) && currentPage == old(currentPage)
    {
      alerts := RemoveAlert(alerts, id);
    }

    /** `handleCreateAlert`: the new alert comes first, the old list follows. */
    method CreateAlert(data: AlertData, stamp: string, createdAt: string)
      modifies this
      ensures alerts == [NewAlert(data, stamp, createdAt)] + old(alerts)
      ensures alerts[0] == NewAlert(data, stamp, createdAt) && alerts[1..] == old(alerts)
      ensures deliveries == old(deliveries) && users == old(users) && currentPage == old(currentPage)
    {
      alerts := [NewAlert(data, stamp, createdAt)] + alerts;
    }
  }
}
