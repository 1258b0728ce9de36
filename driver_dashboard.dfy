/** The courier's dashboard: the status changes it offers, the local effect
    of a status update and of the availability switch, and the counters
    (src/components/driver/DriverDashboard.tsx). */
module DriverDashboard {
  import opened Optional
  import opened Seqs

  /** A delivery row as the courier's view loads it; `status` is a plain
      string there. */
  datatype DriverDelivery = DriverDelivery(
    id: string,
    trackingNumber: string,
    status: string,
    priority: string,
    origin: string,
    destination: string,
    weight: real,
    cost: real,
    estimatedDelivery: string,
    actualDelivery: Option<string>,
    createdAt: string,
    category: string,
    senderId: string,
    recipientId: string)

  datatype DriverProfile = DriverProfile(
    country: string, city: string, vehicleType: string, accountType: string, isAvailable: bool)

  /** What the remote update reported. */
  datatype RemoteOutcome = Succeeded | Errored

  datatype Stats = Stats(total: nat, assignedCount: nat, inTransitCount: nat, deliveredCount: nat)

  /** The statuses the manage dialog offers from `status`, in button order:
      "Start Transit", "Mark as Delivered", "Report Issue". */
  function OfferedStatuses(status: string): (next: seq<string>)
    ensures "failed" in next <==> status == "assigned" || status == "in_transit"
    ensures "in_transit" in next <==> status == "assigned"
    ensures "delivered" in next <==> status == "in_transit"
  {
    (if status == "assigned" then ["in_transit"] else [])
    + (if status == "in_transit" then ["delivered"] else [])
    + (if status == "assigned" || status == "in_transit" then ["failed"] else [])
  }

  /** How far along the courier's workflow a status is. This ranking is the
      model's own: the source has no such order, only the buttons it
      offers, and the ranking serves to state that they never lead back. */
  function Progress(status: string): nat {
    if status == "assigned" then 1
    else if status == "in_transit" then 2
    else if status == "delivered" || status == "failed" then 3
    else 0
  }

  /** Exactly two choices from "assigned" and from "in_transit", none from any
      other status; every offered status is further along, so the workflow
      never goes back. */
  lemma OfferedTransitions(status: string)
    ensures status == "assigned" ==> OfferedStatuses(status) == ["in_transit", "failed"]
    ensures status == "in_transit" ==> OfferedStatuses(status) == ["delivered", "failed"]
    ensures status != "assigned" && status != "in_transit" ==> OfferedStatuses(status) == []
    ensures forall t :: t in OfferedStatuses(status) ==> Progress(t) > Progress(status)
  {
  }

  /** `{ ...delivery, ...updates }` for the updates a status change sends:
      the new status, and the delivery time stamp only on "delivered". */
  function WithStatus(d: DriverDelivery, newStatus: string, now: string): (r: DriverDelivery)
    ensures r.status == newStatus
    ensures r.actualDelivery == if newStatus == "delivered" then Some(now) else d.actualDelivery
    ensures r.(status := d.status, actualDelivery := d.actualDelivery) == d
  {
    if newStatus == "delivered" then d.(status := newStatus, actualDelivery := Some(now))
    else d.(status := newStatus)
  }

  /** The local list after a successful remote update of `deliveryId`. */
  function ApplyStatus(ds: seq<DriverDelivery>, deliveryId: string, newStatus: string, now: string): (r: seq<DriverDelivery>)
    ensures |r| == |ds|
    ensures forall i :: 0 <= i < |ds| && ds[i].id == deliveryId ==> r[i] == WithStatus(ds[i], newStatus, now)
    ensures forall i :: 0 <= i < |ds| && ds[i].id != deliveryId ==> r[i] == ds[i]
  {
    MapSeq(ds, (d: DriverDelivery) => if d.id == deliveryId then WithStatus(d, newStatus, now) else d)
  }

  /** `deliveries.filter(d => d.status === status).length`. */
  function CountStatus(ds: seq<DriverDelivery>, status: string): (n: nat)
    ensures n <= |ds|
    ensures n == 0 <==> forall d :: d in ds ==> d.status != status
  {
    var r := Filter(ds, (d: DriverDelivery) => d.status == status);
    assert r != [] ==> r[0] in r;
    |r|
  }

  /** `stats` without the clock-dependent `todayDeliveries`. */
  function DeliveryStats(ds: seq<DriverDelivery>): (s: Stats)
    ensures s.total == |ds|
    ensures s.assignedCount <= s.total && s.inTransitCount <= s.total && s.deliveredCount <= s.total
  {
    Stats(|ds|, CountStatus(ds, "assigned"), CountStatus(ds, "in_transit"), CountStatus(ds, "delivered"))
  }

  /** The three status counters together never exceed the number of
      deliveries. */
  lemma {:induction false} StatsWithinTotal(ds: seq<DriverDelivery>)
    ensures var s := DeliveryStats(ds);
      s.assignedCount + s.inTransitCount + s.deliveredCount <= s.total
  {
    if ds != [] {
      StatsWithinTotal(ds[1..]);
    }
  }

  /** In a list whose ids are distinct, a successful status change of the
      delivery at `k` keeps the total and moves that one delivery out of the
      counter of its old status and into the counter of the new one; a
      counter that is neither stays put. */
  lemma StatusChangeMovesOne(ds: seq<DriverDelivery>, k: nat, newStatus: string, now: string)
    requires k < |ds|
    requires forall i, j :: 0 <= i < j < |ds| ==> ds[i].id != ds[j].id
    ensures var before := DeliveryStats(ds);
      var after := DeliveryStats(ApplyStatus(ds, ds[k].id, newStatus, now));
      var was := ds[k].status;
      && after.total == before.total
      && after.assignedCount == before.assignedCount - (if was == "assigned" then 1 else 0) + (if newStatus == "assigned" then 1 else 0)
      && after.inTransitCount == before.inTransitCount - (if was == "in_transit" then 1 else 0) + (if newStatus == "in_transit" then 1 else 0)
      && after.deliveredCount == before.deliveredCount - (if was == "delivered" then 1 else 0) + (if newStatus == "delivered" then 1 else 0)
  {
    var id := ds[k].id;
    forall i | 0 <= i < |ds| && i != k
      ensures ds[i].id != id
    {
      if i < k {} else {}
    }
    CountAfterStatusChange(ds, id, newStatus, now, k, "assigned");
    CountAfterStatusChange(ds, id, newStatus, now, k, "in_transit");
    CountAfterStatusChange(ds, id, newStatus, now, k, "delivered");
  }

  /** The count of one status after changing the only delivery with the id. */
  lemma {:induction false} CountAfterStatusChange(ds: seq<DriverDelivery>, deliveryId: string, newStatus: string, now: string, k: nat, status: string)
    requires k < |ds| && ds[k].id == deliveryId
    requires forall i :: 0 <= i < |ds| && i != k ==> ds[i].id != deliveryId
    ensures CountStatus(ApplyStatus(ds, deliveryId, newStatus, now), status)
         == CountStatus(ds, status) - (if ds[k].status == status then 1 else 0) + (if newStatus == status then 1 else 0)
  {
    var r := ApplyStatus(ds, deliveryId, newStatus, now);
    var rest := ApplyStatus(ds[1..], deliveryId, newStatus, now);
    CountHead(r, status);
    CountHead(ds, status);
    ApplyStatusTail(ds, deliveryId, newStatus, now);
    assert r[1..] == rest;
    if k == 0 {
      assert r[0] == WithStatus(ds[0], newStatus, now);
      ApplyStatusMissing(ds[1..], deliveryId, newStatus, now);
      assert rest == ds[1..];
    } else {
      assert r[0] == ds[0];
      CountAfterStatusChange(ds[1..], deliveryId, newStatus, now, k - 1, status);
    }
  }

  lemma CountHead(ds: seq<DriverDelivery>, status: string)
    requires ds != []
    ensures CountStatus(ds, status) == (if ds[0].status == status then 1 else 0) + CountStatus(ds[1..], status)
  {
  }

  lemma ApplyStatusTail(ds: seq<DriverDelivery>, deliveryId: string, newStatus: string, now: string)
    requires ds != []
    ensures ApplyStatus(ds, deliveryId, newStatus, now)[1..] == ApplyStatus(ds[1..], deliveryId, newStatus, now)
  {
  }

  /** A change to an id no delivery has leaves the list as it is. */
  lemma ApplyStatusMissing(ds: seq<DriverDelivery>, deliveryId: string, newStatus: string, now: string)
    requires forall i :: 0 <= i < |ds| ==> ds[i].id != deliveryId
    ensures ApplyStatus(ds, deliveryId, newStatus, now) == ds
  {
  }

  /** The dashboard's state. */
  class DriverState {
    var deliveries: seq<DriverDelivery>
    var driverProfile: Option<DriverProfile>
    var selectedDelivery: Option<DriverDelivery>

    /** The state once the courier's profile and deliveries are loaded. */
    constructor (profile: Option<DriverProfile>, loaded: seq<DriverDelivery>)
      ensures deliveries == loaded && driverProfile == profile && selectedDelivery == None
    {
      deliveries, driverProfile, selectedDelivery := loaded, profile, None;
    }

    /** The counters over the current list. */
    function CurrentStats(): (s: Stats)
      reads this
      ensures s.total == |deliveries|
    {
      DeliveryStats(deliveries)
    }

    /** Opening the manage dialog for a delivery. */
    method Select(d: DriverDelivery)
      modifies this
      ensures selectedDelivery == Some(d)
      ensures deliveries == old(deliveries) && driverProfile == old(driverProfile)
    {
      selectedDelivery := Some(d);
    }

    /** Closing the dialog. */
    method CloseDialog()
      modifies this
      ensures selectedDelivery == None
      ensures deliveries == old(deliveries) && driverProfile == old(driverProfile)
    {
      selectedDelivery := None;
    }

    /** `updateDeliveryStatus`: on success the matching deliveries take the
        new status (and the time stamp when delivered) and the dialog closes;
        on a reported error nothing changes. */
    method UpdateDeliveryStatus(deliveryId: string, newStatus: string, now: string, outcome: RemoteOutcome)
      modifies this
      ensures outcome == Succeeded ==>
        deliveries == ApplyStatus(old(deliveries), deliveryId, newStatus, now) && selectedDelivery == None
      ensures outcome == Errored ==>
        deliveries == old(deliveries) && selectedDelivery == old(selectedDelivery)
      ensures driverProfile == old(driverProfile)
    {
      if outcome == Succeeded {
        deliveries := ApplyStatus(deliveries, deliveryId, newStatus, now);
        selectedDelivery := None;
      }
    }

    /** `toggleAvailability`: nothing without a profile or on a reported
        error; otherwise the availability flag flips. */
    method ToggleAvailability(outcome: RemoteOutcome)
      modifies this
      ensures old(driverProfile).Some? && outcome == Succeeded ==>
        driverProfile == Some(old(driverProfile).value.(isAvailable := !old(driverProfile).value.isAvailable))
      ensures old(driverProfile).None? || outcome == Errored ==> driverProfile == old(driverProfile)
      ensures deliveries == old(deliveries) && selectedDelivery == old(selectedDelivery)
    {
      if driverProfile.None? {
        return;
      }
      var newAvailability := !driverProfile.value.isAvailable;
      if outcome == Succeeded {
        driverProfile := Some(driverProfile.value.(isAvailable := newAvailability));
      }
    }
  }
}
