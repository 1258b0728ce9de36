/** The operations table: the search-and-status filter over deliveries and
    the colour lookups for statuses and priorities
    (src/components/admin/OperationsTracking.tsx). */
module OperationsTracking {
  import opened Seqs
  import opened Text
  import opened AdminTypes

  /** The lower-cased search term occurs in the lower-cased tracking number,
      origin or destination. */
  predicate MatchesSearch(d: Delivery, searchTerm: string) {
    Includes(Lower(d.trackingNumber), Lower(searchTerm))
    || Includes(Lower(d.origin), Lower(searchTerm))
    || Includes(Lower(d.destination), Lower(searchTerm))
  }

  /** The status select's value is "all" or a status name. */
  predicate MatchesStatus(d: Delivery, statusFilter: string) {
    statusFilter == "all" || StatusName(d.status) == statusFilter
  }

  predicate Shown(d: Delivery, searchTerm: string, statusFilter: string) {
    MatchesSearch(d, searchTerm) && MatchesStatus(d, statusFilter)
  }

  /** `filteredDeliveries`. */
  function FilteredDeliveries(ds: seq<Delivery>, searchTerm: string, statusFilter: string): (r: seq<Delivery>)
    ensures forall d :: d in r <==> d in ds && Shown(d, searchTerm, statusFilter)
    ensures IsSubsequence(r, ds)
    ensures forall d :: multiset(r)[d] == if Shown(d, searchTerm, statusFilter) then multiset(ds)[d] else 0
  {
    FilterIsSubsequence(ds, (d: Delivery) => Shown(d, searchTerm, statusFilter));
    FilterMultiset(ds, (d: Delivery) => Shown(d, searchTerm, statusFilter));
    Filter(ds, (d: Delivery) => Shown(d, searchTerm, statusFilter))
  }

  /** A shown delivery has the selected status, unless the selection is "all". */
  lemma ShownHaveSelectedStatus(ds: seq<Delivery>, searchTerm: string, statusFilter: string, d: Delivery)
    requires d in FilteredDeliveries(ds, searchTerm, statusFilter) && statusFilter != "all"
    ensures StatusName(d.status) == statusFilter
  {
  }

  /** The initial view, with no search term and every status, shows the
      whole list. */
  lemma UnfilteredShowsAll(ds: seq<Delivery>)
    ensures FilteredDeliveries(ds, "", "all") == ds
  {
    forall d | d in ds
      ensures Shown(d, "", "all")
    {
      EmptySearchMatches(d.trackingNumber);
    }
    FilterKeepsAll(ds, (d: Delivery) => Shown(d, "", "all"));
  }

  /** Filtering the filtered list again with the same settings changes
      nothing. */
  lemma FilterAgainChangesNothing(ds: seq<Delivery>, searchTerm: string, statusFilter: string)
    ensures var r := FilteredDeliveries(ds, searchTerm, statusFilter);
      FilteredDeliveries(r, searchTerm, statusFilter) == r
  {
    FilterIdempotent(ds, (d: Delivery) => Shown(d, searchTerm, statusFilter));
  }

  const Grey := "bg-gray-100 text-gray-800"

  const ColouredStatuses: set<string> := {"assigned", "in_transit", "delivered", "failed"}

  /** `getStatusColor`: the table entry, or grey for any other string. Only
      assigned, in-transit, delivered and failed deliveries are coloured;
      pending, cancelled and every unknown status show grey. */
  function StatusColor(status: string): (c: string)
    ensures c == Grey <==> status !in ColouredStatuses
  {
    if status == "pending" then "bg-gray-100 text-gray-800"
    else if status == "assigned" then "bg-blue-100 text-blue-800"
    else if status == "in_transit" then "bg-yellow-100 text-yellow-800"
    else if status == "delivered" then "bg-green-100 text-green-800"
    else if status == "failed" then "bg-red-100 text-red-800"
    else if status == "cancelled" then "bg-gray-100 text-gray-800"
    else Grey
  }

  const ColouredPriorities: set<string> := {"low", "medium", "high", "urgent"}

  /** `getPriorityColor`: the table entry, grey exactly for a string outside
      the table. */
  function PriorityColor(priority: string): (c: string)
    ensures c == Grey <==> priority !in ColouredPriorities
  {
    if priority == "low" then "bg-green-100 text-green-800"
    else if priority == "medium" then "bg-yellow-100 text-yellow-800"
    else if priority == "high" then "bg-orange-100 text-orange-800"
    else if priority == "urgent" then "bg-red-100 text-red-800"
    else Grey
  }

  /** Each of the four coloured statuses has a colour of its own. */
  lemma StatusColorsDistinct()
    ensures forall s, t :: s in ColouredStatuses && t in ColouredStatuses && s != t ==>
      StatusColor(s) != StatusColor(t)
  {
  }

  /** Every declared priority has its own non-grey colour; anything else is
      grey. */
  lemma PriorityColorTable(p: Priority, other: string)
    requires other !in ColouredPriorities
    ensures PriorityColor(PriorityName(p)) != Grey
    ensures PriorityColor(other) == Grey
    ensures forall q: Priority :: q != p ==> PriorityColor(PriorityName(q)) != PriorityColor(PriorityName(p))
  {
  }
}
