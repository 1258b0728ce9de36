/** The alerts page: its filter, its counters, its colour lookups and the
    create-alert form (src/components/admin/AlertsManagement.tsx). */
module AlertsManagement {
  import opened Seqs
  import opened Text
  import opened AdminTypes
  import AdminDashboard

  predicate MatchesSearch(a: Alert, searchTerm: string) {
    Includes(Lower(a.title), Lower(searchTerm)) || Includes(Lower(a.message), Lower(searchTerm))
  }

  predicate Shown(a: Alert, searchTerm: string, severityFilter: string, typeFilter: string) {
    && MatchesSearch(a, searchTerm)
    && (severityFilter == "all" || SeverityName(a.severity) == severityFilter)
    && (typeFilter == "all" || AlertTypeName(a.kind) == typeFilter)
  }

  /** `filteredAlerts`. */
  function FilteredAlerts(alerts: seq<Alert>, searchTerm: string, severityFilter: string, typeFilter: string): (r: seq<Alert>)
    ensures forall a :: a in r <==> a in alerts && Shown(a, searchTerm, severityFilter, typeFilter)
    ensures IsSubsequence(r, alerts)
    ensures forall a :: multiset(r)[a] == if Shown(a, searchTerm, severityFilter, typeFilter) then multiset(alerts)[a] else 0
  {
    FilterIsSubsequence(alerts, (a: Alert) => Shown(a, searchTerm, severityFilter, typeFilter));
    FilterMultiset(alerts, (a: Alert) => Shown(a, searchTerm, severityFilter, typeFilter));
    Filter(alerts, (a: Alert) => Shown(a, searchTerm, severityFilter, typeFilter))
  }

  /** A shown alert has the selected severity and type (each unless "all")
      and its title or message contains the term, ignoring ASCII case. */
  lemma ShownAlertsMatch(alerts: seq<Alert>, searchTerm: string, severityFilter: string, typeFilter: string, a: Alert)
    requires a in FilteredAlerts(alerts, searchTerm, severityFilter, typeFilter)
    ensures severityFilter != "all" ==> SeverityName(a.severity) == severityFilter
    ensures typeFilter != "all" ==> AlertTypeName(a.kind) == typeFilter
    ensures Includes(Lower(a.title), Lower(searchTerm)) || Includes(Lower(a.message), Lower(searchTerm))
  {
  }

  /** No search term and both filters at "all" show every alert. */
  lemma UnfilteredShowsAll(alerts: seq<Alert>)
    ensures FilteredAlerts(alerts, "", "all", "all") == alerts
  {
    forall a | a in alerts
      ensures Shown(a, "", "all", "all")
    {
      EmptySearchMatches(a.title);
    }
    FilterKeepsAll(alerts, (a: Alert) => Shown(a, "", "all", "all"));
  }

  /** `unreadCount`. */
  function UnreadCount(alerts: seq<Alert>): (n: nat)
    ensures n <= |alerts|
    ensures n == 0 <==> forall a :: a in alerts ==> a.isRead
  {
    var r := Filter(alerts, (a: Alert) => !a.isRead);
    assert r != [] ==> r[0] in r;
    |r|
  }

  /** `criticalCount`. */
  function CriticalCount(alerts: seq<Alert>): (n: nat)
    ensures n <= |alerts|
    ensures n == 0 <==> forall a :: a in alerts ==> a.severity != Critical
  {
    var r := Filter(alerts, (a: Alert) => a.severity == Critical);
    assert r != [] ==> r[0] in r;
    |r|
  }

  /** Marking an alert read never raises the unread count, and afterwards no
      alert with that id is unread. */
  lemma {:induction false} MarkReadLowersUnread(alerts: seq<Alert>, id: string)
    ensures UnreadCount(AdminDashboard.MarkRead(alerts, id)) <= UnreadCount(alerts)
    ensures forall a :: a in AdminDashboard.MarkRead(alerts, id) && a.id == id ==> a.isRead
  {
    if alerts != [] {
      var r := AdminDashboard.MarkRead(alerts, id);
      var tail := AdminDashboard.MarkRead(alerts[1..], id);
      assert r == [r[0]] + tail by {
        assert |r[1..]| == |tail|;
        forall i | 0 <= i < |tail| ensures r[1..][i] == tail[i] {
        }
      }
      MarkReadLowersUnread(alerts[1..], id);
      assert Filter(r, (a: Alert) => !a.isRead)
          == (if !r[0].isRead then [r[0]] else []) + Filter(tail, (a: Alert) => !a.isRead);
    }
  }

  /** `getSeverityColor`: background, text and border classes of the
      severity's colour family, grey for any other string. */
  function SeverityColor(severity: string): (c: string)
    ensures c == Toned(Tone(severity))
  {
    if severity == "low" then (GreenToned(); "bg-green-100 text-green-800 border-green-200")
    else if severity == "medium" then (YellowToned(); "bg-yellow-100 text-yellow-800 border-yellow-200")
    else if severity == "high" then (OrangeToned(); "bg-orange-100 text-orange-800 border-orange-200")
    else if severity == "critical" then (RedToned(); "bg-red-100 text-red-800 border-red-200")
    else (GrayToned(); "bg-gray-100 text-gray-800 border-gray-200")
  }

  const TypeGrey := "bg-gray-100 text-gray-800"

  const ColouredTypes: set<string> := {"delay", "incident", "system", "payment"}

  /** `getTypeColor`: grey exactly for a type outside the table. */
  function TypeColor(kind: string): (c: string)
    ensures c == TypeGrey <==> kind !in ColouredTypes
  {
    if kind == "delay" then "bg-yellow-100 text-yellow-800"
    else if kind == "incident" then "bg-red-100 text-red-800"
    else if kind == "system" then "bg-blue-100 text-blue-800"
    else if kind == "payment" then "bg-green-100 text-green-800"
    else TypeGrey
  }

  /** Each alert type of the table has a colour of its own. */
  lemma TypeColorsDistinct(k: AlertType, l: AlertType)
    requires k != l
    ensures TypeColor(AlertTypeName(k)) != TypeColor(AlertTypeName(l))
    ensures AlertTypeName(k) in ColouredTypes
  {
  }

  /** The border an unread alert is drawn with: `split(' ')[2]` of its
      severity colour. For every severity string the lookup's default
      covers, listed or not, that third class exists and is a `border-*`
      class, so an unread alert always gets a border colour. Names inherited
      from `Object.prototype` fall outside the default and are not
      modelled. */
  function UnreadBorder(severity: string): (b: string)
    ensures |b| > 7 && b[..7] == "border-"
  {
    ToneHasNoSpace(severity);
    TonedBorder(Tone(severity));
    Split(SeverityColor(severity), ' ')[2]
  }

  lemma ToneHasNoSpace(severity: string)
    ensures ' ' !in Tone(severity)
  {
  }

  /** The third class of a colour family's string is its border class. */
  lemma TonedBorder(tone: string)
    requires ' ' !in tone
    ensures var parts := Split(Toned(tone), ' ');
      |parts| > 2 && |parts[2]| > 7 && parts[2][..7] == "border-"
  {
    TonedSplit(tone);
    var border := "border-" + tone + "-200";
    assert border[..7] == "border-";
  }

  /** The colour family `getSeverityColor` uses for a severity. */
  function Tone(severity: string): string {
    if severity == "low" then "green"
    else if severity == "medium" then "yellow"
    else if severity == "high" then "orange"
    else if severity == "critical" then "red"
    else "gray"
  }

  /** Background, text and border classes of one colour family. */
  function Toned(tone: string): string {
    ("bg-" + tone + "-100") + " " + ("text-" + tone + "-800") + " " + ("border-" + tone + "-200")
  }

  /** The table's five strings, each spelled as its colour family. */
  lemma GreenToned()
    ensures Toned("green") == "bg-green-100 text-green-800 border-green-200"
  {
    var bg, text, border := "bg-" + "green" + "-100", "text-" + "green" + "-800", "border-" + "green" + "-200";
    assert bg == "bg-green-100" && text == "text-green-800" && border == "border-green-200";
  }

  lemma YellowToned()
    ensures Toned("yellow") == "bg-yellow-100 text-yellow-800 border-yellow-200"
  {
    var bg, text, border := "bg-" + "yellow" + "-100", "text-" + "yellow" + "-800", "border-" + "yellow" + "-200";
    assert bg == "bg-yellow-100" && text == "text-yellow-800" && border == "border-yellow-200";
  }

  lemma OrangeToned()
    ensures Toned("orange") == "bg-orange-100 text-orange-800 border-orange-200"
  {
    var bg, text, border := "bg-" + "orange" + "-100", "text-" + "orange" + "-800", "border-" + "orange" + "-200";
    assert bg == "bg-orange-100" && text == "text-orange-800" && border == "border-orange-200";
  }

  lemma RedToned()
    ensures Toned("red") == "bg-red-100 text-red-800 border-red-200"
  {
    var bg, text, border := "bg-" + "red" + "-100", "text-" + "red" + "-800", "border-" + "red" + "-200";
    assert bg == "bg-red-100" && text == "text-red-800" && border == "border-red-200";
  }

  lemma GrayToned()
    ensures Toned("gray") == "bg-gray-100 text-gray-800 border-gray-200"
  {
    var bg, text, border := "bg-" + "gray" + "-100", "text-" + "gray" + "-800", "border-" + "gray" + "-200";
    assert bg == "bg-gray-100" && text == "text-gray-800" && border == "border-gray-200";
  }

  lemma TonedSplit(tone: string)
    requires ' ' !in tone
    ensures Split(Toned(tone), ' ') == ["bg-" + tone + "-100", "text-" + tone + "-800", "border-" + tone + "-200"]
  {
    SplitThree("bg-" + tone + "-100", "text-" + tone + "-800", "border-" + tone + "-200", ' ');
  }

  /** The create-alert form as it opens and as it is reset. */
  const BlankDraft := AlertData(System, MediumSeverity, "", "", "", "", false)

  /** The form and dialog state of the alerts page. */
  class AlertsPage {
    var searchTerm: string
    var severityFilter: string
    var typeFilter: string
    var showCreateModal: bool
    var newAlert: AlertData

    constructor ()
      ensures searchTerm == "" && severityFilter == "all" && typeFilter == "all"
      ensures !showCreateModal && newAlert == BlankDraft
    {
      searchTerm, severityFilter, typeFilter := "", "all", "all";
      showCreateModal := false;
      newAlert := BlankDraft;
    }

    /** The alerts this page lists. */
    function Visible(alerts: seq<Alert>): seq<Alert>
      reads this
    {
      FilteredAlerts(alerts, searchTerm, severityFilter, typeFilter)
    }

    /** Editing the form: any field of the draft may change. */
    method EditDraft(draft: AlertData)
      modifies this
      ensures newAlert == draft
      ensures showCreateModal == old(showCreateModal)
      ensures searchTerm == old(searchTerm) && severityFilter == old(severityFilter) && typeFilter == old(typeFilter)
    {
      newAlert := draft;
    }

    /** `handleCreateAlert`: hands the current draft to the create callback
        (returned as `submitted`), resets the form and closes the dialog. */
    method HandleCreateAlert() returns (submitted: AlertData)
      modifies this
      ensures submitted == old(newAlert)
      ensures newAlert == BlankDraft && !showCreateModal
      ensures searchTerm == old(searchTerm) && severityFilter == old(severityFilter) && typeFilter == old(typeFilter)
    {
      submitted := newAlert;
      newAlert := BlankDraft;
      showCreateModal := false;
    }
  }
}
