/** The admin sidebar: a fixed menu filtered by the user's role
    (src/components/admin/AdminLayout.tsx). */
module AdminLayout {
  import opened Seqs
  import opened AdminTypes

  datatype MenuItem = MenuItem(id: string, caption: string, roles: seq<Role>)

  /** `menuItems`. */
  const MenuItems: seq<MenuItem> := [
    MenuItem("dashboard", "Dashboard", [Admin, Courier]),
    MenuItem("operations", "Operations", [Admin, Courier]),
    MenuItem("users", "Users", [Admin]),
    MenuItem("financial", "Financial", [Admin]),
    MenuItem("alerts", "Alerts", [Admin, Courier]),
    MenuItem("settings", "Settings", [Admin])
  ]

  /** `filteredMenuItems`. */
  function VisibleItems(userRole: Role): (items: seq<MenuItem>)
    ensures forall item :: item in items <==> item in MenuItems && userRole in item.roles
    ensures IsSubsequence(items, MenuItems)
  {
    FilterIsSubsequence(MenuItems, (item: MenuItem) => userRole in item.roles);
    Filter(MenuItems, (item: MenuItem) => userRole in item.roles)
  }

  function Ids(items: seq<MenuItem>): seq<string> {
    MapSeq(items, (item: MenuItem) => item.id)
  }

  /** An administrator sees the whole menu, in order. */
  lemma AdminSeesEverything()
    ensures VisibleItems(Admin) == MenuItems
  {
    FilterKeepsAll(MenuItems, (item: MenuItem) => Admin in item.roles);
  }

  /** Filtering six items of which the first, second and fifth pass. */
  lemma FilterOneTwoFive(m: seq<MenuItem>, p: MenuItem -> bool)
    requires |m| == 6 && p(m[0]) && p(m[1]) && !p(m[2]) && !p(m[3]) && p(m[4]) && !p(m[5])
    ensures Filter(m, p) == [m[0], m[1], m[4]]
  {
    assert Filter(m[5..], p) == [];
    assert Filter(m[4..], p) == [m[4]];
    assert Filter(m[3..], p) == [m[4]];
    assert Filter(m[2..], p) == [m[4]];
    assert Filter(m[1..], p) == [m[1], m[4]];
  }

  /** A courier sees the dashboard, operations and alerts, in that order. */
  lemma CourierSeesThree()
    ensures Ids(VisibleItems(Courier)) == ["dashboard", "operations", "alerts"]
  {
    CourierItems();
    IdsOfThree(MenuItems[0], MenuItems[1], MenuItems[4]);
  }

  lemma IdsOfThree(a: MenuItem, b: MenuItem, c: MenuItem)
    ensures Ids([a, b, c]) == [a.id, b.id, c.id]
  {
  }

  /** The courier's items are the first, second and fifth of the menu. */
  lemma CourierItems()
    ensures VisibleItems(Courier) == [MenuItems[0], MenuItems[1], MenuItems[4]]
  {
    FilterOneTwoFive(MenuItems, (item: MenuItem) => Courier in item.roles);
  }

  /** A client, and any role outside admin and courier, sees no item. */
  lemma OthersSeeNothing(userRole: Role)
    requires userRole != Admin && userRole != Courier
    ensures VisibleItems(userRole) == []
  {
  }

  /** In the menu table, users, financial and settings list the
      administrator alone. */
  lemma AdminOnlyRoles(item: MenuItem)
    requires item in MenuItems && item.id in {"users", "financial", "settings"}
    ensures item.roles == [Admin]
  {
  }

  /** Users, financial and settings are shown to administrators only. */
  lemma AdminOnlyItems(userRole: Role, item: MenuItem)
    requires item in VisibleItems(userRole) && item.id in {"users", "financial", "settings"}
    ensures userRole == Admin
  {
    AdminOnlyRoles(item);
  }
}
