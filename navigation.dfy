/** Navigation-item resolution (`buildNavItems` in
    packages/core/composables/navigation.ts): each configured item gets its
    translated label, its locale-aware route, and an `active` flag that holds
    when that resolved route is exactly the current path. The translation
    function and the locale-path function are parameters. */
module Navigation {

  datatype NavItem = NavItem(labelKey: string, icon: string, route: string)

  /** The item with the fields `buildNavItems` adds. (`label` is a Dafny
      keyword, so the translated label is `labelText`.) */
  datatype ResolvedNavItem = ResolvedNavItem(
    labelKey: string,
    icon: string,
    route: string,
    labelText: string,
    resolvedRoute: string,
    active: bool)

  function ResolveItem(item: NavItem, currentPath: string, t: string -> string, localePath: string -> string): ResolvedNavItem
  {
    var resolvedRoute := localePath(item.route);
    ResolvedNavItem(item.labelKey, item.icon, item.route, t(item.labelKey), resolvedRoute, currentPath == resolvedRoute)
  }

  /** `items.map(...)`: output `i` is resolved from input `i` alone. */
  function BuildNavItems(items: seq<NavItem>, currentPath: string, t: string -> string, localePath: string -> string): (r: seq<ResolvedNavItem>)
    ensures |r| == |items|
    ensures forall i :: 0 <= i < |items| ==> r[i] == ResolveItem(items[i], currentPath, t, localePath)
    decreases |items|
  {
    if items == [] then []
    else [ResolveItem(items[0], currentPath, t, localePath)] + BuildNavItems(items[1..], currentPath, t, localePath)
  }

  /** Every output keeps its item's key, icon and raw route, carries the
      translated label and the localized route, and is active exactly when
      the current path equals that localized route. */
  lemma ResolvedFields(items: seq<NavItem>, currentPath: string, t: string -> string, localePath: string -> string, i: nat)
    requires i < |items|
    ensures var r := BuildNavItems(items, currentPath, t, localePath)[i];
      && r.labelKey == items[i].labelKey && r.icon == items[i].icon && r.route == items[i].route
      && r.labelText == t(items[i].labelKey)
      && r.resolvedRoute == localePath(items[i].route)
      && (r.active <==> currentPath == localePath(items[i].route))
  {
  }

  lemma EmptyGivesEmpty(currentPath: string, t: string -> string, localePath: string -> string)
    ensures BuildNavItems([], currentPath, t, localePath) == []
  {
  }

  /** When no resolved route equals the current path, no item is active. */
  lemma NoMatchAllInactive(items: seq<NavItem>, currentPath: string, t: string -> string, localePath: string -> string)
    requires forall i :: 0 <= i < |items| ==> localePath(items[i].route) != currentPath
    ensures forall i :: 0 <= i < |items| ==> !BuildNavItems(items, currentPath, t, localePath)[i].active
  {
  }

  /** When the resolved routes are pairwise distinct, at most one item is
      active: the one whose resolved route is the current path. */
  lemma AtMostOneActive(items: seq<NavItem>, currentPath: string, t: string -> string, localePath: string -> string, i: nat, j: nat)
    requires forall a, b :: 0 <= a < b < |items| ==> localePath(items[a].route) != localePath(items[b].route)
    requires i < |items| && j < |items|
    requires BuildNavItems(items, currentPath, t, localePath)[i].active
    requires BuildNavItems(items, currentPath, t, localePath)[j].active
    ensures i == j
  {
  }

  /** Matching is exact, not by prefix: the current path `/shop/item/1` does
      not activate an item routed to `/shop`. */
  lemma PrefixDoesNotActivate(t: string -> string, localePath: string -> string)
    requires localePath("/shop") == "/shop"
    ensures !BuildNavItems([NavItem("nav.shop", "lucide:search", "/shop")], "/shop/item/1", t, localePath)[0].active
  {
  }

  /** `active` compares against the localized route: with a locale prefix
      `/el`, the path `/shop` does not activate the `/shop` item, while
      `/el/shop` does. */
  lemma ActiveUsesLocalizedRoute(t: string -> string, localePath: string -> string)
    requires localePath("/shop") == "/el/shop"
    ensures !BuildNavItems([NavItem("nav.shop", "lucide:search", "/shop")], "/shop", t, localePath)[0].active
    ensures BuildNavItems([NavItem("nav.shop", "lucide:search", "/shop")], "/el/shop", t, localePath)[0].active
  {
  }
}
