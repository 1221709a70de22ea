/** The active-link rule of frontend/src/components/admin/Sidebar.jsx. */
module Sidebar {
  import opened Common

  datatype NavItem = NavItem(name: string, path: string)

  /** `navItems`, without the icons. */
  const NavItems: seq<NavItem> := [
    NavItem("Dashboard", "/admin/dashboard"),
    NavItem("Vehicles", "/admin/vehicles"),
    NavItem("service-logs", "/admin/service-logs"),
    NavItem("Maintenance Tasks", "/admin/maintenance")
  ]

  /** An item is active on its own path and on every path below it. */
  predicate IsActive(pathname: string, path: string) {
    pathname == path || StartsWith(pathname, path + "/")
  }

  /** An active item's path is a prefix of the current path. */
  lemma ActivePathIsPrefix(pathname: string, path: string)
    requires IsActive(pathname, path)
    ensures StartsWith(pathname, path)
  {
    if pathname != path {
      assert pathname[..|path|] == (path + "/")[..|path|];
    }
  }

  /** A path that extends the item's path without a '/' boundary is not
      below it. */
  lemma NoBoundaryNotActive(path: string, rest: string)
    requires rest != "" && rest[0] != '/'
    ensures !IsActive(path + rest, path)
  {
    var pathname := path + rest;
    assert pathname[|path|] == rest[0];
    assert (path + "/")[|path|] == '/';
  }

  lemma VehiclesXNotActive()
    ensures !IsActive("/admin/vehiclesX", "/admin/vehicles")
  {
    NoBoundaryNotActive("/admin/vehicles", "X");
    assert "/admin/vehicles" + "X" == "/admin/vehiclesX";
  }

  /** The four paths part at their eighth character. */
  lemma PathsDifferAtSeven(i: nat, j: nat)
    requires i < |NavItems| && j < |NavItems| && i != j
    ensures |NavItems[i].path| > 7 && |NavItems[j].path| > 7
    ensures NavItems[i].path[7] != NavItems[j].path[7]
  {
    assert NavItems[0].path[7] == 'd';
    assert NavItems[1].path[7] == 'v';
    assert NavItems[2].path[7] == 's';
    assert NavItems[3].path[7] == 'm';
  }

  /** Whatever the current path, at most one sidebar item is highlighted. */
  lemma AtMostOneActive(pathname: string, i: nat, j: nat)
    requires i < |NavItems| && j < |NavItems|
    requires IsActive(pathname, NavItems[i].path) && IsActive(pathname, NavItems[j].path)
    ensures i == j
  {
    if i != j {
      PathsDifferAtSeven(i, j);
      ActivePathIsPrefix(pathname, NavItems[i].path);
      ActivePathIsPrefix(pathname, NavItems[j].path);
    }
  }
}
