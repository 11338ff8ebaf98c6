/** The super-admin sidebar: three links, highlighted by the same rule as the tenant admin's. */
module SuperAdminSidebar {
  import opened Common

  datatype MenuItem = MenuItem(to: string, text: string)

  /** The dashboard link, which is highlighted only on its own path. */
  const Root := "/superadmin"

  const MenuItems: seq<MenuItem> := [
    MenuItem("/superadmin", "Dashboard"),
    MenuItem("/superadmin/tenants", "Tenants"),
    MenuItem("/superadmin/users", "Usuarios Globales")
  ]

  /** `isActive`: the root link on an exact match, every other link when the location starts
      with its path. */
  predicate IsActive(pathname: string, path: string)
    ensures path == Root ==> (IsActive(pathname, path) <==> pathname == Root)
    ensures path != Root ==>
      (IsActive(pathname, path) <==> |path| <= |pathname| && pathname[..|path|] == path)
  {
    if path == Root then pathname == path else path <= pathname
  }

  /** The root link is highlighted exactly on `/superadmin`. */
  lemma RootOnlyOnItsOwnPath(pathname: string)
    ensures IsActive(pathname, Root) <==> pathname == Root
  {
  }

  /** The tenants and users links are highlighted exactly on the locations that start with
      their path. */
  lemma SubpagesActiveExactly(i: nat, pathname: string)
    requires 0 < i < |MenuItems|
    ensures IsActive(pathname, MenuItems[i].to) <==> MenuItems[i].to <= pathname
  {
  }

  /** Whatever the location, no two links are highlighted together: the others branch apart
      at position 12, right after `/superadmin/`. */
  lemma AtMostOneActive(pathname: string, i: nat, j: nat)
    requires i < j < |MenuItems|
    ensures !(IsActive(pathname, MenuItems[i].to) && IsActive(pathname, MenuItems[j].to))
  {
    if i == 0 {
      assert |MenuItems[j].to| > |Root|;
    } else {
      DifferAt(MenuItems[i].to, MenuItems[j].to, 12, pathname);
    }
  }

  /** A tenant's detail page, including the new-tenant form, highlights the Tenants link and
      nothing else. */
  lemma TenantPagesHighlightTenants(id: string)
    ensures IsActive("/superadmin/tenants/" + id, MenuItems[1].to)
    ensures !IsActive("/superadmin/tenants/" + id, MenuItems[0].to)
    ensures !IsActive("/superadmin/tenants/" + id, MenuItems[2].to)
  {
    var p := "/superadmin/tenants/" + id;
    assert MenuItems[1].to == p[..|MenuItems[1].to|];
    AtMostOneActive(p, 0, 1);
    AtMostOneActive(p, 1, 2);
  }

  /** The prefix test is on characters, not path segments: a location that only extends the
      text of a link also highlights it. */
  lemma PrefixIsTextual()
    ensures IsActive("/superadmin/tenantsX", "/superadmin/tenants")
  {
    assert "/superadmin/tenants" == "/superadmin/tenantsX"[..19];
  }
}
