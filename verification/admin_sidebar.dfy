/** The tenant admin sidebar: four links, of which the one matching the current location is
    highlighted. */
module AdminSidebar {
  import opened Common

  datatype MenuItem = MenuItem(to: string, text: string)

  /** The dashboard link, which is highlighted only on its own path. */
  const Root := "/admin"

  const MenuItems: seq<MenuItem> := [
    MenuItem("/admin", "Dashboard"),
    MenuItem("/admin/catalog", "Catálogo"),
    MenuItem("/admin/bookings", "Reservas"),
    MenuItem("/admin/leads", "Leads")
  ]

  /** `isActive`: the root link on an exact match, every other link when the location starts
      with its path (a plain string prefix, not a path-segment one). */
  predicate IsActive(pathname: string, path: string)
    ensures path == Root ==> (IsActive(pathname, path) <==> pathname == Root)
    ensures path != Root ==>
      (IsActive(pathname, path) <==> |path| <= |pathname| && pathname[..|path|] == path)
  {
    if path == Root then pathname == path else path <= pathname
  }

  /** The root link is highlighted exactly on `/admin`, not on its sub-pages. */
  lemma RootOnlyOnItsOwnPath(pathname: string)
    ensures IsActive(pathname, Root) <==> pathname == Root
    ensures !IsActive(Root + "/catalog", Root)
  {
    assert Root + "/catalog" != Root by {
      assert |Root + "/catalog"| != |Root|;
    }
  }

  /** A non-root link stays highlighted on every location below it, and on any location that
      merely extends its text. */
  lemma SubpagesStayActive(i: nat, pathname: string, suffix: string)
    requires 0 < i < |MenuItems|
    requires IsActive(pathname, MenuItems[i].to)
    ensures IsActive(pathname + suffix, MenuItems[i].to)
    ensures IsActive(MenuItems[i].to + suffix, MenuItems[i].to)
  {
    var path := MenuItems[i].to;
    assert path == (pathname + suffix)[..|path|];
    assert path == (path + suffix)[..|path|];
  }

  /** Whatever the location, no two links are highlighted together: the root link needs the
      location to be `/admin` itself, and the others branch apart at position 7, right after
      `/admin/`. */
  lemma AtMostOneActive(pathname: string, i: nat, j: nat)
    requires i < j < |MenuItems|
    ensures !(IsActive(pathname, MenuItems[i].to) && IsActive(pathname, MenuItems[j].to))
  {
    if i == 0 {
      assert |MenuItems[j].to| > |Root|;
    } else {
      DifferAt(MenuItems[i].to, MenuItems[j].to, 7, pathname);
    }
  }

  /** On each link's own page exactly that link is highlighted. */
  lemma OwnPageHighlightsOwnLink(i: nat, j: nat)
    requires i < |MenuItems| && j < |MenuItems|
    ensures IsActive(MenuItems[i].to, MenuItems[j].to) <==> i == j
  {
    if i != j {
      if i < j {
        AtMostOneActive(MenuItems[i].to, i, j);
      } else {
        AtMostOneActive(MenuItems[i].to, j, i);
      }
    }
  }
}
