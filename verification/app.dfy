/** The application's route table and its two guards. A location is given as its path
    segments (`/superadmin/tenants/new` is `["superadmin", "tenants", "new"]`). */
module App {
  import opened Common
  import opened SupabaseAuth

  datatype Seg = Lit(text: string) | Param

  datatype Guard = Open | SignedIn | SuperAdminOnly

  datatype Page =
    | Home | Catalog | ProductDetail | Contact | Login
    | AdminDashboard | AdminCatalog | AdminBookings | AdminLeads
    | SuperAdminDashboard | SuperAdminTenants | SuperAdminTenantDetail

  datatype Route = Route(pattern: seq<Seg>, guard: Guard, page: Page)

  /** The declared routes, public first, then the tenant admin's, then the super admin's. */
  const Routes: seq<Route> := [
    Route([], Open, Home),
    Route([Lit("catalog")], Open, Catalog),
    Route([Lit("catalog"), Param], Open, ProductDetail),
    Route([Lit("contact")], Open, Contact),
    Route([Lit("login")], Open, Login),
    Route([Lit("admin")], SignedIn, AdminDashboard),
    Route([Lit("admin"), Lit("catalog")], SignedIn, AdminCatalog),
    Route([Lit("admin"), Lit("bookings")], SignedIn, AdminBookings),
    Route([Lit("admin"), Lit("leads")], SignedIn, AdminLeads),
    Route([Lit("superadmin")], SuperAdminOnly, SuperAdminDashboard),
    Route([Lit("superadmin"), Lit("tenants")], SuperAdminOnly, SuperAdminTenants),
    Route([Lit("superadmin"), Lit("tenants"), Param], SuperAdminOnly, SuperAdminTenantDetail)
  ]

  /** A literal matches itself; a parameter matches any non-empty segment. */
  predicate SegMatches(p: Seg, s: string) {
    match p
    case Lit(t) => s == t
    case Param => s != ""
  }

  predicate Matches(pattern: seq<Seg>, segs: seq<string>) {
    |pattern| == |segs| && forall i :: 0 <= i < |segs| ==> SegMatches(pattern[i], segs[i])
  }

  /** The first route from index `k` on that matches, if any. */
  function FindRoute(segs: seq<string>, k: nat): (r: Option<nat>)
    requires k <= |Routes|
    ensures r.Some? ==> k <= r.value < |Routes| && Matches(Routes[r.value].pattern, segs)
    ensures r.Some? ==> forall l :: k <= l < r.value ==> !Matches(Routes[l].pattern, segs)
    ensures r.None? <==> forall l :: k <= l < |Routes| ==> !Matches(Routes[l].pattern, segs)
    decreases |Routes| - k
  {
    if k == |Routes| then None
    else if Matches(Routes[k].pattern, segs) then Some(k)
    else FindRoute(segs, k + 1)
  }

  /** No location matches two declared routes, so the router's choice does not depend on how
      it ranks them. */
  lemma RoutesDisjoint(segs: seq<string>, k: nat, l: nat)
    requires k < l < |Routes|
    ensures !(Matches(Routes[k].pattern, segs) && Matches(Routes[l].pattern, segs))
  {
    var p, q := Routes[k].pattern, Routes[l].pattern;
    if |p| == |q| && |p| == |segs| {
      // Two routes of the same length carry different literals at the first or second segment.
      var i := if p[0] != q[0] then 0 else 1;
      assert p[i].Lit? && q[i].Lit? && p[i] != q[i];
      assert !(SegMatches(p[i], segs[i]) && SegMatches(q[i], segs[i]));
    }
  }

  /** Whichever route a location matches is the one the search finds. */
  lemma MatchIsFound(segs: seq<string>, k: nat)
    requires k < |Routes| && Matches(Routes[k].pattern, segs)
    ensures FindRoute(segs, 0) == Some(k)
  {
    forall l | 0 <= l < |Routes| && l != k ensures !Matches(Routes[l].pattern, segs) {
      if l < k {
        RoutesDisjoint(segs, l, k);
      } else {
        RoutesDisjoint(segs, k, l);
      }
    }
  }

  lemma AllMatchesFound(segs: seq<string>)
    ensures forall k | 0 <= k < |Routes| && Matches(Routes[k].pattern, segs) :: FindRoute(segs, 0) == Some(k)
  {
    forall k | 0 <= k < |Routes| && Matches(Routes[k].pattern, segs) ensures FindRoute(segs, 0) == Some(k) {
      MatchIsFound(segs, k);
    }
  }

  /** What a route element renders. */
  datatype Outcome = Spinner | Redirect(to: string) | Show(page: Page) | Crash

  /** `ProtectedRoute`: spinner while the session loads, the login page without a user,
      otherwise the page. */
  function ProtectedRoute(auth: ContextValue, page: Page): (o: Outcome)
    ensures o.Spinner? <==> auth.loading
    ensures o == Redirect("/login") <==> !auth.loading && auth.user.None?
    ensures o.Show? <==> !auth.loading && auth.user.Some?
    ensures o.Show? ==> o.page == page
    ensures o != Crash
  {
    if auth.loading then Spinner
    else if auth.user.None? then Redirect("/login")
    else Show(page)
  }

  datatype Roles = Roles(isSuperAdmin: bool)

  /** `SuperAdminRoute`: spinner while loading, home without a user; with a user it reads
      `roles.isSuperAdmin`, which throws when `roles` is absent. */
  function SuperAdminRoute(auth: ContextValue, roles: Option<Roles>, page: Page): (o: Outcome)
    ensures o.Spinner? <==> auth.loading
    ensures o.Show? <==> !auth.loading && auth.user.Some? && roles.Some? && roles.value.isSuperAdmin
    ensures o.Show? ==> o.page == page
    ensures o.Redirect? ==> o.to == "/"
    ensures o.Crash? <==> !auth.loading && auth.user.Some? && roles.None?
  {
    if auth.loading then Spinner
    else if auth.user.None? then Redirect("/")
    else if roles.None? then Crash
    else if !roles.value.isSuperAdmin then Redirect("/")
    else Show(page)
  }

  /** The element of a matched route, guarded as declared. The guard of the super-admin
      routes reads `roles` from the auth context, whose value has no such member, so it always
      receives none. */
  function Element(route: Route, auth: ContextValue): (o: Outcome)
    ensures o.Show? ==> o.page == route.page
    ensures route.guard == Open ==> o == Show(route.page)
    ensures route.guard == SignedIn ==> (o.Show? <==> !auth.loading && auth.user.Some?)
    ensures route.guard == SuperAdminOnly ==> !o.Show?
    ensures route.guard == SuperAdminOnly && !auth.loading && auth.user.Some? ==> o == Crash
  {
    match route.guard
    case Open => Show(route.page)
    case SignedIn => ProtectedRoute(auth, route.page)
    case SuperAdminOnly => SuperAdminRoute(auth, None, route.page)
  }

  /** What the application renders at a location: the element of the route it matches, or a
      redirect home from the catch-all route. Since no location matches two routes, the
      outcome does not depend on how the router ranks them. */
  function Navigate(segs: seq<string>, auth: ContextValue): (o: Outcome)
    ensures (forall k | 0 <= k < |Routes| :: !Matches(Routes[k].pattern, segs)) ==> o == Redirect("/")
    ensures forall k | 0 <= k < |Routes| && Matches(Routes[k].pattern, segs) :: o == Element(Routes[k], auth)
  {
    AllMatchesFound(segs);
    match FindRoute(segs, 0)
    case None => Redirect("/")
    case Some(k) => Element(Routes[k], auth)
  }

  /** The guard of a route is decided by its first segment. */
  lemma GuardByFirstSegment(k: nat)
    requires k < |Routes|
    ensures Routes[k].guard == SignedIn <==> |Routes[k].pattern| > 0 && Routes[k].pattern[0] == Lit("admin")
    ensures Routes[k].guard == SuperAdminOnly <==>
      |Routes[k].pattern| > 0 && Routes[k].pattern[0] == Lit("superadmin")
  {
  }

  /** At a location that matches a route, its first segment picks the guard. */
  lemma MatchedGuard(segs: seq<string>, k: nat)
    requires k < |Routes| && Matches(Routes[k].pattern, segs) && |segs| > 0
    ensures Routes[k].guard == SignedIn <==> segs[0] == "admin"
    ensures Routes[k].guard == SuperAdminOnly <==> segs[0] == "superadmin"
  {
    GuardByFirstSegment(k);
    assert Routes[k].pattern[0].Lit?;
    assert SegMatches(Routes[k].pattern[0], segs[0]);
  }

  /** An `/admin` page is shown only to a signed-in user once the session has loaded. */
  lemma AdminPagesNeedUser(segs: seq<string>, auth: ContextValue)
    requires |segs| > 0 && segs[0] == "admin"
    ensures Navigate(segs, auth).Show? ==> !auth.loading && auth.user.Some?
  {
    var r := FindRoute(segs, 0);
    if r.Some? {
      MatchedGuard(segs, r.value);
    }
  }

  /** No `/superadmin` location ever shows its page: without a user it redirects home, and
      with one the guard reads an absent `roles` and fails. */
  lemma SuperAdminPagesNeverShown(segs: seq<string>, auth: ContextValue)
    requires |segs| > 0 && segs[0] == "superadmin"
    ensures !Navigate(segs, auth).Show?
    ensures !auth.loading && auth.user.Some? && FindRoute(segs, 0).Some? ==> Navigate(segs, auth) == Crash
  {
    var r := FindRoute(segs, 0);
    if r.Some? {
      MatchedGuard(segs, r.value);
    }
  }

  /** With `roles.isSuperAdmin` supplied, the guard would let a signed-in super admin through. */
  lemma SuperAdminGuardWithRoles(auth: ContextValue, page: Page)
    requires !auth.loading && auth.user.Some?
    ensures SuperAdminRoute(auth, Some(Roles(true)), page) == Show(page)
    ensures SuperAdminRoute(auth, Some(Roles(false)), page) == Redirect("/")
  {
  }

  /** The public pages render whatever the session. */
  lemma PublicPagesAlwaysShown(segs: seq<string>, auth: ContextValue)
    requires FindRoute(segs, 0).Some? && Routes[FindRoute(segs, 0).value].guard == Open
    ensures Navigate(segs, auth) == Show(Routes[FindRoute(segs, 0).value].page)
  {
  }

  /** The sidebar's global-users link has no route and lands on the home redirect. */
  lemma UsersLinkRedirectsHome(auth: ContextValue)
    ensures Navigate(["superadmin", "users"], auth) == Redirect("/")
  {
    var segs := ["superadmin", "users"];
    forall l | 0 <= l < |Routes| ensures !Matches(Routes[l].pattern, segs) {
      if |Routes[l].pattern| == 2 {
        assert !SegMatches(Routes[l].pattern[1], segs[1]) || !SegMatches(Routes[l].pattern[0], segs[0]);
      }
    }
  }

  /** Every tenant-detail location, `new` included, reaches the detail page's guard. */
  lemma TenantDetailRoute(id: string)
    requires id != ""
    ensures FindRoute(["superadmin", "tenants", id], 0) == Some(11)
  {
    var segs := ["superadmin", "tenants", id];
    assert Matches(Routes[11].pattern, segs);
    forall l | 0 <= l < 11 ensures !Matches(Routes[l].pattern, segs) {
      assert |Routes[l].pattern| != 3;
    }
  }
}
