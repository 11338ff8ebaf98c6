/** The super-admin dashboard: tenant count, active count and a user total summed over the
    tenants' `tenant_users` aggregate, and the four cards that show them. */
module SuperAdminDashboard {
  import opened Common
  import opened Records

  datatype Stats = Stats(totalTenants: nat, activeTenants: nat, totalUsers: nat)

  const ZeroStats := Stats(0, 0, 0)

  predicate IsActive(t: Tenant) {
    t.isActive
  }

  /** `curr.tenant_users?.[0]?.count || 0`. */
  function UsersOf(t: Tenant): nat {
    if t.users.Some? && |t.users.value| > 0 && t.users.value[0].count.Some?
    then t.users.value[0].count.value
    else 0
  }

  /** `tenants.reduce((acc, curr) => acc + UsersOf(curr), 0)`: a left fold. No tenant's count
      exceeds the total, and an empty list totals zero. */
  function TotalUsers(tenants: seq<Tenant>): (total: nat)
    ensures forall t :: t in tenants ==> UsersOf(t) <= total
    ensures tenants == [] ==> total == 0
  {
    if tenants == [] then 0
    else TotalUsers(tenants[..|tenants| - 1]) + UsersOf(tenants[|tenants| - 1])
  }

  /** The same sum taken from the front. */
  function SumUsers(tenants: seq<Tenant>): nat {
    if tenants == [] then 0 else UsersOf(tenants[0]) + SumUsers(tenants[1..])
  }

  /** The fold adds up every tenant's count, so it equals the sum from the front. */
  lemma {:induction false} TotalUsersIsSum(tenants: seq<Tenant>)
    ensures TotalUsers(tenants) == SumUsers(tenants)
    decreases |tenants|
  {
    if tenants != [] {
      var init := tenants[..|tenants| - 1];
      TotalUsersIsSum(init);
      if init != [] {
        SumUsersSnoc(init, tenants[|tenants| - 1]);
        assert init + [tenants[|tenants| - 1]] == tenants;
      }
    }
  }

  lemma {:induction false} SumUsersSnoc(tenants: seq<Tenant>, t: Tenant)
    ensures SumUsers(tenants + [t]) == SumUsers(tenants) + UsersOf(t)
    decreases |tenants|
  {
    if tenants != [] {
      assert (tenants + [t])[1..] == tenants[1..] + [t];
      SumUsersSnoc(tenants[1..], t);
    }
  }

  /** Concatenating tenant lists adds their user totals; a tenant with no count adds nothing. */
  lemma {:induction false} TotalUsersAppend(a: seq<Tenant>, b: seq<Tenant>)
    ensures TotalUsers(a + b) == TotalUsers(a) + TotalUsers(b)
    decreases |b|
  {
    if b == [] {
      assert a + b == a;
    } else {
      var init := b[..|b| - 1];
      assert (a + b)[..|a + b| - 1] == a + init;
      TotalUsersAppend(a, init);
    }
  }

  /** The positions of the active tenants. */
  function ActiveRows(tenants: seq<Tenant>): set<nat> {
    set i: nat | i < |tenants| && tenants[i].isActive
  }

  /** The counters for one fetch of the tenant list: the active counter is the number of
      active tenants and the user counter sums every tenant's user count. */
  function ComputeStats(tenants: seq<Tenant>): (s: Stats)
    ensures s.totalTenants == |tenants|
    ensures s.activeTenants == |ActiveRows(tenants)|
    ensures s.totalUsers == SumUsers(tenants)
    ensures s.activeTenants <= s.totalTenants
    ensures s.activeTenants == s.totalTenants <==> forall t :: t in tenants ==> t.isActive
    ensures tenants == [] ==> s == ZeroStats
  {
    FilterFullIffAllPass(tenants, IsActive);
    TotalUsersIsSum(tenants);
    assert PassingFrom(tenants, IsActive, 0) == ActiveRows(tenants);
    Stats(|tenants|, Count(tenants, IsActive), TotalUsers(tenants))
  }

  datatype StatCard = StatCard(title: string, value: nat)

  /** The four cards, in display order, under four different titles: tenants, active
      tenants, users, and connected domains, which repeats the active count. */
  function StatCards(s: Stats): (cards: seq<StatCard>)
    ensures |cards| == 4
    ensures forall i, j :: 0 <= i < j < |cards| ==> cards[i].title != cards[j].title
    ensures cards[0].value == s.totalTenants && cards[1].value == s.activeTenants
    ensures cards[2].value == s.totalUsers && cards[3].value == s.activeTenants
  {
    [ StatCard("Total Tenants", s.totalTenants),
      StatCard("Tenants Activos", s.activeTenants),
      StatCard("Usuarios Totales", s.totalUsers),
      StatCard("Dominios Conectados", s.activeTenants) ]
  }

  /** The connected-domains card repeats the active-tenant count. */
  lemma ConnectedDomainsShowsActive(s: Stats)
    ensures StatCards(s)[3] == StatCard("Dominios Conectados", s.activeTenants)
    ensures StatCards(s)[3].value == StatCards(s)[1].value
  {
  }

  /** The cards for one fetch: the tenant count, an active count that never exceeds it, and the
      user counts summed over the list. */
  lemma CardsOfFetch(tenants: seq<Tenant>)
    ensures StatCards(ComputeStats(tenants))[0].value == |tenants|
    ensures StatCards(ComputeStats(tenants))[1].value <= StatCards(ComputeStats(tenants))[0].value
    ensures StatCards(ComputeStats(tenants))[2].value == SumUsers(tenants)
  {
    TotalUsersIsSum(tenants);
  }

  class DashboardPage {
    var loading: bool
    var stats: Stats

    ghost predicate Valid()
      reads this
    {
      stats.activeTenants <= stats.totalTenants
    }

    constructor ()
      ensures Valid() && loading && stats == ZeroStats
    {
      loading := true;
      stats := ZeroStats;
    }

    /** `loadDashboardData`: a fetched list replaces the counters, a failure keeps them, and the
        spinner is cleared in every case. */
    method LoadDashboardData(fetched: Call<seq<Tenant>>)
      requires Valid()
      modifies this
      ensures Valid() && !loading
      ensures fetched.Returned? ==> stats == ComputeStats(fetched.value)
      ensures fetched.Threw? ==> stats == old(stats)
    {
      loading := true;
      if fetched.Returned? {
        stats := ComputeStats(fetched.value);
      }
      loading := false;
    }
  }
}
