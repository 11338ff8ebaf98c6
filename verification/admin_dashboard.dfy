/** The tenant admin dashboard: four counters computed from the tenant's items, bookings and
    leads, kept in page state that only a successful load replaces. */
module AdminDashboard {
  import opened Common
  import opened Records

  datatype Stats = Stats(totalItems: nat, totalBookings: nat, totalLeads: nat, pendingBookings: nat)

  /** The initial counters. */
  const ZeroStats := Stats(0, 0, 0, 0)

  predicate IsPending(b: Booking) {
    b.status == "pending"
  }

  /** The positions of the bookings whose stored status is 'pending'. */
  function PendingRows(bookings: seq<Booking>): set<nat> {
    set i: nat | i < |bookings| && bookings[i].status == "pending"
  }

  /** The counters for one fetch of the three lists: the pending counter is the number of
      bookings whose status is 'pending'. */
  function ComputeStats(items: seq<CatalogItem>, bookings: seq<Booking>, leads: seq<Lead>): (s: Stats)
    ensures s.totalItems == |items| && s.totalBookings == |bookings| && s.totalLeads == |leads|
    ensures s.pendingBookings == |PendingRows(bookings)|
    ensures s.pendingBookings <= s.totalBookings
    ensures s.pendingBookings == s.totalBookings <==> forall b :: b in bookings ==> IsPending(b)
    ensures s.pendingBookings == 0 <==> forall b :: b in bookings ==> !IsPending(b)
  {
    FilterFullIffAllPass(bookings, IsPending);
    var pending := Filter(bookings, IsPending);
    assert pending != [] ==> pending[0] in pending;
    assert PassingFrom(bookings, IsPending, 0) == PendingRows(bookings);
    Stats(|items|, |bookings|, |leads|, Count(bookings, IsPending))
  }

  /** The pending counter counts exactly the pending rows: every occurrence of a pending
      booking, and nothing else. */
  lemma {:induction false} PendingCountsRows(bookings: seq<Booking>, b: Booking)
    ensures multiset(Filter(bookings, IsPending))[b] == if IsPending(b) then multiset(bookings)[b] else 0
  {
    FilterMultiplicity(bookings, IsPending, b);
  }

  class DashboardPage {
    const tenant: Option<Tenant>
    var loading: bool
    var stats: Stats

    ghost predicate Valid()
      reads this
    {
      stats.pendingBookings <= stats.totalBookings
    }

    constructor (tenant: Option<Tenant>)
      ensures Valid() && this.tenant == tenant && loading && stats == ZeroStats
    {
      this.tenant := tenant;
      loading := true;
      stats := ZeroStats;
    }

    /** `loadStats`: without a tenant nothing changes; otherwise the three lists, fetched as
        one call, replace the counters, and a failure keeps the previous ones. */
    method LoadStats(fetched: Call<(seq<CatalogItem>, seq<Booking>, seq<Lead>)>)
      requires Valid()
      modifies this
      ensures Valid()
      ensures tenant.None? ==> stats == old(stats) && loading == old(loading)
      ensures tenant.Some? ==> !loading
      ensures tenant.Some? && fetched.Returned? ==>
        stats == ComputeStats(fetched.value.0, fetched.value.1, fetched.value.2)
      ensures fetched.Threw? ==> stats == old(stats)
    {
      if tenant.None? {
        return;
      }
      loading := true;
      match fetched {
        case Returned((items, bookings, leads)) =>
          stats := ComputeStats(items, bookings, leads);
        case Threw(_) =>
      }
      loading := false;
    }
  }
}
