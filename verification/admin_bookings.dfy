/** The tenant admin's bookings page: the status workflow offered as buttons, the status badge
    colour, and the page state (`bookings`, `loading`) updated by loading and status changes. */
module AdminBookings {
  import opened Common
  import opened Records
  import opened Statuses

  /** The booking workflow: pending may be confirmed or cancelled, confirmed may be completed. */
  predicate Step(from: BookingStatus, to: BookingStatus)
    ensures Step(from, to) ==> from != to && to != Pending
    ensures Step(from, to) ==> from == Pending || from == Confirmed
  {
    match from
    case Pending => to == Confirmed || to == Cancelled
    case Confirmed => to == Completed
    case _ => false
  }

  /** The statuses the buttons under a booking request, in display order. */
  function OfferedTransitions(status: string): (r: seq<BookingStatus>)
    ensures forall t :: t in r <==>
      ParseBookingStatus(status).Some? && Step(ParseBookingStatus(status).value, t)
    ensures forall i, j :: 0 <= i < j < |r| ==> r[i] != r[j]
  {
    if status == "pending" then [Confirmed, Cancelled]
    else if status == "confirmed" then [Completed]
    else []
  }

  /** A pending booking gets Confirm then Cancel; a confirmed one gets Complete. */
  lemma OfferedFromPendingAndConfirmed()
    ensures OfferedTransitions(BookingStatusName(Pending)) == [Confirmed, Cancelled]
    ensures OfferedTransitions(BookingStatusName(Confirmed)) == [Completed]
  {
  }

  /** Cancelled, completed and unrecognised statuses get no button: they are terminal. */
  lemma TerminalStatuses(status: string)
    requires ParseBookingStatus(status) != Some(Pending)
    requires ParseBookingStatus(status) != Some(Confirmed)
    ensures OfferedTransitions(status) == []
  {
  }

  /** No button leads back to pending. */
  lemma NeverBackToPending(status: string)
    ensures Pending !in OfferedTransitions(status)
  {
  }

  /** Position of a status along the workflow. */
  function Rank(s: BookingStatus): nat {
    match s
    case Pending => 0
    case Confirmed => 1
    case _ => 2
  }

  /** A sequence of statuses each reached from the previous by an offered button. */
  predicate IsRun(run: seq<BookingStatus>) {
    forall k :: 0 < k < |run| ==> run[k] in OfferedTransitions(BookingStatusName(run[k - 1]))
  }

  /** Every run climbs the ranks, so a booking changes status at most twice. */
  lemma {:induction false} RunsAreShort(run: seq<BookingStatus>)
    requires IsRun(run) && run != []
    ensures Rank(run[|run| - 1]) >= Rank(run[0]) + |run| - 1
    ensures |run| <= 3
  {
    if |run| > 1 {
      var init := run[..|run| - 1];
      assert IsRun(init) by {
        forall k | 0 < k < |init| ensures init[k] in OfferedTransitions(BookingStatusName(init[k - 1])) {
          assert init[k] == run[k] && init[k - 1] == run[k - 1];
        }
      }
      RunsAreShort(init);
      var last := run[|run| - 1];
      var prev := run[|run| - 2];
      assert last in OfferedTransitions(BookingStatusName(prev));
      BookingStatusRoundTrip(prev);
      assert Step(prev, last);
    }
  }

  const StatusColors: map<string, Tone> :=
    map["pending" := Yellow, "confirmed" := Green, "cancelled" := Red, "completed" := Blue]

  /** `getStatusColor`: the badge tone of a stored status, grey for anything unknown. */
  function StatusColor(status: string): (t: Tone)
    ensures t == Gray <==> ParseBookingStatus(status).None?
  {
    if status in StatusColors then StatusColors[status] else Gray
  }

  /** The four known statuses get four different tones. */
  lemma StatusColorsDistinct(a: BookingStatus, b: BookingStatus)
    requires StatusColor(BookingStatusName(a)) == StatusColor(BookingStatusName(b))
    ensures a == b
  {
  }

  /** The `updateStatus` request a button sends. */
  datatype StatusUpdate = StatusUpdate(id: Id, status: string)

  const LoadErrorToast := Toast("Error", "No se pudieron cargar las reservas", true)
  const UpdateErrorToast := Toast("Error", "No se pudo actualizar el estado", true)

  function UpdatedToast(newStatus: string): Toast {
    Toast("Estado actualizado", "La reserva ha sido marcada como " + newStatus, false)
  }

  class BookingsPage {
    const tenant: Option<Tenant>
    var bookings: seq<Booking>
    var loading: bool

    /** Initial state: no bookings, spinner shown. */
    constructor (tenant: Option<Tenant>)
      ensures this.tenant == tenant && bookings == [] && loading
    {
      this.tenant := tenant;
      bookings := [];
      loading := true;
    }

    /** `loadBookings`: without a tenant nothing happens, not even on `loading`. Otherwise the
        fetched list replaces the current one, a failure keeps it and toasts, and the spinner
        is cleared in every case. */
    method LoadBookings(fetched: Call<seq<Booking>>) returns (toasts: seq<Toast>)
      modifies this
      ensures tenant.None? ==> bookings == old(bookings) && loading == old(loading) && toasts == []
      ensures tenant.Some? ==> !loading
      ensures tenant.Some? && fetched.Returned? ==> bookings == fetched.value && toasts == []
      ensures tenant.Some? && fetched.Threw? ==> bookings == old(bookings) && toasts == [LoadErrorToast]
    {
      toasts := [];
      if tenant.None? {
        return;
      }
      loading := true;
      match fetched {
        case Returned(data) =>
          bookings := data;
        case Threw(_) =>
          toasts := [LoadErrorToast];
      }
      loading := false;
    }

    /** `handleStatusChange`: sends the update for that booking; only when it succeeds is the
        list reloaded. A failed update leaves `bookings` and `loading` as they were. */
    method HandleStatusChange(id: Id, newStatus: string, updated: Call<Booking>, reloaded: Call<seq<Booking>>)
      returns (request: StatusUpdate, toasts: seq<Toast>)
      modifies this
      ensures request == StatusUpdate(id, newStatus)
      ensures updated.Threw? ==>
        bookings == old(bookings) && loading == old(loading) && toasts == [UpdateErrorToast]
      ensures updated.Returned? && tenant.Some? ==>
        !loading && bookings == (if reloaded.Returned? then reloaded.value else old(bookings)) &&
        toasts == [UpdatedToast(newStatus)] + (if reloaded.Threw? then [LoadErrorToast] else [])
      ensures updated.Returned? && tenant.None? ==>
        bookings == old(bookings) && loading == old(loading) && toasts == [UpdatedToast(newStatus)]
    {
      request := StatusUpdate(id, newStatus);
      match updated {
        case Returned(_) =>
          var more := LoadBookings(reloaded);
          toasts := [UpdatedToast(newStatus)] + more;
        case Threw(_) =>
          toasts := [UpdateErrorToast];
      }
    }
  }
}
