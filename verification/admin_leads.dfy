/** The tenant admin's leads page: a status selector offering all five statuses whatever the
    current one, the status badge colour, and the page state updated by loads and changes. */
module AdminLeads {
  import opened Common
  import opened Records
  import opened Statuses

  /** The selector's options, in display order. */
  const SelectorOptions: seq<LeadStatus> := [New, Contacted, Qualified, Converted, Lost]

  /** Helper for `OfferedTargets`: every lead status is one of the options. */
  lemma AllStatusesListed()
    ensures forall s: LeadStatus :: s in SelectorOptions
  {
    forall s: LeadStatus ensures s in SelectorOptions {
      var k := if s == New then 0 else if s == Contacted then 1 else if s == Qualified then 2
               else if s == Converted then 3 else 4;
      assert SelectorOptions[k] == s;
    }
  }

  /** The statuses a lead can be moved to from `current`: the selector ignores the current
      status, so every lead is offered the same five. */
  function OfferedTargets(current: string): (r: seq<LeadStatus>)
    ensures forall s: LeadStatus :: s in r
    ensures |r| == 5
    ensures forall i, j :: 0 <= i < j < |r| ==> r[i] != r[j]
  {
    AllStatusesListed();
    SelectorOptions
  }

  /** Any status, known or not, can be changed to any of the five; there is no ordering. */
  lemma AnyToAny(current: string, target: LeadStatus)
    ensures target in OfferedTargets(current)
    ensures OfferedTargets(current) == OfferedTargets(LeadStatusName(target))
  {
  }

  const StatusColors: map<string, Tone> :=
    map["new" := Blue, "contacted" := Yellow, "qualified" := Purple, "converted" := Green, "lost" := Red]

  /** `getStatusColor`: the badge tone of a stored lead status, grey for anything unknown. */
  function StatusColor(status: string): (t: Tone)
    ensures t == Gray <==> ParseLeadStatus(status).None?
  {
    if status in StatusColors then StatusColors[status] else Gray
  }

  /** The five known statuses get five different tones. */
  lemma StatusColorsDistinct(a: LeadStatus, b: LeadStatus)
    requires StatusColor(LeadStatusName(a)) == StatusColor(LeadStatusName(b))
    ensures a == b
  {
  }

  /** The `updateStatus` request the selector sends. */
  datatype StatusUpdate = StatusUpdate(id: Id, status: string)

  const LoadErrorToast := Toast("Error", "No se pudieron cargar los leads", true)
  const UpdateErrorToast := Toast("Error", "No se pudo actualizar el estado", true)

  function UpdatedToast(newStatus: string): Toast {
    Toast("Estado actualizado", "El lead ha sido marcado como " + newStatus, false)
  }

  class LeadsPage {
    const tenant: Option<Tenant>
    var leads: seq<Lead>
    var loading: bool

    constructor (tenant: Option<Tenant>)
      ensures this.tenant == tenant && leads == [] && loading
    {
      this.tenant := tenant;
      leads := [];
      loading := true;
    }

    /** `loadLeads`: a no-op without a tenant; otherwise the fetched list replaces the current
        one, a failure keeps it and toasts, and the spinner is cleared in every case. */
    method LoadLeads(fetched: Call<seq<Lead>>) returns (toasts: seq<Toast>)
      modifies this
      ensures tenant.None? ==> leads == old(leads) && loading == old(loading) && toasts == []
      ensures tenant.Some? ==> !loading
      ensures tenant.Some? && fetched.Returned? ==> leads == fetched.value && toasts == []
      ensures tenant.Some? && fetched.Threw? ==> leads == old(leads) && toasts == [LoadErrorToast]
    {
      toasts := [];
      if tenant.None? {
        return;
      }
      loading := true;
      match fetched {
        case Returned(data) =>
          leads := data;
        case Threw(_) =>
          toasts := [LoadErrorToast];
      }
      loading := false;
    }

    /** `handleStatusChange`: the list is reloaded only after a successful update. */
    method HandleStatusChange(id: Id, newStatus: string, updated: Call<Lead>, reloaded: Call<seq<Lead>>)
      returns (request: StatusUpdate, toasts: seq<Toast>)
      modifies this
      ensures request == StatusUpdate(id, newStatus)
      ensures updated.Threw? ==>
        leads == old(leads) && loading == old(loading) && toasts == [UpdateErrorToast]
      ensures updated.Returned? && tenant.Some? ==>
        !loading && leads == (if reloaded.Returned? then reloaded.value else old(leads)) &&
        toasts == [UpdatedToast(newStatus)] + (if reloaded.Threw? then [LoadErrorToast] else [])
      ensures updated.Returned? && tenant.None? ==>
        leads == old(leads) && loading == old(loading) && toasts == [UpdatedToast(newStatus)]
    {
      request := StatusUpdate(id, newStatus);
      match updated {
        case Returned(_) =>
          var more := LoadLeads(reloaded);
          toasts := [UpdatedToast(newStatus)] + more;
        case Threw(_) =>
          toasts := [UpdateErrorToast];
      }
    }
  }
}
