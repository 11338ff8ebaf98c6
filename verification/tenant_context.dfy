/** The tenant provider: it loads the configured tenant once on mount (and again on Retry),
    shows a spinner while loading, an error screen when loading failed, and otherwise provides
    the tenant to the pages below it. */
module TenantContext {
  import opened Common
  import opened Records

  datatype ContextValue = ContextValue(tenant: Option<Tenant>, loading: bool, error: Option<string>)

  /** What the provider renders. */
  datatype View = Spinner | ErrorScreen(message: string) | Provide(value: ContextValue)

  const LoadFailedMessage := "Failed to load tenant"

  class TenantProvider {
    var tenant: Option<Tenant>
    var loading: bool
    var error: Option<string>

    /** A set error is never blank, and once a load has settled exactly one of tenant and error
        is present. */
    ghost predicate Valid()
      reads this
    {
      (error.Some? ==> error.value != "") &&
      (!loading ==> (tenant.Some? <==> error.None?))
    }

    constructor ()
      ensures Valid() && tenant.None? && loading && error.None?
    {
      tenant := None;
      loading := true;
      error := None;
    }

    /** `loadTenant` up to its await (run on mount and by Retry): spinner on, error cleared, the
        previous tenant kept. */
    method BeginLoad()
      requires Valid()
      modifies this
      ensures Valid() && loading && error.None? && tenant == old(tenant)
    {
      loading := true;
      error := None;
    }

    /** `loadTenant` after its await: the fetched tenant, or no tenant and the failure's message
        (or the fallback text); the spinner goes off either way. */
    method FinishLoad(fetched: Call<Tenant>)
      requires Valid() && loading && error.None?
      modifies this
      ensures Valid() && !loading
      ensures fetched.Returned? ==> tenant == Some(fetched.value) && error.None?
      ensures fetched.Threw? ==>
        tenant.None? && error == Some(MessageOr(fetched.failure, LoadFailedMessage))
    {
      match fetched {
        case Returned(t) =>
          tenant := Some(t);
        case Threw(f) =>
          error := Some(MessageOr(f, LoadFailedMessage));
          tenant := None;
      }
      loading := false;
    }

    /** The render: spinner first, then the error screen, then the provider. */
    function Render(): (v: View)
      reads this
      ensures v.Spinner? <==> loading
      ensures v.ErrorScreen? <==> !loading && error.Some? && error.value != ""
      ensures v.ErrorScreen? ==> v.message == error.value
      ensures v.Provide? ==> v.value == ContextValue(tenant, false, None)
    {
      if loading then Spinner
      else if error.Some? && error.value != "" then ErrorScreen(error.value)
      else Provide(ContextValue(tenant, loading, None))
    }

    /** In a consistent state the pages below are only ever given a present tenant. */
    lemma ProvidesOnlyLoadedTenant()
      requires Valid()
      ensures Render().Provide? ==> Render().value.tenant.Some?
      ensures !loading && tenant.None? ==> Render().ErrorScreen?
    {
    }
  }

  const OutsideProviderMessage := "useTenant must be used within TenantProvider"

  /** `useTenant`: the provided value, or a thrown error where no provider value exists. */
  function UseTenant(context: Option<ContextValue>): (r: Call<ContextValue>)
    ensures r.Returned? <==> context.Some?
    ensures r.Returned? ==> r.value == context.value
    ensures r.Threw? ==> r.failure.message == OutsideProviderMessage
  {
    if context.Some? then Returned(context.value) else Threw(Failure(OutsideProviderMessage))
  }
}
