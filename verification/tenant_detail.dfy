/** The super-admin tenant editor: prefilling the form and feature flags from a loaded tenant,
    editing them, and the save sequence (tenant write, then feature write, then navigation for
    a new tenant). The route parameter `new` selects the create mode. */
module TenantDetail {
  import opened Common
  import opened Records

  const NewId := "new"
  const TenantsPath := "/superadmin/tenants"

  datatype Feature = CatalogFeature | BookingsFeature | MembersFeature | PaymentsFeature | AnalyticsFeature

  /** The five module switches. */
  datatype Features = Features(catalog: bool, bookings: bool, members: bool, payments: bool, analytics: bool)
  {
    function Get(f: Feature): bool {
      match f
      case CatalogFeature => catalog
      case BookingsFeature => bookings
      case MembersFeature => members
      case PaymentsFeature => payments
      case AnalyticsFeature => analytics
    }

    /** `{...features, f: v}`: flag `f` becomes `v` and the other four keep their values. */
    function With(f: Feature, v: bool): (r: Features)
      ensures r.Get(f) == v
      ensures forall g :: g != f ==> r.Get(g) == Get(g)
    {
      match f
      case CatalogFeature => this.(catalog := v)
      case BookingsFeature => this.(bookings := v)
      case MembersFeature => this.(members := v)
      case PaymentsFeature => this.(payments := v)
      case AnalyticsFeature => this.(analytics := v)
    }
  }

  const AllOff := Features(false, false, false, false, false)

  /** Flags are determined by their five values. */
  lemma FeaturesExtensional(a: Features, b: Features)
    requires forall f :: a.Get(f) == b.Get(f)
    ensures a == b
  {
    assert a.Get(CatalogFeature) == b.Get(CatalogFeature);
    assert a.Get(BookingsFeature) == b.Get(BookingsFeature);
    assert a.Get(MembersFeature) == b.Get(MembersFeature);
    assert a.Get(PaymentsFeature) == b.Get(PaymentsFeature);
    assert a.Get(AnalyticsFeature) == b.Get(AnalyticsFeature);
  }

  /** Switching a flag and switching it back restores the original flags. */
  lemma ToggleBack(fs: Features, f: Feature, v: bool)
    ensures fs.With(f, v).With(f, fs.Get(f)) == fs
  {
    FeaturesExtensional(fs.With(f, v).With(f, fs.Get(f)), fs);
  }

  datatype Field = Name | Slug | Domain | Description | Industry

  datatype TenantForm = TenantForm(name: string, slug: string, domain: string, description: string, industry: string)
  {
    function Get(f: Field): string {
      match f
      case Name => name
      case Slug => slug
      case Domain => domain
      case Description => description
      case Industry => industry
    }

    /** `{...formData, f: value}`: only field `f` changes. */
    function With(f: Field, value: string): (r: TenantForm)
      ensures r.Get(f) == value
      ensures forall g :: g != f ==> r.Get(g) == Get(g)
    {
      match f
      case Name => this.(name := value)
      case Slug => this.(slug := value)
      case Domain => this.(domain := value)
      case Description => this.(description := value)
      case Industry => this.(industry := value)
    }
  }

  const EmptyForm := TenantForm("", "", "", "", "")

  /** The form prefilled from a loaded tenant: name and slug as stored, and a missing domain,
      description or industry as the empty string. */
  function Prefill(t: Tenant): (form: TenantForm)
    ensures form.name == t.name && form.slug == t.slug
    ensures t.domain.Some? ==> form.domain == t.domain.value
    ensures t.domain.None? ==> form.domain == ""
    ensures t.description.Some? ==> form.description == t.description.value
    ensures t.description.None? ==> form.description == ""
    ensures t.industry.Some? ==> form.industry == t.industry.value
    ensures t.industry.None? ==> form.industry == ""
  {
    TenantForm(t.name, t.slug, OrEmpty(t.domain), OrEmpty(t.description), OrEmpty(t.industry))
  }

  /** Each flag of a `tenant_features` row, a null flag read as off. */
  function FeaturesFrom(row: FeatureRow): (fs: Features)
    ensures fs.catalog <==> row.catalog == Some(true)
    ensures fs.bookings <==> row.bookings == Some(true)
    ensures fs.members <==> row.members == Some(true)
    ensures fs.payments <==> row.payments == Some(true)
    ensures fs.analytics <==> row.analytics == Some(true)
  {
    Features(row.catalog.GetOr(false), row.bookings.GetOr(false), row.members.GetOr(false),
             row.payments.GetOr(false), row.analytics.GetOr(false))
  }

  /** The flags after loading: the first `tenant_features` row's, or the current ones when the
      tenant has none. */
  function LoadedFeatures(t: Tenant, current: Features): (fs: Features)
    ensures t.features.Some? && |t.features.value| > 0 ==> fs == FeaturesFrom(t.features.value[0])
    ensures t.features.None? || t.features.value == [] ==> fs == current
  {
    if t.features.Some? && |t.features.value| > 0 then FeaturesFrom(t.features.value[0]) else current
  }

  /** A row whose flags are all null switches everything off. */
  lemma NullRowAllOff()
    ensures FeaturesFrom(FeatureRow(None, None, None, None, None)) == AllOff
  {
  }

  /** The remote writes a save issues. */
  datatype Write =
    | CreateTenant(form: TenantForm)
    | UpdateTenant(id: Id, form: TenantForm)
    | WriteFeatures(tenantId: Id, features: Features)

  /** Where a save stands; the form and flags are those captured when Save was clicked. */
  datatype Phase =
    | Idle
    | WritingTenant(form: TenantForm, features: Features)
    | WritingFeatures(tenantId: Id, features: Features)

  const LoadErrorToast := Toast("Error", "No se pudo cargar el tenant", true)
  const SavedToast := Toast("Guardado", "El tenant ha sido guardado correctamente", false)

  function SaveErrorToast(f: Failure): (t: Toast)
    ensures t.destructive && t.title == "Error" && t.description != ""
    ensures f.message != "" ==> t.description == f.message
    ensures f.message == "" ==> t.description == "Error al guardar"
  {
    Toast("Error", MessageOr(f, "Error al guardar"), true)
  }

  class TenantEditor {
    /** The route parameter. */
    const id: Id
    var tenant: Option<Tenant>
    var loading: bool
    var saving: bool
    var features: Features
    var form: TenantForm
    var phase: Phase

    /** `saving` is set exactly while a save is under way. */
    ghost predicate Valid()
      reads this
    {
      saving <==> !phase.Idle?
    }

    constructor (id: Id)
      ensures Valid() && this.id == id
      ensures tenant.None? && loading && !saving && phase == Idle
      ensures features == AllOff && form == EmptyForm
    {
      this.id := id;
      tenant := None;
      loading := true;
      saving := false;
      features := AllOff;
      form := EmptyForm;
      phase := Idle;
    }

    /** The mount effect with `loadTenant`: for `new` nothing is fetched and the empty form
        shows; otherwise the fetched tenant prefills the form and flags, and a failed fetch
        toasts and goes back to the list. */
    method Mount(fetched: Call<Tenant>) returns (request: Option<Id>, toasts: seq<Toast>, navigateTo: Option<string>)
      requires Valid()
      modifies this
      ensures Valid() && !loading
      ensures saving == old(saving) && phase == old(phase)
      ensures id == NewId ==>
        request.None? && toasts == [] && navigateTo.None? &&
        tenant == old(tenant) && form == old(form) && features == old(features)
      ensures id != NewId ==> request == Some(id)
      ensures id != NewId && fetched.Returned? ==>
        tenant == Some(fetched.value) && form == Prefill(fetched.value) &&
        features == LoadedFeatures(fetched.value, old(features)) &&
        toasts == [] && navigateTo.None?
      ensures id != NewId && fetched.Threw? ==>
        tenant == old(tenant) && form == old(form) && features == old(features) &&
        toasts == [LoadErrorToast] && navigateTo == Some(TenantsPath)
    {
      toasts := [];
      navigateTo := None;
      if id == NewId {
        request := None;
        loading := false;
        return;
      }
      request := Some(id);
      loading := true;
      match fetched {
        case Returned(t) =>
          tenant := Some(t);
          form := Prefill(t);
          features := LoadedFeatures(t, features);
        case Threw(_) =>
          toasts := [LoadErrorToast];
          navigateTo := Some(TenantsPath);
      }
      loading := false;
    }

    /** A feature switch: that flag only. */
    method ToggleFeature(f: Feature, v: bool)
      modifies this
      ensures features == old(features).With(f, v)
      ensures tenant == old(tenant) && loading == old(loading) && saving == old(saving)
      ensures form == old(form) && phase == old(phase)
    {
      features := features.With(f, v);
    }

    /** A form input: that field only. */
    method EditField(f: Field, value: string)
      modifies this
      ensures form == old(form).With(f, value)
      ensures tenant == old(tenant) && loading == old(loading) && saving == old(saving)
      ensures features == old(features) && phase == old(phase)
    {
      form := form.With(f, value);
    }

    /** `handleSave` up to its first await: the button is disabled while saving; otherwise the
        form and flags are captured and the tenant is created (`new`) or updated. */
    method BeginSave() returns (write: Option<Write>)
      requires Valid()
      modifies this
      ensures Valid() && saving
      ensures old(saving) ==> write.None? && phase == old(phase)
      ensures !old(saving) ==> phase == WritingTenant(form, features)
      ensures !old(saving) && id == NewId ==> write == Some(CreateTenant(form))
      ensures !old(saving) && id != NewId ==> write == Some(UpdateTenant(id, form))
      ensures tenant == old(tenant) && loading == old(loading)
      ensures form == old(form) && features == old(features)
    {
      if saving {
        return None;
      }
      saving := true;
      phase := WritingTenant(form, features);
      write := Some(if id == NewId then CreateTenant(form) else UpdateTenant(id, form));
    }

    /** The tenant write settled: on success the captured flags are written under the new
        tenant's id (`new`) or the route id; on failure the save ends with an error toast. */
    method OnTenantWritten(written: Call<Tenant>) returns (write: Option<Write>, toasts: seq<Toast>)
      requires Valid() && phase.WritingTenant?
      modifies this
      ensures Valid()
      ensures written.Returned? ==>
        var tenantId := if id == NewId then written.value.id else id;
        saving && phase == WritingFeatures(tenantId, old(phase).features) &&
        write == Some(WriteFeatures(tenantId, old(phase).features)) && toasts == []
      ensures written.Threw? ==>
        !saving && phase == Idle && write.None? && toasts == [SaveErrorToast(written.failure)]
      ensures tenant == old(tenant) && loading == old(loading)
      ensures form == old(form) && features == old(features)
    {
      match written {
        case Returned(t) =>
          var tenantId := if id == NewId then t.id else id;
          var captured := phase.features;
          phase := WritingFeatures(tenantId, captured);
          write := Some(WriteFeatures(tenantId, captured));
          toasts := [];
        case Threw(f) =>
          saving := false;
          phase := Idle;
          write := None;
          toasts := [SaveErrorToast(f)];
      }
    }

    /** The feature write settled: the save ends either way; success toasts and, for `new`,
        opens the created tenant's page. */
    method OnFeaturesWritten(written: Call<FeatureRow>) returns (toasts: seq<Toast>, navigateTo: Option<string>)
      requires Valid() && phase.WritingFeatures?
      modifies this
      ensures Valid() && !saving && phase == Idle
      ensures written.Returned? ==> toasts == [SavedToast]
      ensures written.Returned? && id == NewId ==>
        navigateTo == Some(TenantsPath + "/" + old(phase).tenantId)
      ensures written.Returned? && id != NewId ==> navigateTo.None?
      ensures written.Threw? ==> toasts == [SaveErrorToast(written.failure)] && navigateTo.None?
      ensures tenant == old(tenant) && loading == old(loading)
      ensures form == old(form) && features == old(features)
    {
      navigateTo := None;
      match written {
        case Returned(_) =>
          toasts := [SavedToast];
          if id == NewId {
            navigateTo := Some(TenantsPath + "/" + phase.tenantId);
          }
        case Threw(f) =>
          toasts := [SaveErrorToast(f)];
      }
      saving := false;
      phase := Idle;
    }

    /** A whole `handleSave` from an idle editor, its steps run in order: it issues the writes,
        shows the toast and navigates exactly as `Save` describes. */
    method HandleSave(tenantReply: Call<Tenant>, featuresReply: Call<FeatureRow>)
      returns (writes: seq<Write>, toasts: seq<Toast>, navigateTo: Option<string>)
      requires Valid() && !saving
      modifies this
      ensures Valid() && !saving && phase == Idle
      ensures writes == Save(id, old(form), old(features), tenantReply, featuresReply).writes
      ensures toasts == [Save(id, old(form), old(features), tenantReply, featuresReply).toast]
      ensures navigateTo == Save(id, old(form), old(features), tenantReply, featuresReply).navigateTo
      ensures tenant == old(tenant) && form == old(form) && features == old(features)
    {
      var first := BeginSave();
      var second, failed := OnTenantWritten(tenantReply);
      if second.None? {
        writes, toasts, navigateTo := [first.value], failed, None;
        return;
      }
      toasts, navigateTo := OnFeaturesWritten(featuresReply);
      writes := [first.value, second.value];
    }
  }

  /** The whole save as one function of the two replies: the writes issued, the toast shown
      and the navigation, used to state the ordering properties. */
  datatype SaveRun = SaveRun(writes: seq<Write>, toast: Toast, navigateTo: Option<string>)

  function Save(id: Id, form: TenantForm, features: Features, tenantReply: Call<Tenant>, featuresReply: Call<FeatureRow>): (run: SaveRun)
    ensures |run.writes| >= 1
    ensures run.writes[0] == (if id == NewId then CreateTenant(form) else UpdateTenant(id, form))
    ensures |run.writes| == 2 <==> tenantReply.Returned?
    ensures run.navigateTo.Some? ==> id == NewId && tenantReply.Returned? && featuresReply.Returned?
    ensures id == NewId && tenantReply.Returned? && featuresReply.Returned? ==>
      run.navigateTo == Some(TenantsPath + "/" + tenantReply.value.id)
    ensures run.toast == SavedToast <==> tenantReply.Returned? && featuresReply.Returned?
  {
    var first := if id == NewId then CreateTenant(form) else UpdateTenant(id, form);
    match tenantReply
    case Threw(f) => SaveRun([first], SaveErrorToast(f), None)
    case Returned(t) =>
      var tenantId := if id == NewId then t.id else id;
      var writes := [first, WriteFeatures(tenantId, features)];
      match featuresReply
      case Threw(f) => SaveRun(writes, SaveErrorToast(f), None)
      case Returned(_) =>
        SaveRun(writes, SavedToast, if id == NewId then Some(TenantsPath + "/" + tenantId) else None)
  }

  /** The feature write goes under the id the create returned for `new`, and under the route
      id otherwise. */
  lemma FeaturesFollowTenantWrite(id: Id, form: TenantForm, features: Features, t: Tenant, featuresReply: Call<FeatureRow>)
    ensures Save(id, form, features, Returned(t), featuresReply).writes[1] ==
      WriteFeatures(if id == NewId then t.id else id, features)
  {
  }

  /** A failed feature write after a create leaves the page on `new`, so saving again creates
      another tenant. */
  lemma CreateThenFeatureFailureStays(form: TenantForm, features: Features, t: Tenant, f: Failure)
    ensures Save(NewId, form, features, Returned(t), Threw(f)).navigateTo.None?
    ensures Save(NewId, form, features, Returned(t), Threw(f)).writes[0] == CreateTenant(form)
  {
  }
}
