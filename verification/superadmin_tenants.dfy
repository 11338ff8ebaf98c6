/** The super-admin tenant list: a case-insensitive search over name, slug and domain, and the
    labels derived for each row. */
module SuperAdminTenants {
  import opened Common
  import opened Records

  /** The name, the slug or a present domain contains the term, ignoring letter case. */
  predicate MatchesSearch(t: Tenant, term: string)
    ensures term == "" ==> MatchesSearch(t, term)
  {
    IncludesEmpty(Lower(t.name));
    Includes(Lower(t.name), Lower(term)) ||
    Includes(Lower(t.slug), Lower(term)) ||
    (t.domain.Some? && Includes(Lower(t.domain.value), Lower(term)))
  }

  /** `filteredTenants`: the tenants that match, as an order-preserving sub-list. */
  function FilteredTenants(tenants: seq<Tenant>, term: string): (r: seq<Tenant>)
    ensures IsSubsequence(r, tenants)
    ensures forall t :: t in r <==> t in tenants && MatchesSearch(t, term)
    ensures forall t :: multiset(r)[t] == if MatchesSearch(t, term) then multiset(tenants)[t] else 0
  {
    FilterIsSubsequence(tenants, t => MatchesSearch(t, term));
    FilterMultiplicities(tenants, t => MatchesSearch(t, term));
    Filter(tenants, t => MatchesSearch(t, term))
  }

  /** The empty term keeps every tenant, in order. */
  lemma EmptyTermKeepsAll(tenants: seq<Tenant>)
    ensures FilteredTenants(tenants, "") == tenants
  {
    forall t | t in tenants ensures MatchesSearch(t, "") {
      IncludesEmpty(Lower(t.name));
    }
    FilterKeepsAll(tenants, t => MatchesSearch(t, ""));
  }

  /** A tenant without a domain matches only through its name or slug. */
  lemma NoDomainMatchesByNameOrSlug(t: Tenant, term: string)
    requires t.domain.None?
    ensures MatchesSearch(t, term) <==>
      Includes(Lower(t.name), Lower(term)) || Includes(Lower(t.slug), Lower(term))
  {
  }

  /** Search terms that differ only in letter case select the same tenants. */
  lemma {:induction false} CaseInsensitive(tenants: seq<Tenant>, a: string, b: string)
    requires Lower(a) == Lower(b)
    ensures FilteredTenants(tenants, a) == FilteredTenants(tenants, b)
  {
    FilterCongruent(tenants, t => MatchesSearch(t, a), t => MatchesSearch(t, b));
  }

  /** The status badge text. */
  function StatusLabel(t: Tenant): (text: string)
    ensures text == "Activo" <==> t.isActive
    ensures text == "Inactivo" <==> !t.isActive
  {
    if t.isActive then "Activo" else "Inactivo"
  }

  /** `industry || '-'`: a missing or empty industry shows as a dash. */
  function IndustryLabel(t: Tenant): (text: string)
    ensures text != ""
    ensures text == "-" <==> t.industry.None? || t.industry.value in {"", "-"}
    ensures t.industry.Some? && t.industry.value != "" ==> text == t.industry.value
  {
    if t.industry.Some? && t.industry.value != "" then t.industry.value else "-"
  }
}
