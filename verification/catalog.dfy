/** The public catalog page's list filter: a case-insensitive search over name and description
    combined with a category selection. */
module Catalog {
  import opened Common
  import opened Records

  /** The category selection that passes every item. */
  const AllCategories := "all"

  /** The name, or a present description, contains the term, ignoring letter case. */
  predicate MatchesSearch(item: CatalogItem, term: string)
    ensures term == "" ==> MatchesSearch(item, term)
  {
    IncludesEmpty(Lower(item.name));
    Includes(Lower(item.name), Lower(term)) ||
    (item.description.Some? && Includes(Lower(item.description.value), Lower(term)))
  }

  /** `'all'` passes everything; any other selection needs a joined category with that id. */
  predicate MatchesCategory(item: CatalogItem, selected: string)
    ensures MatchesCategory(item, selected) <==>
      selected == AllCategories || (item.categoryIds.Some? && selected in item.categoryIds.value)
  {
    selected == AllCategories ||
    (item.categoryIds.Some? && exists k :: 0 <= k < |item.categoryIds.value| && item.categoryIds.value[k] == selected)
  }

  predicate Keep(item: CatalogItem, term: string, selected: string) {
    MatchesSearch(item, term) && MatchesCategory(item, selected)
  }

  /** `filteredItems`: the items that pass both tests, as an order-preserving sub-list. */
  function FilteredItems(items: seq<CatalogItem>, term: string, selected: string): (r: seq<CatalogItem>)
    ensures IsSubsequence(r, items)
    ensures forall x :: x in r <==> x in items && MatchesSearch(x, term) && MatchesCategory(x, selected)
    ensures forall x ::
      multiset(r)[x] == if MatchesSearch(x, term) && MatchesCategory(x, selected) then multiset(items)[x] else 0
  {
    FilterIsSubsequence(items, x => Keep(x, term, selected));
    FilterMultiplicities(items, x => Keep(x, term, selected));
    Filter(items, x => Keep(x, term, selected))
  }

  /** The search test in terms of substring positions. */
  lemma SearchMeaning(item: CatalogItem, term: string)
    ensures MatchesSearch(item, term) <==>
      (exists i :: OccursAt(Lower(item.name), Lower(term), i)) ||
      (item.description.Some? && exists i :: OccursAt(Lower(item.description.value), Lower(term), i))
  {
    IncludesIffOccurs(Lower(item.name), Lower(term));
    if item.description.Some? {
      IncludesIffOccurs(Lower(item.description.value), Lower(term));
    }
  }

  /** An item without joined categories fails every selection except `'all'`. */
  lemma NoCategoriesOnlyAll(item: CatalogItem, selected: string)
    requires item.categoryIds.None?
    ensures MatchesCategory(item, selected) <==> selected == AllCategories
  {
  }

  /** Search terms that differ only in letter case select the same items. */
  lemma {:induction false} CaseInsensitive(items: seq<CatalogItem>, a: string, b: string, selected: string)
    requires Lower(a) == Lower(b)
    ensures FilteredItems(items, a, selected) == FilteredItems(items, b, selected)
  {
    FilterCongruent(items, x => Keep(x, a, selected), x => Keep(x, b, selected));
  }

  /** Searching with the lower-cased term selects the same items as the term as typed. */
  lemma LoweredTermSame(items: seq<CatalogItem>, term: string, selected: string)
    ensures FilteredItems(items, Lower(term), selected) == FilteredItems(items, term, selected)
  {
    LowerIdempotent(term);
    CaseInsensitive(items, Lower(term), term, selected);
  }

  /** The initial state, term `''` and category `'all'`, shows the whole catalog. */
  lemma EmptySearchKeepsAll(items: seq<CatalogItem>)
    ensures FilteredItems(items, "", AllCategories) == items
  {
    forall x | x in items ensures Keep(x, "", AllCategories) {
      IncludesEmpty(Lower(x.name));
    }
    FilterKeepsAll(items, x => Keep(x, "", AllCategories));
  }
}
