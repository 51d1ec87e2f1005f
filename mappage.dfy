/**
 * The New York discovery map page (app/cities/new-york/map/page.tsx): the
 * store list beside the map, narrowed by a free-text search and by selected
 * category and neighbourhood slugs that are mirrored into the page URL.
 *
 * The React state of the page is the state of a `DiscoveryMapPage` object;
 * each handler and effect is a method. The data services the page awaits are
 * not part of this model: their results are parameters of the methods.
 */
module MapPage {
  import opened Wrappers
  import opened Text
  import opened Types

  /** Every store reaches a neighbourhood; the search reads `store.neighborhood.name` without a guard. */
  predicate AllHaveNeighborhood(stores: seq<Store>) {
    forall s :: s in stores ==> s.neighborhood.Some?
  }

  /**
   * The search test of `applyFilters`: the lower-cased query occurs in the
   * lower-cased name, card description (an absent one never matches) or
   * neighbourhood name.
   */
  predicate Matches(store: Store, query: string)
    requires store.neighborhood.Some?
  {
    var q := Lower(query);
    Contains(Lower(store.name), q)
    || (store.cardDescription.Some? && Contains(Lower(store.cardDescription.value), q))
    || Contains(Lower(store.neighborhood.value.name), q)
  }

  /** `stores.filter(store => ...)` with the search test. */
  function Search(stores: seq<Store>, query: string): (r: seq<Store>)
    requires AllHaveNeighborhood(stores)
    ensures |r| <= |stores|
    ensures forall s :: s in r <==> s in stores && Matches(s, query)
    ensures AllHaveNeighborhood(r)
  {
    if stores == [] then []
    else
      var rest := Search(stores[1..], query);
      assert forall s :: s in stores <==> s == stores[0] || s in stores[1..];
      if Matches(stores[0], query) then [stores[0]] + rest else rest
  }

  /** The filter keeps input order: filtering a concatenation is concatenating the filtered parts. */
  lemma {:induction false} SearchAppend(a: seq<Store>, b: seq<Store>, query: string)
    requires AllHaveNeighborhood(a) && AllHaveNeighborhood(b)
    ensures AllHaveNeighborhood(a + b)
    ensures Search(a + b, query) == Search(a, query) + Search(b, query)
  {
    assert forall s :: s in a + b <==> s in a || s in b;
    if a == [] {
      assert a + b == b;
    } else {
      assert (a + b)[0] == a[0];
      assert (a + b)[1..] == a[1..] + b;
      SearchAppend(a[1..], b, query);
    }
  }

  /** The empty query is found in every name, so searching for it keeps every store. */
  lemma {:induction false} SearchEmptyQuery(stores: seq<Store>)
    requires AllHaveNeighborhood(stores)
    ensures Search(stores, "") == stores
  {
    if stores != [] {
      ContainsEmpty(Lower(stores[0].name));
      SearchEmptyQuery(stores[1..]);
    }
  }

  /** Searching twice with the same query is searching once. */
  lemma {:induction false} SearchIdempotent(stores: seq<Store>, query: string)
    requires AllHaveNeighborhood(stores)
    ensures Search(Search(stores, query), query) == Search(stores, query)
  {
    if stores != [] {
      SearchIdempotent(stores[1..], query);
    }
  }

  /** `hasActiveFilters`: a selection in either list or a non-empty query. */
  predicate ActiveFilters(categories: seq<string>, neighborhoods: seq<string>, query: string) {
    |categories| > 0 || |neighborhoods| > 0 || query != ""
  }

  /** `[...xs, value]` when `value` is non-empty and not yet in `xs`; otherwise `xs` unchanged. */
  function AddUnique(xs: seq<string>, value: string): (r: seq<string>)
    ensures forall x :: x in r <==> x in xs || (x == value && value != "")
    ensures |xs| <= |r| <= |xs| + 1 && r[..|xs|] == xs
  {
    if value != "" && value !in xs then xs + [value] else xs
  }

  /** No value occurs twice. */
  predicate NoDuplicates(xs: seq<string>) {
    forall i, j :: 0 <= i < j < |xs| ==> xs[i] != xs[j]
  }

  /** Adding keeps a duplicate-free list duplicate-free, and adding the same value twice adds it once. */
  lemma AddUniqueProperties(xs: seq<string>, value: string)
    ensures NoDuplicates(xs) ==> NoDuplicates(AddUnique(xs, value))
    ensures AddUnique(AddUnique(xs, value), value) == AddUnique(xs, value)
  {
  }

  /** `xs.filter(x => x !== value)`. */
  function RemoveAll(xs: seq<string>, value: string): (r: seq<string>)
    ensures forall x :: x in r <==> x in xs && x != value
    ensures |r| <= |xs|
  {
    if xs == [] then []
    else if xs[0] == value then RemoveAll(xs[1..], value)
    else [xs[0]] + RemoveAll(xs[1..], value)
  }

  /** Removal keeps the other values in order: it works piece by piece on a concatenation. */
  lemma {:induction false} RemoveAllAppend(a: seq<string>, b: seq<string>, value: string)
    ensures RemoveAll(a + b, value) == RemoveAll(a, value) + RemoveAll(b, value)
  {
    if a == [] {
      assert a + b == b;
    } else {
      assert (a + b)[0] == a[0];
      assert (a + b)[1..] == a[1..] + b;
      RemoveAllAppend(a[1..], b, value);
    }
  }

  /** Removing a value that was just added gives back the list it was added to. */
  lemma {:induction false} RemoveUndoesAdd(xs: seq<string>, value: string)
    requires value !in xs
    ensures RemoveAll(AddUnique(xs, value), value) == xs
  {
    RemoveAllAbsent(xs, value);
    if value != "" {
      RemoveAllAppend(xs, [value], value);
    }
  }

  lemma {:induction false} RemoveAllAbsent(xs: seq<string>, value: string)
    requires value !in xs
    ensures RemoveAll(xs, value) == xs
  {
    if xs != [] {
      RemoveAllAbsent(xs[1..], value);
    }
  }

  /** Removal keeps a duplicate-free list duplicate-free. */
  lemma {:induction false} RemoveAllNoDuplicates(xs: seq<string>, value: string)
    requires NoDuplicates(xs)
    ensures NoDuplicates(RemoveAll(xs, value))
  {
    if xs != [] {
      RemoveAllNoDuplicates(xs[1..], value);
      var r := RemoveAll(xs[1..], value);
      assert xs[0] !in xs[1..];
      assert xs[0] !in r;
    }
  }

  /** The query parameters of the page URL, in insertion order, as `URLSearchParams` keeps them. */
  type Params = seq<(string, string)>

  /** `URLSearchParams.get(key)`: the value of the first entry with that key. */
  function Get(params: Params, key: string): (r: Option<string>)
    ensures r.None? <==> forall i :: 0 <= i < |params| ==> params[i].0 != key
  {
    if params == [] then None
    else if params[0].0 == key then Some(params[0].1)
    else Get(params[1..], key)
  }

  /** The parameters the URL effect writes: `category` and `neighborhood`, each only for a non-empty list. */
  function UrlParams(categories: seq<string>, neighborhoods: seq<string>): Params {
    (if |categories| > 0 then [("category", Join(categories, ","))] else [])
    + (if |neighborhoods| > 0 then [("neighborhood", Join(neighborhoods, ","))] else [])
  }

  /** What the load effect takes from a parameter: its comma-split list when the value is truthy. */
  function SelectionFrom(param: Option<string>): Option<seq<string>> {
    if param.Some? && param.value != "" then Some(Split(param.value, ',')) else None
  }

  /** The written URL carries exactly the non-empty lists, and never the search query. */
  lemma UrlParamsWritten(categories: seq<string>, neighborhoods: seq<string>)
    ensures Get(UrlParams(categories, neighborhoods), "category").Some? <==> |categories| > 0
    ensures |categories| > 0 ==> Get(UrlParams(categories, neighborhoods), "category") == Some(Join(categories, ","))
    ensures Get(UrlParams(categories, neighborhoods), "neighborhood").Some? <==> |neighborhoods| > 0
    ensures |neighborhoods| > 0 ==> Get(UrlParams(categories, neighborhoods), "neighborhood") == Some(Join(neighborhoods, ","))
    ensures forall i :: 0 <= i < |UrlParams(categories, neighborhoods)| ==>
      UrlParams(categories, neighborhoods)[i].0 in {"category", "neighborhood"}
  {
  }

  /**
   * Round trip: a selection written to the URL is read back unchanged by the
   * load effect, provided no slug holds a comma and the joined text is not empty.
   */
  lemma UrlRoundTrip(categories: seq<string>, neighborhoods: seq<string>)
    requires forall k :: 0 <= k < |categories| ==> ',' !in categories[k]
    requires forall k :: 0 <= k < |neighborhoods| ==> ',' !in neighborhoods[k]
    requires |categories| > 0 ==> Join(categories, ",") != ""
    requires |neighborhoods| > 0 ==> Join(neighborhoods, ",") != ""
    ensures |categories| > 0 ==> SelectionFrom(Get(UrlParams(categories, neighborhoods), "category")) == Some(categories)
    ensures |neighborhoods| > 0 ==> SelectionFrom(Get(UrlParams(categories, neighborhoods), "neighborhood")) == Some(neighborhoods)
  {
    UrlParamsWritten(categories, neighborhoods);
    if |categories| > 0 { SplitJoin(categories, ','); }
    if |neighborhoods| > 0 { SplitJoin(neighborhoods, ','); }
  }

  /** A selection made only through the handlers has no empty slug, so its joined text is never empty. */
  lemma JoinOfNonEmpty(xs: seq<string>)
    requires |xs| > 0 && forall k :: 0 <= k < |xs| ==> xs[k] != ""
    ensures Join(xs, ",") != ""
  {
    if |xs| > 1 {
      assert |Join(xs, ",")| >= |xs[0]| + 1;
    }
  }

  /** What the filter effect computes: the search applied to the base list, which is the `filterStores` result when anything is selected. */
  function FilterOutcome(stores: seq<Store>, categories: seq<string>, neighborhoods: seq<string>, query: string,
                         fetched: seq<Store>): seq<Store>
    requires AllHaveNeighborhood(stores) && AllHaveNeighborhood(fetched)
  {
    var base := if |categories| > 0 || |neighborhoods| > 0 then fetched else stores;
    if query != "" then Search(base, query) else base
  }

  /** The result holds exactly the stores of the base list that match the query, so nothing outside it appears. */
  lemma FilterOutcomeSpec(stores: seq<Store>, categories: seq<string>, neighborhoods: seq<string>, query: string,
                          fetched: seq<Store>)
    requires AllHaveNeighborhood(stores) && AllHaveNeighborhood(fetched)
    ensures var base := if |categories| > 0 || |neighborhoods| > 0 then fetched else stores;
      var r := FilterOutcome(stores, categories, neighborhoods, query, fetched);
      forall s :: s in r <==> s in base && Matches(s, query)
    ensures !ActiveFilters(categories, neighborhoods, query) ==> FilterOutcome(stores, categories, neighborhoods, query, fetched) == stores
  {
    var base := if |categories| > 0 || |neighborhoods| > 0 then fetched else stores;
    if query == "" {
      SearchEmptyQuery(base);
    }
  }

  /** The page state. Categories and neighbourhood option lists and the selected store are presentation only. */
  class DiscoveryMapPage {
    var stores: seq<Store>
    var filteredStores: seq<Store>
    var selectedCategories: seq<string>
    var selectedNeighborhoods: seq<string>
    var searchQuery: string
    var isLoading: bool
    /** The query part the URL effect last wrote with `history.replaceState`. */
    var url: Params

    /** The initial state of the `useState` calls. */
    constructor ()
      ensures stores == [] && filteredStores == []
      ensures selectedCategories == [] && selectedNeighborhoods == [] && searchQuery == ""
      ensures isLoading && url == []
    {
      stores := [];
      filteredStores := [];
      selectedCategories := [];
      selectedNeighborhoods := [];
      searchQuery := "";
      isLoading := true;
      url := [];
    }

    /** The page never holds a store without a neighbourhood. */
    predicate Valid()
      reads this
    {
      AllHaveNeighborhood(stores) && AllHaveNeighborhood(filteredStores)
    }

    /**
     * `loadData`. `data` is the result of loading all stores, `None` when a
     * load throws, in which case only the loading flag changes. `byIds` is the
     * result of `filterStores({ storeIds })`, asked for only when the `stores`
     * parameter is truthy; `None` when it throws.
     */
    method LoadData(data: Option<seq<Store>>, params: Params, byIds: Option<seq<Store>>)
      requires Valid()
      requires data.Some? ==> AllHaveNeighborhood(data.value)
      requires byIds.Some? ==> AllHaveNeighborhood(byIds.value)
      modifies this
      ensures Valid() && !isLoading
      ensures data.None? ==>
        stores == old(stores) && filteredStores == old(filteredStores)
        && selectedCategories == old(selectedCategories) && selectedNeighborhoods == old(selectedNeighborhoods)
      ensures data.Some? ==> stores == data.value
      ensures data.Some? ==> selectedCategories == SelectionFrom(Get(params, "category")).GetOr(old(selectedCategories))
      ensures data.Some? ==> selectedNeighborhoods == SelectionFrom(Get(params, "neighborhood")).GetOr(old(selectedNeighborhoods))
      ensures data.Some? ==>
        filteredStores == if SelectionFrom(Get(params, "stores")).Some? && byIds.Some? then byIds.value else data.value
      ensures searchQuery == old(searchQuery) && url == old(url)
    {
      isLoading := true;
      if data.Some? {
        stores := data.value;
        filteredStores := data.value;
        var categoryParam := Get(params, "category");
        var neighborhoodParam := Get(params, "neighborhood");
        var storesParam := Get(params, "stores");
        if categoryParam.Some? && categoryParam.value != "" {
          selectedCategories := Split(categoryParam.value, ',');
        }
        if neighborhoodParam.Some? && neighborhoodParam.value != "" {
          selectedNeighborhoods := Split(neighborhoodParam.value, ',');
        }
        if storesParam.Some? && storesParam.value != "" && byIds.Some? {
          filteredStores := byIds.value;
        }
      }
      isLoading := false;
    }

    /**
     * `applyFilters`. `fetched` is what `filterStores({ categories, neighborhoods })`
     * returns for the current selections; it is used only when a selection exists.
     */
    method ApplyFilters(fetched: seq<Store>)
      requires Valid() && AllHaveNeighborhood(fetched)
      modifies this
      ensures Valid()
      ensures filteredStores == FilterOutcome(stores, selectedCategories, selectedNeighborhoods, searchQuery, fetched)
      ensures stores == old(stores) && selectedCategories == old(selectedCategories)
      ensures selectedNeighborhoods == old(selectedNeighborhoods) && searchQuery == old(searchQuery)
      ensures isLoading == old(isLoading) && url == old(url)
    {
      var filtered := stores;
      if searchQuery != "" {
        filtered := Search(filtered, searchQuery);
      }
      if |selectedCategories| > 0 || |selectedNeighborhoods| > 0 {
        filtered := fetched;
        if searchQuery != "" {
          filtered := Search(filtered, searchQuery);
        }
      }
      filteredStores := filtered;
    }

    /** The URL effect: writes `category` and `neighborhood` for the non-empty lists, nothing else. */
    method SyncUrl()
      modifies this
      ensures url == UrlParams(selectedCategories, selectedNeighborhoods)
      ensures stores == old(stores) && filteredStores == old(filteredStores)
      ensures selectedCategories == old(selectedCategories) && selectedNeighborhoods == old(selectedNeighborhoods)
      ensures searchQuery == old(searchQuery) && isLoading == old(isLoading)
    {
      var params: Params := [];
      if |selectedCategories| > 0 {
        params := params + [("category", Join(selectedCategories, ","))];
      }
      if |selectedNeighborhoods| > 0 {
        params := params + [("neighborhood", Join(selectedNeighborhoods, ","))];
      }
      url := params;
    }

    /** The search box's `onChange`. */
    method SetSearchQuery(query: string)
      modifies this
      ensures searchQuery == query
      ensures stores == old(stores) && filteredStores == old(filteredStores)
      ensures selectedCategories == old(selectedCategories) && selectedNeighborhoods == old(selectedNeighborhoods)
      ensures isLoading == old(isLoading) && url == old(url)
    {
      searchQuery := query;
    }

    /** `handleCategoryChange`: appends a non-empty slug not yet selected. */
    method HandleCategoryChange(value: string)
      modifies this
      ensures selectedCategories == AddUnique(old(selectedCategories), value)
      ensures NoDuplicates(old(selectedCategories)) ==> NoDuplicates(selectedCategories)
      ensures stores == old(stores) && filteredStores == old(filteredStores)
      ensures selectedNeighborhoods == old(selectedNeighborhoods) && searchQuery == old(searchQuery)
      ensures isLoading == old(isLoading) && url == old(url)
    {
      if value != "" && value !in selectedCategories {
        selectedCategories := selectedCategories + [value];
      }
      AddUniqueProperties(old(selectedCategories), value);
    }

    /** `handleNeighborhoodChange`: appends a non-empty slug not yet selected. */
    method HandleNeighborhoodChange(value: string)
      modifies this
      ensures selectedNeighborhoods == AddUnique(old(selectedNeighborhoods), value)
      ensures NoDuplicates(old(selectedNeighborhoods)) ==> NoDuplicates(selectedNeighborhoods)
      ensures stores == old(stores) && filteredStores == old(filteredStores)
      ensures selectedCategories == old(selectedCategories) && searchQuery == old(searchQuery)
      ensures isLoading == old(isLoading) && url == old(url)
    {
      if value != "" && value !in selectedNeighborhoods {
        selectedNeighborhoods := selectedNeighborhoods + [value];
      }
      AddUniqueProperties(old(selectedNeighborhoods), value);
    }

    /** `removeCategory`: drops every occurrence of the slug. */
    method RemoveCategory(category: string)
      modifies this
      ensures selectedCategories == RemoveAll(old(selectedCategories), category)
      ensures category !in selectedCategories
      ensures stores == old(stores) && filteredStores == old(filteredStores)
      ensures selectedNeighborhoods == old(selectedNeighborhoods) && searchQuery == old(searchQuery)
      ensures isLoading == old(isLoading) && url == old(url)
    {
      selectedCategories := RemoveAll(selectedCategories, category);
    }

    /** `removeNeighborhood`: drops every occurrence of the slug. */
    method RemoveNeighborhood(neighborhood: string)
      modifies this
      ensures selectedNeighborhoods == RemoveAll(old(selectedNeighborhoods), neighborhood)
      ensures neighborhood !in selectedNeighborhoods
      ensures stores == old(stores) && filteredStores == old(filteredStores)
      ensures selectedCategories == old(selectedCategories) && searchQuery == old(searchQuery)
      ensures isLoading == old(isLoading) && url == old(url)
    {
      selectedNeighborhoods := RemoveAll(selectedNeighborhoods, neighborhood);
    }

    /** `clearFilters`: afterwards no filter is active. */
    method ClearFilters()
      modifies this
      ensures selectedCategories == [] && selectedNeighborhoods == [] && searchQuery == ""
      ensures !HasActiveFilters()
      ensures stores == old(stores) && filteredStores == old(filteredStores)
      ensures isLoading == old(isLoading) && url == old(url)
    {
      selectedCategories := [];
      selectedNeighborhoods := [];
      searchQuery := "";
    }

    /** `hasActiveFilters`, read as a truth value. */
    predicate HasActiveFilters()
      reads this
    {
      ActiveFilters(selectedCategories, selectedNeighborhoods, searchQuery)
    }
  }

  /**
   * With no selection and no query, the filter effect shows every loaded store,
   * and after clearing the URL effect writes no parameter at all.
   */
  lemma ClearedPageShowsAll(stores: seq<Store>, fetched: seq<Store>)
    requires AllHaveNeighborhood(stores) && AllHaveNeighborhood(fetched)
    ensures FilterOutcome(stores, [], [], "", fetched) == stores
    ensures UrlParams([], []) == []
  {
    FilterOutcomeSpec(stores, [], [], "", fetched);
  }
}
