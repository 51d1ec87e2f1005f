/**
 * The New York city page (app/cities/new-york/page.tsx): the stores grouped
 * by the name of their neighbourhood's region, the groups ordered by size,
 * and for each group the first six store cards and a "View all" link when
 * there are more. The store, category and neighbourhood lists are inputs.
 */
module CityPage {
  import opened Wrappers
  import opened Text
  import opened Types
  import opened Ranking

  /** The group a store lands in: `store.neighborhood?.region?.name || 'Unknown'`. */
  function GroupKey(store: Store): string {
    OrElse(RegionName(store), "Unknown")
  }

  /** The stores of group `key`, in input order. */
  function InRegion(stores: seq<Store>, key: string): (r: seq<Store>)
    ensures |r| <= |stores|
    ensures forall s :: s in r ==> s in stores && GroupKey(s) == key
  {
    if stores == [] then []
    else
      var init := stores[..|stores| - 1];
      var last := stores[|stores| - 1];
      InRegion(init, key) + (if GroupKey(last) == key then [last] else [])
  }

  /** A store of group `key` is kept in it. */
  lemma {:induction false} InRegionComplete(stores: seq<Store>, key: string, i: nat)
    requires i < |stores| && GroupKey(stores[i]) == key
    ensures stores[i] in InRegion(stores, key)
  {
    if i < |stores| - 1 {
      var init := stores[..|stores| - 1];
      assert init[i] == stores[i];
      InRegionComplete(init, key, i);
    }
  }

  /** The names of the groups the stores fall into. */
  function GroupKeys(stores: seq<Store>): set<string> {
    if stores == [] then {}
    else GroupKeys(stores[..|stores| - 1]) + {GroupKey(stores[|stores| - 1])}
  }

  /** A name is a group name exactly when some store falls into that group. */
  lemma {:induction false} GroupKeysMeaning(stores: seq<Store>, k: string)
    ensures k in GroupKeys(stores) <==> exists i :: 0 <= i < |stores| && GroupKey(stores[i]) == k
  {
    if stores != [] {
      var init := stores[..|stores| - 1];
      GroupKeysMeaning(init, k);
      if k in GroupKeys(init) {
        var i :| 0 <= i < |init| && GroupKey(init[i]) == k;
        assert stores[i] == init[i];
      }
    }
  }

  /** The total size of the groups named in `order`. */
  function SumSizes(order: seq<string>, groups: map<string, seq<Store>>): nat {
    if order == [] then 0
    else (if order[0] in groups then |groups[order[0]]| else 0) + SumSizes(order[1..], groups)
  }

  /** Replacing one named group changes the total by the change in its size. */
  lemma {:induction false} SumSizesUpdate(order: seq<string>, groups: map<string, seq<Store>>, key: string, v: seq<Store>)
    requires NoDuplicates(order) && key in order && key in groups
    ensures SumSizes(order, groups[key := v]) + |groups[key]| == SumSizes(order, groups) + |v|
  {
    if order[0] == key {
      assert key !in order[1..];
      SumSizesOther(order[1..], groups, key, v);
    } else {
      SumSizesUpdate(order[1..], groups, key, v);
    }
  }

  /** A group not named in `order` does not count. */
  lemma {:induction false} SumSizesOther(order: seq<string>, groups: map<string, seq<Store>>, key: string, v: seq<Store>)
    requires key !in order
    ensures SumSizes(order, groups[key := v]) == SumSizes(order, groups)
  {
    if order != [] {
      SumSizesOther(order[1..], groups, key, v);
    }
  }

  /** Naming one more group adds its size. */
  lemma {:induction false} SumSizesAppend(order: seq<string>, groups: map<string, seq<Store>>, key: string)
    ensures SumSizes(order + [key], groups) == SumSizes(order, groups) + (if key in groups then |groups[key]| else 0)
  {
    if order != [] {
      assert (order + [key])[1..] == order[1..] + [key];
      SumSizesAppend(order[1..], groups, key);
    }
  }

  /**
   * `groups` holds exactly the groups of `stores`, each with exactly its
   * stores in input order, and `order` names each group once.
   */
  ghost predicate Grouped(stores: seq<Store>, order: seq<string>, groups: map<string, seq<Store>>) {
    && NoDuplicates(order)
    && (forall k :: k in groups <==> k in order)
    && (forall k :: k in groups <==> k in GroupKeys(stores))
    && (forall k :: k in groups ==> groups[k] == InRegion(stores, k))
    && SumSizes(order, groups) == |stores|
  }

  /**
   * The `reduce` that builds `storesByRegion`: `order` is the order in which
   * the groups were first created (the order `Object.entries` lists them in),
   * and each group holds exactly its stores, in input order. Every store is in
   * exactly one group, so the sizes add up to the number of stores.
   */
  method GroupByRegion(stores: seq<Store>) returns (order: seq<string>, groups: map<string, seq<Store>>)
    ensures NoDuplicates(order)
    ensures forall k :: k in groups <==> k in order
    ensures forall k :: k in groups <==> k in GroupKeys(stores)
    ensures forall k :: k in groups ==> groups[k] == InRegion(stores, k)
    ensures SumSizes(order, groups) == |stores|
  {
    order, groups := [], map[];
    for i := 0 to |stores|
      invariant Grouped(stores[..i], order, groups)
    {
      PrefixSnoc(stores, i);
      order, groups := AddToGroup(stores[..i], stores[i], order, groups);
    }
    assert stores[..|stores|] == stores;
  }

  /** One step of the `reduce`: creates the store's group if missing, then appends the store to it. */
  method AddToGroup(ghost prefix: seq<Store>, store: Store, order: seq<string>, groups: map<string, seq<Store>>)
    returns (order': seq<string>, groups': map<string, seq<Store>>)
    requires Grouped(prefix, order, groups)
    ensures Grouped(prefix + [store], order', groups')
  {
    var region := GroupKey(store);
    order', groups' := order, groups;
    if region !in groups {
      order' := order + [region];
      groups' := groups[region := []];
    }
    groups' := groups'[region := groups'[region] + [store]];
    GroupStep(prefix, store, order, groups, order', groups');
  }

  /** The group step keeps the groups exact. */
  lemma GroupStep(prefix: seq<Store>, store: Store, order: seq<string>, groups: map<string, seq<Store>>,
                  order': seq<string>, groups': map<string, seq<Store>>)
    requires Grouped(prefix, order, groups)
    requires order' == if GroupKey(store) in groups then order else order + [GroupKey(store)]
    requires groups' == groups[GroupKey(store) := (if GroupKey(store) in groups then groups[GroupKey(store)] else []) + [store]]
    ensures Grouped(prefix + [store], order', groups')
  {
    var region := GroupKey(store);
    StepOrder(order, groups, region, order', groups');
    StepKeys(prefix, store, groups, groups');
    StepContents(prefix, store, groups, groups');
    StepSizes(order, groups, region, store, order', groups');
  }

  /** The group step names a new group once, at the end. */
  lemma StepOrder(order: seq<string>, groups: map<string, seq<Store>>, region: string,
                  order': seq<string>, groups': map<string, seq<Store>>)
    requires NoDuplicates(order) && forall k :: k in groups <==> k in order
    requires order' == if region in groups then order else order + [region]
    requires forall k :: k in groups' <==> k in groups || k == region
    ensures NoDuplicates(order') && forall k :: k in groups' <==> k in order'
  {
  }

  /** The group step adds the store's group to the group names. */
  lemma StepKeys(prefix: seq<Store>, store: Store, groups: map<string, seq<Store>>, groups': map<string, seq<Store>>)
    requires forall k :: k in groups <==> k in GroupKeys(prefix)
    requires forall k :: k in groups' <==> k in groups || k == GroupKey(store)
    ensures forall k :: k in groups' <==> k in GroupKeys(prefix + [store])
  {
    assert (prefix + [store])[..|prefix|] == prefix;
  }

  /** The group step appends the store to its own group and leaves the others alone. */
  lemma StepContents(prefix: seq<Store>, store: Store, groups: map<string, seq<Store>>, groups': map<string, seq<Store>>)
    requires forall k :: k in groups <==> k in GroupKeys(prefix)
    requires forall k :: k in groups ==> groups[k] == InRegion(prefix, k)
    requires groups' == groups[GroupKey(store) := (if GroupKey(store) in groups then groups[GroupKey(store)] else []) + [store]]
    ensures forall k :: k in groups' ==> groups'[k] == InRegion(prefix + [store], k)
  {
    var region := GroupKey(store);
    InRegionSnoc(prefix, store);
    if region !in groups {
      forall j | 0 <= j < |prefix| ensures GroupKey(prefix[j]) != region {
        GroupKeysMeaning(prefix, region);
      }
      InRegionNone(prefix, region);
    }
  }

  /** The group step adds one to the total size. */
  lemma StepSizes(order: seq<string>, groups: map<string, seq<Store>>, region: string, store: Store,
                  order': seq<string>, groups': map<string, seq<Store>>)
    requires NoDuplicates(order) && forall k :: k in groups <==> k in order
    requires order' == if region in groups then order else order + [region]
    requires groups' == groups[region := (if region in groups then groups[region] else []) + [store]]
    ensures SumSizes(order', groups') == SumSizes(order, groups) + 1
  {
    if region in groups {
      SumSizesUpdate(order, groups, region, groups'[region]);
    } else {
      assert [] + [store] == [store];
      NewGroupSize(order, groups, region, store);
    }
  }

  /** Creating a group and appending one store to it adds one to the total size. */
  lemma NewGroupSize(order: seq<string>, groups: map<string, seq<Store>>, region: string, store: Store)
    requires NoDuplicates(order) && forall k :: k in groups <==> k in order
    requires region !in groups
    ensures SumSizes(order + [region], groups[region := [store]]) == SumSizes(order, groups) + 1
  {
    var started := groups[region := []];
    SumSizesOther(order, groups, region, []);
    SumSizesAppend(order, started, region);
    StepOrder(order, groups, region, order + [region], started);
    SumSizesUpdate(order + [region], started, region, [store]);
    assert started[region := [store]] == groups[region := [store]];
  }

  lemma PrefixSnoc(stores: seq<Store>, i: nat)
    requires i < |stores|
    ensures stores[..i + 1] == stores[..i] + [stores[i]]
  {
  }

  /** A list without repeats has as many elements as it names. */
  lemma {:induction false} DistinctCount(order: seq<string>)
    requires NoDuplicates(order)
    ensures |(set k | k in order)| == |order|
  {
    if order != [] {
      var rest := order[1..];
      assert NoDuplicates(rest) by {
        forall a, b | 0 <= a < b < |rest| ensures rest[a] != rest[b] {
          assert rest[a] == order[a + 1] && rest[b] == order[b + 1];
        }
      }
      DistinctCount(rest);
      assert (set k | k in order) == (set k | k in rest) + {order[0]};
      assert order[0] !in rest by {
        forall b | 0 <= b < |rest| ensures rest[b] != order[0] {
          assert rest[b] == order[b + 1];
        }
      }
    }
  }

  /** One more store extends its own group and no other. */
  lemma InRegionSnoc(stores: seq<Store>, store: Store)
    ensures forall k :: InRegion(stores + [store], k) == InRegion(stores, k) + (if GroupKey(store) == k then [store] else [])
  {
    forall k ensures InRegion(stores + [store], k) == InRegion(stores, k) + (if GroupKey(store) == k then [store] else []) {
      assert (stores + [store])[..|stores|] == stores;
    }
  }

  /** A group no store belongs to is empty. */
  lemma InRegionNone(stores: seq<Store>, key: string)
    requires forall j :: 0 <= j < |stores| ==> GroupKey(stores[j]) != key
    ensures InRegion(stores, key) == []
  {
  }

  /** A region with its stores: one of the entries of `Object.entries(storesByRegion)`. */
  datatype Entry = Entry(region: string, stores: seq<Store>)

  /** The entries in the order of `order`. */
  function Entries(order: seq<string>, groups: map<string, seq<Store>>): (r: seq<Entry>)
    requires forall k :: k in order ==> k in groups
    ensures |r| == |order|
    ensures forall i :: 0 <= i < |order| ==> r[i] == Entry(order[i], groups[order[i]])
  {
    if order == [] then [] else [Entry(order[0], groups[order[0]])] + Entries(order[1..], groups)
  }

  /** The number of stores of an entry, the key the regions are sorted by. */
  function EntrySize(e: Entry): nat {
    |e.stores|
  }

  /** The entries list the sizes of the named groups. */
  lemma {:induction false} TotalStoresOfEntries(order: seq<string>, groups: map<string, seq<Store>>)
    requires forall k :: k in order ==> k in groups
    ensures Total(Entries(order, groups), EntrySize) == SumSizes(order, groups)
  {
    if order != [] {
      TotalStoresOfEntries(order[1..], groups);
    }
  }

  /** The most cards shown per region. */
  const CardsShown := 6

  /** What the page shows for one region. */
  datatype Section = Section(region: string, count: nat, cards: seq<Store>, viewAllHref: Option<string>)

  /** One region's section: the first six cards, and the "View all" link to the map filtered by the lower-cased region name when there are more. */
  function RegionSection(e: Entry): (r: Section)
    ensures r.region == e.region && r.count == |e.stores|
    ensures |r.cards| == if |e.stores| <= CardsShown then |e.stores| else CardsShown
    ensures r.cards == e.stores[..|r.cards|]
    ensures r.viewAllHref.Some? <==> |e.stores| > CardsShown
    ensures r.viewAllHref.Some? ==> r.viewAllHref.value == "/cities/new-york/map?region=" + Lower(e.region)
  {
    var cards := if |e.stores| <= CardsShown then e.stores else e.stores[..CardsShown];
    Section(e.region, |e.stores|, cards,
      if |e.stores| > CardsShown then Some("/cities/new-york/map?region=" + Lower(e.region)) else None)
  }

  /**
   * The page's data: the sorted region entries and the borough count shown in
   * the stats bar. Every region that occurs is listed once, with exactly its
   * stores; the counts add up to the number of stores; larger regions come
   * first; the borough count is the number of distinct regions.
   */
  method NewYorkCityPage(stores: seq<Store>) returns (sortedRegions: seq<Entry>, boroughs: nat)
    ensures NonIncreasing(sortedRegions, EntrySize)
    ensures Total(sortedRegions, EntrySize) == |stores|
    ensures forall e :: e in sortedRegions ==> e.stores == InRegion(stores, e.region)
    ensures forall i :: 0 <= i < |stores| ==> exists e :: e in sortedRegions && e.region == GroupKey(stores[i])
    ensures boroughs == |sortedRegions| == |GroupKeys(stores)|
  {
    var order, groups := GroupByRegion(stores);
    var entries := Entries(order, groups);
    TotalStoresOfEntries(order, groups);
    sortedRegions := SortDesc(entries, EntrySize);
    SortedEntriesCover(stores, order, groups, entries, sortedRegions);
    GroupCount(stores, order, groups);
    boroughs := |sortedRegions|;
  }

  /** There are as many groups as distinct group names. */
  lemma GroupCount(stores: seq<Store>, order: seq<string>, groups: map<string, seq<Store>>)
    requires NoDuplicates(order)
    requires forall k :: k in groups <==> k in order
    requires forall k :: k in groups <==> k in GroupKeys(stores)
    ensures |GroupKeys(stores)| == |order|
  {
    DistinctCount(order);
    assert (set k | k in order) == GroupKeys(stores);
  }

  /** Reordering the entries of the groups keeps each group's stores and loses no store's group. */
  lemma SortedEntriesCover(stores: seq<Store>, order: seq<string>, groups: map<string, seq<Store>>,
                           entries: seq<Entry>, sorted: seq<Entry>)
    requires forall k :: k in groups <==> k in order
    requires forall k :: k in groups <==> k in GroupKeys(stores)
    requires forall k :: k in groups ==> groups[k] == InRegion(stores, k)
    requires |entries| == |order| && forall i :: 0 <= i < |order| ==> entries[i] == Entry(order[i], groups[order[i]])
    requires multiset(sorted) == multiset(entries)
    ensures forall e :: e in sorted ==> e.stores == InRegion(stores, e.region)
    ensures forall i :: 0 <= i < |stores| ==> exists e :: e in sorted && e.region == GroupKey(stores[i])
  {
    forall e | e in sorted ensures e.stores == InRegion(stores, e.region) {
      assert e in multiset(entries);
      var j :| 0 <= j < |entries| && entries[j] == e;
      assert order[j] in groups;
    }
    forall i | 0 <= i < |stores|
      ensures exists e :: e in sorted && e.region == GroupKey(stores[i])
    {
      var k := GroupKey(stores[i]);
      GroupKeysMeaning(stores, k);
      var j :| 0 <= j < |order| && order[j] == k;
      assert entries[j] in multiset(sorted);
    }
  }
}
