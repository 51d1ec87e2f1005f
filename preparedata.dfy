/**
 * The data summary of scripts/prepare-data.js: the stores of the export
 * counted by primary category and by neighbourhood, both listings ordered by
 * count with only the ten largest neighbourhoods shown, and three data-quality
 * counters. Reading the export file and the console output are left out; the
 * parsed records are the input and the printed values the result.
 */
module PrepareData {
  import opened Wrappers
  import opened Types
  import opened Ranking

  datatype Coordinates = Coordinates(lat: real, lng: real)

  /** `store.hours`, with the one member the summary reads. */
  datatype ExportHours = ExportHours(weekdayText: Option<seq<string>>)

  /** One record of the export, with the members the summary reads. */
  datatype ExportStore = ExportStore(
    primaryCategoryName: Option<string>,
    neighborhoodName: Option<string>,
    cardDescription: Option<string>,
    location: Option<Coordinates>,
    hours: Option<ExportHours>)

  /** `store.primaryCategory?.name || 'Uncategorized'` */
  function CategoryLabel(store: ExportStore): string {
    OrElse(store.primaryCategoryName, "Uncategorized")
  }

  /** `store.neighborhood?.name || 'Unknown'` */
  function NeighborhoodLabel(store: ExportStore): string {
    OrElse(store.neighborhoodName, "Unknown")
  }

  function CategoryLabels(stores: seq<ExportStore>): (r: seq<string>)
    ensures |r| == |stores| && forall i :: 0 <= i < |stores| ==> r[i] == CategoryLabel(stores[i])
  {
    seq(|stores|, i requires 0 <= i < |stores| => CategoryLabel(stores[i]))
  }

  function NeighborhoodLabels(stores: seq<ExportStore>): (r: seq<string>)
    ensures |r| == |stores| && forall i :: 0 <= i < |stores| ==> r[i] == NeighborhoodLabel(stores[i])
  {
    seq(|stores|, i requires 0 <= i < |stores| => NeighborhoodLabel(stores[i]))
  }

  /** The counting object after `counts[k] = (counts[k] || 0) + 1` for each key in turn. */
  function CountMap(keys: seq<string>): map<string, nat> {
    if keys == [] then map[]
    else
      var counts := CountMap(keys[..|keys| - 1]);
      var k := keys[|keys| - 1];
      counts[k := (if k in counts then counts[k] else 0) + 1]
  }

  /** The keys of the counting object in the order `Object.entries` lists them: first appearance. */
  function FirstSeen(keys: seq<string>): seq<string> {
    if keys == [] then []
    else
      var order := FirstSeen(keys[..|keys| - 1]);
      var k := keys[|keys| - 1];
      if k in order then order else order + [k]
  }

  /** A key is counted exactly when it occurs, and its count is its number of occurrences. */
  lemma {:induction false} CountMapMeaning(keys: seq<string>, k: string)
    ensures k in CountMap(keys) <==> k in keys
    ensures k in CountMap(keys) ==> CountMap(keys)[k] == multiset(keys)[k]
  {
    if keys != [] {
      var init := keys[..|keys| - 1];
      assert keys == init + [keys[|keys| - 1]];
      CountMapMeaning(init, k);
    }
  }

  /** The entries list every key that occurs, once. */
  lemma {:induction false} FirstSeenMeaning(keys: seq<string>)
    ensures NoDuplicates(FirstSeen(keys))
    ensures forall k :: k in FirstSeen(keys) <==> k in keys
  {
    if keys != [] {
      var init := keys[..|keys| - 1];
      assert keys == init + [keys[|keys| - 1]];
      FirstSeenMeaning(init);
    }
  }

  /** One printed line: a name and its count. */
  datatype Count = Count(name: string, count: nat)

  function CountOf(c: Count): nat {
    c.count
  }

  /** `Object.entries(counts)` in the order `order`. */
  function Listing(order: seq<string>, counts: map<string, nat>): (r: seq<Count>)
    requires forall k :: k in order ==> k in counts
    ensures |r| == |order|
    ensures forall i :: 0 <= i < |order| ==> r[i] == Count(order[i], counts[order[i]])
  {
    if order == [] then [] else [Count(order[0], counts[order[0]])] + Listing(order[1..], counts)
  }

  /** Changing the count of one listed key changes the total by the difference. */
  lemma {:induction false} ListingUpdate(order: seq<string>, counts: map<string, nat>, k: string, v: nat)
    requires NoDuplicates(order) && k in order
    requires forall j :: j in order ==> j in counts
    ensures Total(Listing(order, counts[k := v]), CountOf) + counts[k] == Total(Listing(order, counts), CountOf) + v
  {
    if order[0] == k {
      assert k !in order[1..] by {
        forall b | 0 <= b < |order[1..]| ensures order[1..][b] != k {
          assert order[1..][b] == order[b + 1];
        }
      }
      ListingOther(order[1..], counts, k, v);
    } else {
      assert NoDuplicates(order[1..]) by {
        forall a, b | 0 <= a < b < |order[1..]| ensures order[1..][a] != order[1..][b] {
          assert order[1..][a] == order[a + 1] && order[1..][b] == order[b + 1];
        }
      }
      ListingUpdate(order[1..], counts, k, v);
    }
  }

  /** Changing the count of a key that is not listed changes nothing. */
  lemma {:induction false} ListingOther(order: seq<string>, counts: map<string, nat>, k: string, v: nat)
    requires k !in order
    requires forall j :: j in order ==> j in counts
    ensures Total(Listing(order, counts[k := v]), CountOf) == Total(Listing(order, counts), CountOf)
  {
    if order != [] {
      ListingOther(order[1..], counts, k, v);
    }
  }

  /** Listing one more key adds its count. */
  lemma ListingAppend(order: seq<string>, counts: map<string, nat>, k: string)
    requires forall j :: j in order ==> j in counts
    requires k in counts
    ensures Total(Listing(order + [k], counts), CountOf) == Total(Listing(order, counts), CountOf) + counts[k]
  {
    assert Listing(order + [k], counts) == Listing(order, counts) + [Count(k, counts[k])];
    TotalAppend(Listing(order, counts), Count(k, counts[k]), CountOf);
  }

  /** The counts add up to the number of keys: every key is counted exactly once. */
  lemma {:induction false} ListingTotal(keys: seq<string>)
    ensures forall k :: k in FirstSeen(keys) ==> k in CountMap(keys)
    ensures Total(Listing(FirstSeen(keys), CountMap(keys)), CountOf) == |keys|
  {
    FirstSeenMeaning(keys);
    forall k | k in FirstSeen(keys) ensures k in CountMap(keys) {
      CountMapMeaning(keys, k);
    }
    if keys != [] {
      var init := keys[..|keys| - 1];
      var last := keys[|keys| - 1];
      var order, counts := FirstSeen(init), CountMap(init);
      ListingTotal(init);
      FirstSeenMeaning(init);
      CountMapMeaning(init, last);
      if last in counts {
        ListingUpdate(order, counts, last, counts[last] + 1);
      } else {
        ListingOther(order, counts, last, 1);
        ListingAppend(order, counts[last := 1], last);
      }
    }
  }

  /**
   * One `forEach` counting loop. `order` makes explicit the order in which
   * the object's keys were created, which is the order `Object.entries`
   * lists them in.
   */
  method Tally(keys: seq<string>) returns (order: seq<string>, counts: map<string, nat>)
    ensures order == FirstSeen(keys) && counts == CountMap(keys)
  {
    order, counts := [], map[];
    for i := 0 to |keys|
      invariant order == FirstSeen(keys[..i]) && counts == CountMap(keys[..i])
    {
      var k := keys[i];
      assert keys[..i + 1][..i] == keys[..i];
      if k !in order {
        order := order + [k];
      }
      counts := counts[k := (if k in counts then counts[k] else 0) + 1];
    }
    assert keys[..|keys|] == keys;
  }

  /**
   * The counts of `keys`, largest first: every key that occurs is listed once
   * with its number of occurrences, and the counts add up to the number of keys.
   */
  method RankedCounts(keys: seq<string>) returns (listing: seq<Count>)
    ensures NonIncreasing(listing, CountOf)
    ensures Total(listing, CountOf) == |keys|
    ensures forall c :: c in listing ==> c.name in keys && c.count == multiset(keys)[c.name]
    ensures forall k :: k in keys ==> exists c :: c in listing && c.name == k
    ensures NoDuplicates(Names(listing))
  {
    var order, counts := Tally(keys);
    ListingTotal(keys);
    var entries := Listing(order, counts);
    listing := SortDesc(entries, CountOf);
    RankedListing(keys, order, counts, entries, listing);
  }

  function Names(listing: seq<Count>): (r: seq<string>)
    ensures |r| == |listing| && forall i :: 0 <= i < |listing| ==> r[i] == listing[i].name
  {
    seq(|listing|, i requires 0 <= i < |listing| => listing[i].name)
  }

  /** Reordering the listing keeps each key's count, every key and the names distinct. */
  lemma RankedListing(keys: seq<string>, order: seq<string>, counts: map<string, nat>, entries: seq<Count>, listing: seq<Count>)
    requires order == FirstSeen(keys) && counts == CountMap(keys)
    requires |entries| == |order| && forall i :: 0 <= i < |order| ==> order[i] in counts && entries[i] == Count(order[i], counts[order[i]])
    requires multiset(listing) == multiset(entries)
    ensures forall c :: c in listing ==> c.name in keys && c.count == multiset(keys)[c.name]
    ensures forall k :: k in keys ==> exists c :: c in listing && c.name == k
    ensures NoDuplicates(Names(listing))
  {
    FirstSeenMeaning(keys);
    forall c | c in listing ensures c.name in keys && c.count == multiset(keys)[c.name] {
      assert c in multiset(entries);
      var j :| 0 <= j < |entries| && entries[j] == c;
      CountMapMeaning(keys, order[j]);
    }
    forall k | k in keys ensures exists c :: c in listing && c.name == k {
      var j :| 0 <= j < |order| && order[j] == k;
      assert entries[j] in multiset(listing);
    }
    assert NoDuplicates(entries) by {
      forall a, b | 0 <= a < b < |entries| ensures entries[a] != entries[b] {
        assert entries[a].name == order[a] && entries[b].name == order[b];
      }
    }
    MultisetDistinct(entries);
    forall a, b | 0 <= a < b < |listing| ensures Names(listing)[a] != Names(listing)[b] {
      if listing[a].name == listing[b].name {
        assert listing[a] in multiset(entries) && listing[b] in multiset(entries);
        var i :| 0 <= i < |entries| && entries[i] == listing[a];
        var j :| 0 <= j < |entries| && entries[j] == listing[b];
        assert order[i] == order[j];
        SameEntryTwice(listing, a, b);
        assert false;
      }
    }
  }

  /** In a list without repeats every entry occurs once. */
  lemma {:induction false} MultisetDistinct<T>(xs: seq<T>)
    requires NoDuplicates(xs)
    ensures forall x :: multiset(xs)[x] <= 1
  {
    if xs != [] {
      var rest := xs[1..];
      assert xs == [xs[0]] + rest;
      assert NoDuplicates(rest) by {
        forall a, b | 0 <= a < b < |rest| ensures rest[a] != rest[b] {
          assert rest[a] == xs[a + 1] && rest[b] == xs[b + 1];
        }
      }
      MultisetDistinct(rest);
      assert xs[0] !in rest by {
        forall b | 0 <= b < |rest| ensures rest[b] != xs[0] {
          assert rest[b] == xs[b + 1];
        }
      }
    }
  }

  /** An entry at two positions occurs at least twice. */
  lemma SameEntryTwice<T>(xs: seq<T>, a: nat, b: nat)
    requires a < b < |xs| && xs[a] == xs[b]
    ensures multiset(xs)[xs[a]] >= 2
  {
    var x := xs[a];
    assert xs == xs[..b] + [x] + xs[b + 1..];
    assert xs[..b][a] == x;
  }

  /** The most neighbourhoods printed: `.slice(0, 10)`. */
  const NeighborhoodsShown: nat := 10

  /**
   * The first ten entries of a listing. Of a listing ordered by count they
   * are the largest: no entry left out has a larger count than one shown.
   */
  function Top(listing: seq<Count>): (r: seq<Count>)
    ensures |r| == if |listing| <= NeighborhoodsShown then |listing| else NeighborhoodsShown
    ensures r == listing[..|r|]
    ensures NonIncreasing(listing, CountOf) ==>
      forall i, j :: 0 <= i < |r| <= j < |listing| ==> r[i].count >= listing[j].count
  {
    if |listing| <= NeighborhoodsShown then listing else listing[..NeighborhoodsShown]
  }

  /** `!store.card_description` */
  predicate MissingDescription(store: ExportStore) {
    !Truthy(store.cardDescription)
  }

  /** `!store.location || !store.location.lat || !store.location.lng`: a zero coordinate is falsy. */
  predicate MissingLocation(store: ExportStore) {
    store.location.None? || store.location.value.lat == 0.0 || store.location.value.lng == 0.0
  }

  /** `!store.hours || !store.hours.weekday_text`: a present array is truthy, even when empty. */
  predicate MissingHours(store: ExportStore) {
    store.hours.None? || store.hours.value.weekdayText.None?
  }

  datatype Check = DescriptionCheck | LocationCheck | HoursCheck

  predicate Missing(store: ExportStore, check: Check) {
    match check
    case DescriptionCheck => MissingDescription(store)
    case LocationCheck => MissingLocation(store)
    case HoursCheck => MissingHours(store)
  }

  /** The number of stores the check finds lacking: none exactly when it is 0, all exactly when it is the total. */
  function CountMissing(stores: seq<ExportStore>, check: Check): (n: nat)
    ensures n <= |stores|
    ensures n == 0 <==> forall i :: 0 <= i < |stores| ==> !Missing(stores[i], check)
    ensures n == |stores| <==> forall i :: 0 <= i < |stores| ==> Missing(stores[i], check)
  {
    if stores == [] then 0
    else
      var init := stores[..|stores| - 1];
      var n := CountMissing(init, check) + if Missing(stores[|stores| - 1], check) then 1 else 0;
      assert forall i :: 0 <= i < |init| ==> init[i] == stores[i];
      n
  }

  /** The three data-quality counters. */
  datatype Quality = Quality(missingDescription: nat, missingLocation: nat, missingHours: nat)

  /** One more store adds one to the count exactly when the check finds it lacking. */
  lemma CountMissingAppend(stores: seq<ExportStore>, store: ExportStore, check: Check)
    ensures CountMissing(stores + [store], check) == CountMissing(stores, check) + if Missing(store, check) then 1 else 0
  {
    var all := stores + [store];
    assert all[..|all| - 1] == stores && all[|all| - 1] == store;
  }

  /** The data-quality loop: each counter counts the stores its check finds lacking. */
  method CheckQuality(stores: seq<ExportStore>) returns (q: Quality)
    ensures q == Counts(stores)
  {
    q := Quality(0, 0, 0);
    for i := 0 to |stores|
      invariant q == Counts(stores[..i])
    {
      q := CountStore(stores, i, q);
    }
    assert stores[..|stores|] == stores;
  }

  /** The three counts of stores lacking a description, a location and hours. */
  function Counts(stores: seq<ExportStore>): Quality {
    Quality(CountMissing(stores, DescriptionCheck), CountMissing(stores, LocationCheck), CountMissing(stores, HoursCheck))
  }

  /** One turn of the quality loop: each counter goes up by one exactly when its check finds the store lacking. */
  method CountStore(stores: seq<ExportStore>, i: nat, q: Quality) returns (q': Quality)
    requires i < |stores| && q == Counts(stores[..i])
    ensures q' == Counts(stores[..i + 1])
  {
    var store := stores[i];
    ghost var done := stores[..i];
    assert stores[..i + 1] == done + [store];
    CountMissingAppend(done, store, DescriptionCheck);
    CountMissingAppend(done, store, LocationCheck);
    CountMissingAppend(done, store, HoursCheck);
    var d := if MissingDescription(store) then 1 else 0;
    var l := if MissingLocation(store) then 1 else 0;
    var h := if MissingHours(store) then 1 else 0;
    q' := Quality(q.missingDescription + d, q.missingLocation + l, q.missingHours + h);
  }

  /**
   * Of a ranked listing of the counts of `keys`, the entries shown are
   * entries of the listing, and no key left out occurs more often than any
   * key shown.
   */
  lemma ShownAreLargest(keys: seq<string>, listing: seq<Count>)
    requires NonIncreasing(listing, CountOf)
    requires forall c :: c in listing ==> c.count == multiset(keys)[c.name]
    requires forall k :: k in keys ==> exists c :: c in listing && c.name == k
    ensures forall c :: c in Top(listing) ==> c in listing
    ensures forall c, k :: c in Top(listing) && k in keys && k !in Names(Top(listing)) ==> multiset(keys)[k] <= c.count
  {
    var shown := Top(listing);
    forall c | c in shown ensures c in listing {
      var j :| 0 <= j < |shown| && shown[j] == c;
      assert listing[j] == c;
    }
    forall c, k | c in shown && k in keys && k !in Names(shown)
      ensures multiset(keys)[k] <= c.count
    {
      var e :| e in listing && e.name == k;
      var j :| 0 <= j < |listing| && listing[j] == e;
      assert j >= |shown|;
    }
  }

  /**
   * The first ten entries of a listing of the counts of `keys` are real keys
   * with their counts, named once each; fewer than ten are shown only when
   * every key is shown.
   */
  lemma TopOfListing(keys: seq<string>, listing: seq<Count>)
    requires forall c :: c in listing ==> c.name in keys && c.count == multiset(keys)[c.name]
    requires forall k :: k in keys ==> exists c :: c in listing && c.name == k
    requires NoDuplicates(Names(listing))
    ensures forall c :: c in Top(listing) ==> c.name in keys && c.count == multiset(keys)[c.name]
    ensures NoDuplicates(Names(Top(listing)))
    ensures |Top(listing)| == NeighborhoodsShown || forall k :: k in keys ==> k in Names(Top(listing))
  {
    var shown := Top(listing);
    forall c | c in shown ensures c in listing {
      var j :| 0 <= j < |shown| && shown[j] == c;
      assert listing[j] == c;
    }
    assert forall a :: 0 <= a < |shown| ==> Names(shown)[a] == Names(listing)[a];
    if |shown| != NeighborhoodsShown {
      assert shown == listing;
      forall k | k in keys ensures k in Names(shown) {
        var c :| c in listing && c.name == k;
        var j :| 0 <= j < |listing| && listing[j] == c;
        assert Names(shown)[j] == k;
      }
    }
  }

  /** Everything the script prints. */
  datatype Summary = Summary(total: nat, categories: seq<Count>, neighborhoods: seq<Count>, quality: Quality)

  /** The category listing: every category with its count, largest first, adding up to the total. */
  method CategorySummary(stores: seq<ExportStore>) returns (categories: seq<Count>)
    ensures NonIncreasing(categories, CountOf) && Total(categories, CountOf) == |stores|
    ensures forall c :: c in categories ==> c.name in CategoryLabels(stores) && c.count == multiset(CategoryLabels(stores))[c.name]
    ensures forall i :: 0 <= i < |stores| ==> exists c :: c in categories && c.name == CategoryLabel(stores[i])
    ensures NoDuplicates(Names(categories))
  {
    categories := RankedCounts(CategoryLabels(stores));
    forall i | 0 <= i < |stores| ensures exists c :: c in categories && c.name == CategoryLabel(stores[i]) {
      assert CategoryLabels(stores)[i] in CategoryLabels(stores);
    }
  }

  /** The neighbourhood listing: the ten largest neighbourhoods with their counts, largest first. */
  method NeighborhoodSummary(stores: seq<ExportStore>) returns (shown: seq<Count>)
    ensures |shown| <= NeighborhoodsShown && NonIncreasing(shown, CountOf)
    ensures forall c :: c in shown ==> c.name in NeighborhoodLabels(stores) && c.count == multiset(NeighborhoodLabels(stores))[c.name]
    ensures NoDuplicates(Names(shown))
    ensures |shown| == NeighborhoodsShown || forall k :: k in NeighborhoodLabels(stores) ==> k in Names(shown)
    ensures forall c, k :: c in shown && k in NeighborhoodLabels(stores) && k !in Names(shown) ==>
      multiset(NeighborhoodLabels(stores))[k] <= c.count
  {
    var neighborhoods := RankedCounts(NeighborhoodLabels(stores));
    shown := Top(neighborhoods);
    ShownAreLargest(NeighborhoodLabels(stores), neighborhoods);
    TopOfListing(NeighborhoodLabels(stores), neighborhoods);
  }

  /**
   * The whole summary: the total, the category listing with each category's
   * count, the ten largest neighbourhoods with theirs, and the quality
   * counters, each the number of stores its check finds lacking.
   */
  method Summarize(stores: seq<ExportStore>) returns (s: Summary)
    ensures s.total == |stores|
    ensures NonIncreasing(s.categories, CountOf) && Total(s.categories, CountOf) == |stores|
    ensures forall c :: c in s.categories ==> c.name in CategoryLabels(stores) && c.count == multiset(CategoryLabels(stores))[c.name]
    ensures forall i :: 0 <= i < |stores| ==> exists c :: c in s.categories && c.name == CategoryLabel(stores[i])
    ensures NoDuplicates(Names(s.categories))
    ensures |s.neighborhoods| <= NeighborhoodsShown && NonIncreasing(s.neighborhoods, CountOf)
    ensures forall c :: c in s.neighborhoods ==> c.name in NeighborhoodLabels(stores) && c.count == multiset(NeighborhoodLabels(stores))[c.name]
    ensures NoDuplicates(Names(s.neighborhoods))
    ensures |s.neighborhoods| == NeighborhoodsShown || forall k :: k in NeighborhoodLabels(stores) ==> k in Names(s.neighborhoods)
    ensures forall c, k :: c in s.neighborhoods && k in NeighborhoodLabels(stores) && k !in Names(s.neighborhoods) ==>
      multiset(NeighborhoodLabels(stores))[k] <= c.count
    ensures s.quality == Counts(stores)
    ensures s.quality.missingDescription <= |stores| && s.quality.missingLocation <= |stores| && s.quality.missingHours <= |stores|
  {
    var categories := CategorySummary(stores);
    var neighborhoods := NeighborhoodSummary(stores);
    var quality := CheckQuality(stores);
    s := Summary(|stores|, categories, neighborhoods, quality);
  }
}
