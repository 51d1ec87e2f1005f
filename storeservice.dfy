/**
 * The content-repository data service (lib/data/sanity-store-service.ts): the
 * where-clause `filterStores` builds for its store query, with the predicate
 * that clause is meant to express, and the fallbacks the fetch wrappers use
 * when a query returns nothing or throws.
 *
 * A fetch is not run here: its outcome is a parameter (`Fetched`). GROQ is not
 * evaluated either; the clause is text, and its intended meaning is the
 * predicate `Selected` on stores.
 */
module StoreService {
  import opened Wrappers
  import opened Text
  import opened Types

  /** The outcome of a `client.fetch`: it threw, or it returned a value that may be `null`. */
  datatype Fetched<T> = Threw | Returned(result: Option<T>)

  /** The `filters` argument of `filterStores`; every group is optional. */
  datatype Filters = Filters(
    categories: Option<seq<string>>,
    neighborhoods: Option<seq<string>>,
    storeIds: Option<seq<string>>,
    citySlug: Option<string>)

  /** One per-value condition of the clause. */
  datatype Cond = CityIs(slug: string) | CategoryIs(slug: string) | NeighborhoodIs(slug: string) | IdIs(id: string)

  /** One pushed filter condition: the city test stands alone, each list becomes a disjunction. */
  datatype Group = Single(cond: Cond) | AnyOf(conds: seq<Cond>)

  /** A list group takes part only when it is present and non-empty. */
  predicate NonEmpty(xs: Option<seq<string>>) {
    xs.Some? && |xs.value| > 0
  }

  function CategoryConds(xs: seq<string>): (r: seq<Cond>)
    ensures |r| == |xs| && forall i :: 0 <= i < |xs| ==> r[i] == CategoryIs(xs[i])
  {
    if xs == [] then [] else [CategoryIs(xs[0])] + CategoryConds(xs[1..])
  }

  function NeighborhoodConds(xs: seq<string>): (r: seq<Cond>)
    ensures |r| == |xs| && forall i :: 0 <= i < |xs| ==> r[i] == NeighborhoodIs(xs[i])
  {
    if xs == [] then [] else [NeighborhoodIs(xs[0])] + NeighborhoodConds(xs[1..])
  }

  function IdConds(xs: seq<string>): (r: seq<Cond>)
    ensures |r| == |xs| && forall i :: 0 <= i < |xs| ==> r[i] == IdIs(xs[i])
  {
    if xs == [] then [] else [IdIs(xs[0])] + IdConds(xs[1..])
  }

  function CityGroup(f: Filters): seq<Group> {
    if Truthy(f.citySlug) then [Single(CityIs(f.citySlug.value))] else []
  }

  function CategoryGroup(f: Filters): seq<Group> {
    if NonEmpty(f.categories) then [AnyOf(CategoryConds(f.categories.value))] else []
  }

  function NeighborhoodGroup(f: Filters): seq<Group> {
    if NonEmpty(f.neighborhoods) then [AnyOf(NeighborhoodConds(f.neighborhoods.value))] else []
  }

  function IdGroup(f: Filters): seq<Group> {
    if NonEmpty(f.storeIds) then [AnyOf(IdConds(f.storeIds.value))] else []
  }

  /** The groups `filterStores` pushes, in the order city, categories, neighbourhoods, store ids. */
  function Groups(f: Filters): (r: seq<Group>)
    ensures |r| <= 4
  {
    CityGroup(f) + CategoryGroup(f) + NeighborhoodGroup(f) + IdGroup(f)
  }

  function Quote(s: string): string { "\"" + s + "\"" }

  /** The GROQ text of one condition; the value is interpolated as is. */
  function RenderCond(c: Cond): string {
    match c
    case CityIs(s) => "neighborhood->region->city->slug.current == " + Quote(s)
    case CategoryIs(s) => "primaryCategory->slug.current == " + Quote(s) + " || " + Quote(s) + " in secondaryCategories[]->slug.current"
    case NeighborhoodIs(s) => "neighborhood->slug.current == " + Quote(s)
    case IdIs(s) => "_id == " + Quote(s)
  }

  function RenderConds(cs: seq<Cond>): (r: seq<string>)
    ensures |r| == |cs|
  {
    if cs == [] then [] else [RenderCond(cs[0])] + RenderConds(cs[1..])
  }

  /** A list group is parenthesised; the city condition is not. */
  function RenderGroup(g: Group): string {
    match g
    case Single(c) => RenderCond(c)
    case AnyOf(cs) => "(" + Join(RenderConds(cs), " || ") + ")"
  }

  function RenderGroups(gs: seq<Group>): (r: seq<string>)
    ensures |r| == |gs|
  {
    if gs == [] then [] else [RenderGroup(gs[0])] + RenderGroups(gs[1..])
  }

  /** `whereClause`: the groups joined with `&&`, wrapped and prefixed with ` && `, or empty. */
  function WhereClause(f: Filters): string {
    var gs := Groups(f);
    if |gs| > 0 then " && (" + Join(RenderGroups(gs), " && ") + ")" else ""
  }

  /** The clause is empty exactly when no group takes part. */
  lemma WhereClauseEmpty(f: Filters)
    ensures WhereClause(f) == "" <==> !Truthy(f.citySlug) && !NonEmpty(f.categories) && !NonEmpty(f.neighborhoods) && !NonEmpty(f.storeIds)
    ensures WhereClause(f) != "" ==> StartsWith(WhereClause(f), " && (")
  {
    var gs := Groups(f);
    if |gs| > 0 {
      assert StartsWith(WhereClause(f), " && (");
    }
  }

  /** An empty list is treated as an absent one. */
  lemma EmptyListIsAbsent(f: Filters)
    ensures Groups(f.(categories := Some([]))) == Groups(f.(categories := None))
    ensures Groups(f.(neighborhoods := Some([]))) == Groups(f.(neighborhoods := None))
    ensures Groups(f.(storeIds := Some([]))) == Groups(f.(storeIds := None))
  {
  }

  /** The slugs of a store's secondary categories. */
  function SecondarySlugs(s: Store): (r: seq<string>)
    ensures s.secondaryCategories.None? ==> r == []
    ensures s.secondaryCategories.Some? ==>
      |r| == |s.secondaryCategories.value| && forall i :: 0 <= i < |r| ==> r[i] == s.secondaryCategories.value[i].slug
  {
    if s.secondaryCategories.None? then [] else CategorySlugs(s.secondaryCategories.value)
  }

  function CategorySlugs(cs: seq<Category>): (r: seq<string>)
    ensures |r| == |cs| && forall i :: 0 <= i < |cs| ==> r[i] == cs[i].slug
  {
    if cs == [] then [] else [cs[0].slug] + CategorySlugs(cs[1..])
  }

  /** `neighborhood->region->city->slug.current`. */
  function CitySlugOf(s: Store): Option<string> {
    if s.neighborhood.Some? && s.neighborhood.value.region.Some? && s.neighborhood.value.region.value.city.Some?
    then Some(s.neighborhood.value.region.value.city.value.slug)
    else None
  }

  /** What a condition is meant to test about a store. */
  predicate Holds(c: Cond, s: Store) {
    match c
    case CityIs(x) => CitySlugOf(s) == Some(x)
    case CategoryIs(x) => (s.primaryCategory.Some? && s.primaryCategory.value.slug == x) || x in SecondarySlugs(s)
    case NeighborhoodIs(x) => s.neighborhood.Some? && s.neighborhood.value.slug == x
    case IdIs(x) => s.id == x
  }

  predicate GroupHolds(g: Group, s: Store) {
    match g
    case Single(c) => Holds(c, s)
    case AnyOf(cs) => exists i :: 0 <= i < |cs| && Holds(cs[i], s)
  }

  /** Every group of the list holds. */
  predicate AllHold(gs: seq<Group>, s: Store) {
    forall i :: 0 <= i < |gs| ==> GroupHolds(gs[i], s)
  }

  /** The intended meaning of the clause: every group that takes part holds. */
  predicate Selected(f: Filters, s: Store) {
    AllHold(Groups(f), s)
  }

  lemma AllHoldSingle(g: Group, s: Store)
    ensures AllHold([g], s) <==> GroupHolds(g, s)
  {
    assert [g][0] == g;
  }

  lemma AllHoldAppend(a: seq<Group>, b: seq<Group>, s: Store)
    ensures AllHold(a + b, s) <==> AllHold(a, s) && AllHold(b, s)
  {
    if AllHold(a, s) && AllHold(b, s) {
      forall i | 0 <= i < |a + b| ensures GroupHolds((a + b)[i], s) {
        if i >= |a| { assert (a + b)[i] == b[i - |a|]; }
      }
    }
    if AllHold(a + b, s) {
      forall i | 0 <= i < |a| ensures GroupHolds(a[i], s) {
        assert (a + b)[i] == a[i];
      }
      forall i | 0 <= i < |b| ensures GroupHolds(b[i], s) {
        assert (a + b)[|a| + i] == b[i];
      }
    }
  }

  lemma CategoryGroupMeaning(xs: seq<string>, s: Store)
    ensures GroupHolds(AnyOf(CategoryConds(xs)), s) <==> exists k :: 0 <= k < |xs| && Holds(CategoryIs(xs[k]), s)
  {
    if exists k :: 0 <= k < |xs| && Holds(CategoryIs(xs[k]), s) {
      var k :| 0 <= k < |xs| && Holds(CategoryIs(xs[k]), s);
      assert Holds(CategoryConds(xs)[k], s);
    }
  }

  lemma NeighborhoodGroupMeaning(xs: seq<string>, s: Store)
    ensures GroupHolds(AnyOf(NeighborhoodConds(xs)), s) <==> exists k :: 0 <= k < |xs| && Holds(NeighborhoodIs(xs[k]), s)
  {
    if exists k :: 0 <= k < |xs| && Holds(NeighborhoodIs(xs[k]), s) {
      var k :| 0 <= k < |xs| && Holds(NeighborhoodIs(xs[k]), s);
      assert Holds(NeighborhoodConds(xs)[k], s);
    }
  }

  lemma IdGroupMeaning(xs: seq<string>, s: Store)
    ensures GroupHolds(AnyOf(IdConds(xs)), s) <==> exists k :: 0 <= k < |xs| && s.id == xs[k]
  {
    if exists k :: 0 <= k < |xs| && s.id == xs[k] {
      var k :| 0 <= k < |xs| && s.id == xs[k];
      assert Holds(IdConds(xs)[k], s);
    }
  }

  /** A store is selected exactly when it satisfies every non-empty group: some listed value matches it. */
  lemma SelectedMeaning(f: Filters, s: Store)
    ensures Selected(f, s) <==>
      (Truthy(f.citySlug) ==> CitySlugOf(s) == f.citySlug)
      && (NonEmpty(f.categories) ==> exists k :: 0 <= k < |f.categories.value| && Holds(CategoryIs(f.categories.value[k]), s))
      && (NonEmpty(f.neighborhoods) ==> exists k :: 0 <= k < |f.neighborhoods.value| && Holds(NeighborhoodIs(f.neighborhoods.value[k]), s))
      && (NonEmpty(f.storeIds) ==> exists k :: 0 <= k < |f.storeIds.value| && s.id == f.storeIds.value[k])
  {
    AllHoldAppend(CityGroup(f) + CategoryGroup(f) + NeighborhoodGroup(f), IdGroup(f), s);
    AllHoldAppend(CityGroup(f) + CategoryGroup(f), NeighborhoodGroup(f), s);
    AllHoldAppend(CityGroup(f), CategoryGroup(f), s);
    if Truthy(f.citySlug) { AllHoldSingle(CityGroup(f)[0], s); }
    if NonEmpty(f.categories) {
      CategoryGroupMeaning(f.categories.value, s);
      AllHoldSingle(CategoryGroup(f)[0], s);
    }
    if NonEmpty(f.neighborhoods) {
      NeighborhoodGroupMeaning(f.neighborhoods.value, s);
      AllHoldSingle(NeighborhoodGroup(f)[0], s);
    }
    if NonEmpty(f.storeIds) {
      IdGroupMeaning(f.storeIds.value, s);
      AllHoldSingle(IdGroup(f)[0], s);
    }
  }

  /** With no group at all every store is selected, matching the empty clause. */
  lemma NoFilterSelectsAll(s: Store)
    ensures Selected(Filters(None, None, None, None), s)
    ensures WhereClause(Filters(None, None, None, None)) == ""
  {
  }

  const NeighborhoodTest := "neighborhood->slug.current == "

  /** The slug that closes the quote, adds `||` and opens a second test of slug `b`. */
  function Injected(a: string, b: string): string {
    a + "\"" + " || " + NeighborhoodTest + "\"" + b
  }

  /**
   * Values are interpolated without escaping: the single neighbourhood slug
   * `a" || neighborhood->slug.current == "b` renders to the same text as the
   * two slugs `a` and `b`.
   */
  lemma QuoteInjectionText(a: string, b: string)
    ensures RenderGroup(AnyOf(NeighborhoodConds([Injected(a, b)]))) == RenderGroup(AnyOf(NeighborhoodConds([a, b])))
  {
    var v := Injected(a, b);
    var one := RenderCond(NeighborhoodIs(v));
    var two := [RenderCond(NeighborhoodIs(a)), RenderCond(NeighborhoodIs(b))];
    assert NeighborhoodConds([a, b]) == [NeighborhoodIs(a), NeighborhoodIs(b)];
    assert RenderConds([NeighborhoodIs(a), NeighborhoodIs(b)]) == two;
    assert RenderConds(NeighborhoodConds([v])) == [one];
    assert Join(two, " || ") == two[0] + " || " + two[1];
    assert one == two[0] + " || " + two[1];
  }

  /** ... while the meant predicates differ: a store in neighbourhood `a` is selected by the two slugs and not by the one. */
  lemma QuoteInjectionMeaning(a: string, b: string, s: Store)
    requires s.neighborhood.Some? && s.neighborhood.value.slug == a
    ensures !Selected(Filters(None, Some([Injected(a, b)]), None, None), s)
    ensures Selected(Filters(None, Some([a, b]), None, None), s)
  {
    assert |Injected(a, b)| > |a|;
    SelectedMeaning(Filters(None, Some([Injected(a, b)]), None, None), s);
    SelectedMeaning(Filters(None, Some([a, b]), None, None), s);
    assert [a, b][0] == a;
  }

  /**
   * `filterStores`: pushes the conditions one group at a time, builds the
   * where-clause, and returns the fetched stores, or `[]` when the fetch
   * returns `null` or throws.
   */
  method FilterStores(f: Filters, fetched: Fetched<seq<Store>>) returns (whereClause: string, stores: seq<Store>)
    ensures whereClause == WhereClause(f)
    ensures stores == if fetched.Returned? && fetched.result.Some? then fetched.result.value else []
  {
    var filterConditions: seq<string> := [];
    ghost var pushed: seq<Group> := [];
    filterConditions, pushed := PushIf(Truthy(f.citySlug),
      Single(CityIs(if f.citySlug.Some? then f.citySlug.value else "")), filterConditions, pushed, CityGroup(f));
    assert pushed == CityGroup(f);
    filterConditions, pushed := PushIf(NonEmpty(f.categories),
      AnyOf(CategoryConds(if f.categories.Some? then f.categories.value else [])), filterConditions, pushed, CategoryGroup(f));
    assert pushed == CityGroup(f) + CategoryGroup(f);
    filterConditions, pushed := PushIf(NonEmpty(f.neighborhoods),
      AnyOf(NeighborhoodConds(if f.neighborhoods.Some? then f.neighborhoods.value else [])), filterConditions, pushed, NeighborhoodGroup(f));
    assert pushed == CityGroup(f) + CategoryGroup(f) + NeighborhoodGroup(f);
    filterConditions, pushed := PushIf(NonEmpty(f.storeIds),
      AnyOf(IdConds(if f.storeIds.Some? then f.storeIds.value else [])), filterConditions, pushed, IdGroup(f));
    assert pushed == Groups(f);
    WhereClauseOf(f, filterConditions);
    whereClause := if |filterConditions| > 0 then " && (" + Join(filterConditions, " && ") + ")" else "";
    stores := if fetched.Returned? && fetched.result.Some? then fetched.result.value else [];
  }

  /**
   * One `if (...) filterConditions.push(...)` step: the rendered group is
   * appended when the test passes. `pushed` is the groups pushed so far and
   * `part` the groups this step adds.
   */
  method PushIf(test: bool, g: Group, filterConditions: seq<string>, ghost pushed: seq<Group>, ghost part: seq<Group>)
    returns (conditions: seq<string>, ghost groups: seq<Group>)
    requires filterConditions == RenderGroups(pushed)
    requires part == if test then [g] else []
    ensures groups == pushed + part
    ensures conditions == RenderGroups(groups)
  {
    RenderGroupsAppend(pushed, part);
    conditions, groups := filterConditions, pushed + part;
    if test {
      conditions := filterConditions + [RenderGroup(g)];
    }
  }

  lemma WhereClauseOf(f: Filters, conditions: seq<string>)
    requires conditions == RenderGroups(Groups(f))
    ensures WhereClause(f) == if |conditions| > 0 then " && (" + Join(conditions, " && ") + ")" else ""
  {
  }

  lemma {:induction false} RenderGroupsAppend(a: seq<Group>, b: seq<Group>)
    ensures RenderGroups(a + b) == RenderGroups(a) + RenderGroups(b)
  {
    if a == [] {
      assert a + b == b;
    } else {
      assert (a + b)[0] == a[0] && (a + b)[1..] == a[1..] + b;
      RenderGroupsAppend(a[1..], b);
    }
  }

  /** `getAllStores`: the fetched stores, or `[]` when the result is `null` or the fetch throws. */
  function GetAllStores(fetched: Fetched<seq<Store>>): (r: seq<Store>)
    ensures fetched.Threw? || fetched.result.None? ==> r == []
    ensures fetched.Returned? && fetched.result.Some? ==> r == fetched.result.value
  {
    match fetched
    case Threw => []
    case Returned(result) => result.GetOr([])
  }

  /** `getStoreBySlug`: the fetched store, or `null` when there is none or the fetch throws. */
  function GetStoreBySlug(fetched: Fetched<Store>): (r: Option<Store>)
    ensures fetched.Threw? ==> r.None?
    ensures fetched.Returned? ==> r == fetched.result
  {
    match fetched
    case Threw => None
    case Returned(result) => result
  }

  /** The fixed New York record `getCityData` falls back to. */
  const NewYork := City("new-york", "New York City", "new-york", Some("NY"), Some(Location(40.7128, -74.0060)), Some(12))

  /** `getCityData`: the fetched city, or New York when there is none or the fetch throws. */
  function GetCityData(fetched: Fetched<City>): (r: City)
    ensures fetched.Returned? && fetched.result.Some? ==> r == fetched.result.value
    ensures fetched.Threw? || fetched.result.None? ==> r.id == "new-york" && r.defaultZoom == Some(12) && r == NewYork
  {
    match fetched
    case Threw => NewYork
    case Returned(result) => result.GetOr(NewYork)
  }

  /** The two posts shown when the repository has none. */
  const MockPosts := [
    BlogPost("1", "The Ultimate Guide to Thrifting in Brooklyn", "ultimate-guide-thrifting-brooklyn",
             Some("Sarah Chen"), "2024-01-15T10:00:00Z",
             "Discover the best thrift stores in Brooklyn, from Williamsburg vintage boutiques to hidden gems in Bed-Stuy."),
    BlogPost("2", "10 Designer Consignment Stores You Need to Know", "10-designer-consignment-stores",
             Some("Marcus Johnson"), "2024-01-10T10:00:00Z",
             "From the Upper East Side to SoHo, these consignment shops offer luxury fashion at fraction of retail prices.")
  ]

  /**
   * `getAllBlogPosts`: a non-empty fetched list sorted newest first
   * (`sortByDate`, since date parsing is not modelled), the two mock posts
   * when the list is `null` or empty, and only the first mock post when the
   * fetch throws.
   */
  function GetAllBlogPosts(fetched: Fetched<seq<BlogPost>>, sortByDate: seq<BlogPost> -> seq<BlogPost>): (r: seq<BlogPost>)
    ensures fetched.Threw? ==> r == MockPosts[..1]
    ensures fetched.Returned? && (fetched.result.None? || fetched.result.value == []) ==> r == MockPosts
    ensures fetched.Returned? && fetched.result.Some? && fetched.result.value != [] ==> r == sortByDate(fetched.result.value)
  {
    match fetched
    case Threw => [MockPosts[0]]
    case Returned(result) =>
      if result.Some? && |result.value| > 0 then sortByDate(result.value) else MockPosts
  }

  /** `posts.find(post => post.slug.current === slug) || null`. */
  function FindBySlug(posts: seq<BlogPost>, slug: string): (r: Option<BlogPost>)
    ensures r.None? <==> forall i :: 0 <= i < |posts| ==> posts[i].slug != slug
    ensures r.Some? ==>
      exists i :: 0 <= i < |posts| && posts[i] == r.value && r.value.slug == slug && forall j :: 0 <= j < i ==> posts[j].slug != slug
  {
    if posts == [] then None
    else if posts[0].slug == slug then Some(posts[0])
    else
      var r := FindBySlug(posts[1..], slug);
      assert r.Some? ==>
        exists i :: 0 <= i < |posts| - 1 && posts[1..][i] == r.value && r.value.slug == slug && forall j :: 0 <= j < i ==> posts[1..][j].slug != slug;
      assert forall i :: 1 <= i < |posts| ==> posts[i] == posts[1..][i - 1];
      r
  }

  /**
   * `getBlogPostBySlug`: the fetched post when there is one; otherwise (no post
   * or a throw) the first post with that slug among what `getAllBlogPosts`
   * gives, which is the mock list when the repository has no posts.
   */
  function GetBlogPostBySlug(slug: string, fetched: Fetched<BlogPost>, listFetched: Fetched<seq<BlogPost>>,
                             sortByDate: seq<BlogPost> -> seq<BlogPost>): (r: Option<BlogPost>)
    ensures fetched.Returned? && fetched.result.Some? ==> r == fetched.result
    ensures !(fetched.Returned? && fetched.result.Some?) ==> r == FindBySlug(GetAllBlogPosts(listFetched, sortByDate), slug)
  {
    if fetched.Returned? && fetched.result.Some? then fetched.result
    else FindBySlug(GetAllBlogPosts(listFetched, sortByDate), slug)
  }

  /** With an empty repository, the second guide is still found by its slug, through the mock list. */
  lemma MockPostFound(slug: string, sortByDate: seq<BlogPost> -> seq<BlogPost>)
    requires slug == "10-designer-consignment-stores"
    ensures GetBlogPostBySlug(slug, Returned(None), Returned(Some([])), sortByDate) == Some(MockPosts[1])
  {
    assert MockPosts[0].slug != slug;
  }

  /** When the list fetch throws, only the first mock post can be found: the second guide's slug gives `null`. */
  lemma ThrowHidesSecondMock(slug: string, sortByDate: seq<BlogPost> -> seq<BlogPost>)
    requires slug == "10-designer-consignment-stores"
    ensures GetBlogPostBySlug(slug, Threw, Threw, sortByDate) == None
  {
    assert MockPosts[0].slug != slug;
  }
}
