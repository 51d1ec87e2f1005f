/**
 * The one-off import of the exported store list into the content repository
 * (scripts/import-to-sanity.js): slugs and the document ids derived from
 * them, the stripped-down HTML to Portable Text conversion, the store
 * document `importStore` builds and strips, and the counters of `importData`.
 *
 * Repository reads and writes are not performed: whether a document already
 * exists and whether a write throws are parameters, and so are the keys
 * `generateKey` hands out (`Keys`).
 */
module SanityImport {
  import opened Wrappers
  import opened Text
  import opened Types
  import opened Portable

  // ---------------------------------------------------------------------------
  // createSlug
  // ---------------------------------------------------------------------------

  /** The characters `[a-z0-9]` that survive in a slug. */
  predicate SlugChar(c: char) {
    'a' <= c <= 'z' || '0' <= c <= '9'
  }

  predicate SlugAlphabet(s: string) {
    forall i :: 0 <= i < |s| ==> SlugChar(s[i]) || s[i] == '-'
  }

  /** No two dashes in a row (stated with two indices so that it does not make new index terms). */
  predicate NoDoubleDash(s: string) {
    forall i, j :: 0 <= i < |s| && 0 <= j < |s| && j == i + 1 ==> !(s[i] == '-' && s[j] == '-')
  }

  /** What a slug looks like: `[a-z0-9-]` only, no `--`, no dash at either end. */
  predicate SlugShaped(s: string) {
    SlugAlphabet(s) && NoDoubleDash(s) && (s != [] ==> s[0] != '-' && s[|s| - 1] != '-')
  }

  /** Drops the leading characters outside `[a-z0-9]`. */
  function SkipRun(s: string): (r: string)
    ensures |r| <= |s| && r == s[|s| - |r|..]
    ensures r != [] ==> SlugChar(r[0])
    ensures forall i :: 0 <= i < |s| - |r| ==> !SlugChar(s[i])
  {
    if s != [] && !SlugChar(s[0]) then
      var r := SkipRun(s[1..]);
      assert forall i :: 1 <= i < |s| - |r| ==> s[i] == s[1..][i - 1];
      r
    else s
  }

  /** `.replace(/[^a-z0-9]+/g, '-')`: every maximal run of other characters becomes one dash. */
  function DashRuns(s: string): (r: string)
    ensures SlugAlphabet(r) && NoDoubleDash(r)
    ensures r == [] <==> s == []
    ensures r != [] ==> (r[0] == '-' <==> !SlugChar(s[0]))
    decreases |s|
  {
    if s == [] then []
    else if SlugChar(s[0]) then [s[0]] + DashRuns(s[1..])
    else "-" + DashRuns(SkipRun(s[1..]))
  }

  /** `.replace(/^-|-$/g, '')`: one leading and one trailing dash removed. */
  function TrimDashes(s: string): (r: string)
    ensures SlugAlphabet(s) && NoDoubleDash(s) ==> SlugShaped(r)
    ensures SlugShaped(s) ==> r == s
  {
    var a := if s != [] && s[0] == '-' then s[1..] else s;
    if a != [] && a[|a| - 1] == '-' then a[..|a| - 1] else a
  }

  /** `createSlug`: lower-cased, runs of other characters turned into single dashes, edge dashes removed. */
  function CreateSlug(text: string): (r: string)
    ensures SlugShaped(r)
  {
    TrimDashes(DashRuns(Lower(text)))
  }

  /** A string already in slug form passes through every step unchanged. */
  lemma {:induction false} DashRunsFixed(s: string)
    requires SlugAlphabet(s) && NoDoubleDash(s)
    ensures DashRuns(s) == s
    decreases |s|
  {
    if s != [] {
      assert SlugAlphabet(s[1..]) && NoDoubleDash(s[1..]) by {
        assert forall i :: 0 <= i < |s| - 1 ==> s[1..][i] == s[i + 1];
      }
      if !SlugChar(s[0]) {
        assert s[1..] == [] || SlugChar(s[1]);
        assert SkipRun(s[1..]) == s[1..];
      }
      DashRunsFixed(s[1..]);
    }
  }

  lemma LowerSlugAlphabet(s: string)
    requires SlugAlphabet(s)
    ensures Lower(s) == s
  {
  }

  /** A slug is its own slug. */
  lemma SlugFixed(s: string)
    requires SlugShaped(s)
    ensures CreateSlug(s) == s
  {
    LowerSlugAlphabet(s);
    DashRunsFixed(s);
  }

  /** `createSlug` is idempotent. */
  lemma CreateSlugIdempotent(text: string)
    ensures CreateSlug(CreateSlug(text)) == CreateSlug(text)
  {
    SlugFixed(CreateSlug(text));
  }

  // ---------------------------------------------------------------------------
  // Document ids
  // ---------------------------------------------------------------------------

  /** The `categoryData` argument: a category of the export, with its optional slug. */
  datatype CategoryData = CategoryData(name: Option<string>, slug: Option<string>)

  /** The region a store without a region name is filed under. */
  const DefaultRegion: string := "Manhattan"

  /** The neighbourhood a store without a neighbourhood name is filed under. */
  const DefaultNeighborhood: string := "Unknown"

  /** `createOrGetRegion`'s id for the store's region name, `Manhattan` when it has none. */
  function RegionId(regionName: Option<string>): (r: string)
    ensures r == "region-" + CreateSlug(OrElse(regionName, DefaultRegion))
    ensures SlugShaped(r[|"region-"|..])
  {
    "region-" + CreateSlug(OrElse(regionName, DefaultRegion))
  }

  /** `createOrGetNeighborhood`'s id for the store's neighbourhood name, `Unknown` when it has none. */
  function NeighborhoodId(neighborhoodName: Option<string>): (r: string)
    ensures r == "neighborhood-" + CreateSlug(OrElse(neighborhoodName, DefaultNeighborhood))
    ensures SlugShaped(r[|"neighborhood-"|..])
  {
    "neighborhood-" + CreateSlug(OrElse(neighborhoodName, DefaultNeighborhood))
  }

  /**
   * `createOrGetCategory`'s id: none without data or without a name; else
   * `category-` and the supplied slug when it is non-empty, else the slug of
   * the name.
   */
  function CategoryId(data: Option<CategoryData>): (r: Option<string>)
    ensures r.None? <==> data.None? || !Truthy(data.value.name)
    ensures r.Some? && Truthy(data.value.slug) ==> r.value == "category-" + data.value.slug.value
    ensures r.Some? && !Truthy(data.value.slug) ==> r.value == "category-" + CreateSlug(data.value.name.value)
  {
    if data.None? || !Truthy(data.value.name) then None
    else Some("category-" + OrElse(data.value.slug, CreateSlug(data.value.name.value)))
  }

  /** Region names with the same slug share one region document, and different slugs never collide. */
  lemma RegionIdsBySlug(a: Option<string>, b: Option<string>)
    ensures RegionId(a) == RegionId(b) <==> CreateSlug(OrElse(a, DefaultRegion)) == CreateSlug(OrElse(b, DefaultRegion))
  {
    var p := "region-";
    assert RegionId(a)[|p|..] == CreateSlug(OrElse(a, DefaultRegion));
    assert RegionId(b)[|p|..] == CreateSlug(OrElse(b, DefaultRegion));
  }

  // ---------------------------------------------------------------------------
  // convertHtmlToPortableText
  // ---------------------------------------------------------------------------

  /** `.replace(/<h4[^>]*>/g, '')`: an `<h4` up to the next `>` is removed; without a later `>` it stays. */
  function RemoveH4Open(s: string): string
    decreases |s|
  {
    if |s| < 3 then s
    else if s[..3] == "<h4" && '>' in s[3..] then RemoveH4Open(s[3 + IndexOf(s[3..], '>') + 1..])
    else [s[0]] + RemoveH4Open(s[1..])
  }

  /** The number of leading white-space characters. */
  function SpaceRun(s: string): (n: nat)
    ensures n <= |s|
    ensures forall i :: 0 <= i < n ==> IsSpace(s[i])
    ensures n < |s| ==> !IsSpace(s[n])
  {
    if s != [] && IsSpace(s[0]) then 1 + SpaceRun(s[1..]) else 0
  }

  /** Position of the last `d` in `s`. */
  function LastIndexOf(s: string, d: char): (i: nat)
    requires d in s
    ensures i < |s| && s[i] == d && d !in s[i + 1..]
  {
    if s[|s| - 1] == d then |s| - 1
    else
      assert d in s[..|s| - 1] by { var k :| 0 <= k < |s| && s[k] == d; assert s[..|s| - 1][k] == d; }
      var j := LastIndexOf(s[..|s| - 1], d);
      assert s[j + 1..] == s[..|s| - 1][j + 1..] + [s[|s| - 1]];
      j
  }

  /**
   * `.replace(/\n\s*\n/g, '\n\n')`: a newline and the white space after it, up
   * to the last newline of that white space, become one blank line.
   */
  function CollapseBlankLines(s: string): string
    decreases |s|
  {
    if s == [] then []
    else if s[0] == '\n' && '\n' in s[1..][..SpaceRun(s[1..])] then
      var end := 1 + LastIndexOf(s[1..][..SpaceRun(s[1..])], '\n') + 1;
      "\n\n" + CollapseBlankLines(s[end..])
    else [s[0]] + CollapseBlankLines(s[1..])
  }

  /** The chain of replacements and the final `trim` of `convertHtmlToPortableText`. */
  function CleanText(html: string): string {
    var a := ReplaceAll(html, "<div class=\"store-description\">", "");
    var b := ReplaceAll(a, "</div>", "");
    var c := ReplaceAll(b, "<div class=\"section\">", "\n\n");
    var d := RemoveH4Open(c);
    var e := ReplaceAll(d, "</h4>", "\n");
    var f := ReplaceAll(e, "<p>", "");
    var g := ReplaceAll(f, "</p>", "\n");
    var h := ReplaceAll(g, "<strong>", "");
    var i := ReplaceAll(h, "</strong>", "");
    Trim(CollapseBlankLines(i))
  }

  /**
   * `convertHtmlToPortableText`: nothing for a missing or empty input; else one
   * `normal` block holding one span with the cleaned text. The two keys are
   * the two `generateKey` results, block first.
   */
  function ConvertHtml(html: Option<string>, blockKey: string, spanKey: string): (r: Option<seq<Block>>)
    ensures r.None? <==> !Truthy(html)
    ensures r.Some? ==>
      |r.value| == 1 && r.value[0].key == Some(blockKey) && r.value[0].blockType == "block" && r.value[0].style == "normal"
      && r.value[0].children == Some([Span(Some(spanKey), "span", CleanText(html.value))])
    ensures r.Some? && CleanText(html.value) != [] ==>
      var t := CleanText(html.value); !IsSpace(t[0]) && !IsSpace(t[|t| - 1])
  {
    if !Truthy(html) then None
    else Some([Block(Some(blockKey), "block", "normal", Some([Span(Some(spanKey), "span", CleanText(html.value))]))])
  }

  lemma {:induction false} RemoveH4OpenPlain(s: string)
    requires '<' !in s
    ensures RemoveH4Open(s) == s
    decreases |s|
  {
    if |s| >= 3 {
      assert s[..3] != "<h4" by { assert s[0] != '<'; }
      RemoveH4OpenPlain(s[1..]);
    }
  }

  lemma {:induction false} CollapsePlain(s: string)
    requires '\n' !in s
    ensures CollapseBlankLines(s) == s
    decreases |s|
  {
    if s != [] {
      assert s[0] != '\n';
      CollapsePlain(s[1..]);
    }
  }

  lemma ReplaceAllPlain(s: string, pat: string, rep: string)
    requires |pat| > 0 && pat[0] == '<' && '<' !in s
    ensures ReplaceAll(s, pat, rep) == s
  {
    NotContainsMissingChar(s, pat, '<');
    ReplaceAllAbsent(s, pat, rep);
  }

  /** Text without markup and without line breaks comes through only trimmed. */
  lemma PlainTextIsTrimmed(html: string)
    requires '<' !in html && '\n' !in html
    ensures CleanText(html) == Trim(html)
  {
    ReplaceAllPlain(html, "<div class=\"store-description\">", "");
    ReplaceAllPlain(html, "</div>", "");
    ReplaceAllPlain(html, "<div class=\"section\">", "\n\n");
    RemoveH4OpenPlain(html);
    ReplaceAllPlain(html, "</h4>", "\n");
    ReplaceAllPlain(html, "<p>", "");
    ReplaceAllPlain(html, "</p>", "\n");
    ReplaceAllPlain(html, "<strong>", "");
    ReplaceAllPlain(html, "</strong>", "");
    CollapsePlain(html);
  }

  // ---------------------------------------------------------------------------
  // importStore
  // ---------------------------------------------------------------------------

  /**
   * A field value of a store document. Values copied from the export
   * unread (numbers, objects, arrays) are `Data`, told apart by a tag.
   */
  datatype Value =
    | Undefined
    | Null
    | Str(s: string)
    | Data(tag: nat)
    | Slug(current: string)
    | Ref(id: string)
    | Refs(refs: seq<KeyedRef>)
    | Blocks(blocks: seq<Block>)
    | MetricsObj(priceLevel: Value, rating: Value, userRatingsTotal: Value)

  /**
   * One store of the export, with the members `importStore` reads. A missing
   * `secondaryCategories` list is the empty list: the loop over it is skipped
   * either way.
   */
  datatype StoreData = StoreData(
    id: string,
    name: Option<string>,
    regionName: Option<string>,
    neighborhoodName: Option<string>,
    primaryCategory: Option<CategoryData>,
    secondaryCategories: seq<Option<CategoryData>>,
    cardDescription: Value,
    description: Option<string>,
    editorialSummary: Value,
    location: Value,
    formattedAddress: Value,
    placeId: Value,
    hours: Value,
    priceLevel: Value,
    rating: Value,
    userRatingsTotal: Value,
    website: Value,
    url: Value)

  /** The ids of the categories that `createOrGetCategory` does not turn into `null`, in order. */
  function CategoryIds(cats: seq<Option<CategoryData>>): (r: seq<string>)
    ensures |r| <= |cats|
  {
    if cats == [] then []
    else
      var init := CategoryIds(cats[..|cats| - 1]);
      match CategoryId(cats[|cats| - 1])
      case Some(id) => init + [id]
      case None => init
  }

  /** An id is kept exactly when some category resolves to it. */
  lemma {:induction false} CategoryIdsMembers(cats: seq<Option<CategoryData>>)
    ensures forall id :: id in CategoryIds(cats) <==> exists k :: 0 <= k < |cats| && CategoryId(cats[k]) == Some(id)
  {
    if cats != [] {
      var init, last := cats[..|cats| - 1], cats[|cats| - 1];
      assert cats == init + [last];
      CategoryIdsAppend(init, last);
      CategoryIdsMembers(init);
      forall id ensures id in CategoryIds(cats) <==> exists k :: 0 <= k < |cats| && CategoryId(cats[k]) == Some(id) {
        if id in CategoryIds(init) {
          var k :| 0 <= k < |init| && CategoryId(init[k]) == Some(id);
          assert cats[k] == init[k];
        }
        if exists k :: 0 <= k < |cats| && CategoryId(cats[k]) == Some(id) {
          var k :| 0 <= k < |cats| && CategoryId(cats[k]) == Some(id);
          if k < |init| {
            assert init[k] == cats[k];
          }
        }
      }
    }
  }

  /** The ids of one more category: its id, when it resolves, goes at the end. */
  lemma CategoryIdsAppend(cats: seq<Option<CategoryData>>, cat: Option<CategoryData>)
    ensures CategoryIds(cats + [cat]) == CategoryIds(cats) + (if CategoryId(cat).Some? then [CategoryId(cat).value] else [])
  {
    var all := cats + [cat];
    assert all[..|all| - 1] == cats && all[|all| - 1] == cat;
  }

  /** The references pushed for the given ids, keyed from position `next` of the key source. */
  function KeyedRefs(ids: seq<string>, keyAt: nat -> string, next: nat): (r: seq<KeyedRef>)
    ensures |r| == |ids|
    ensures forall i :: 0 <= i < |ids| ==> r[i] == KeyedRef(Some(keyAt(next + i)), ids[i])
  {
    if ids == [] then [] else [KeyedRef(Some(keyAt(next)), ids[0])] + KeyedRefs(ids[1..], keyAt, next + 1)
  }

  /** One more id: its reference, keyed from the next position, goes at the end. */
  lemma KeyedRefsSnoc(ids: seq<string>, id: string, keyAt: nat -> string, next: nat, after: nat)
    requires after == next + |ids|
    ensures KeyedRefs(ids + [id], keyAt, next) == KeyedRefs(ids, keyAt, next) + [KeyedRef(Some(keyAt(after)), id)]
  {
    var a := KeyedRefs(ids + [id], keyAt, next);
    var b := KeyedRefs(ids, keyAt, next) + [KeyedRef(Some(keyAt(after)), id)];
    assert |a| == |b|;
    forall i | 0 <= i < |a| ensures a[i] == b[i] {
      assert (ids + [id])[i] == if i < |ids| then ids[i] else id;
    }
  }

  /** The secondary-category loop: a keyed reference for each category that resolves, in order. */
  method SecondaryRefs(cats: seq<Option<CategoryData>>, keyAt: nat -> string, next: nat) returns (refs: seq<KeyedRef>, after: nat)
    ensures refs == KeyedRefs(CategoryIds(cats), keyAt, next)
    ensures after == next + |refs|
  {
    refs, after := [], next;
    for i := 0 to |cats|
      invariant refs == KeyedRefs(CategoryIds(cats[..i]), keyAt, next)
      invariant after == next + |refs|
    {
      assert cats[..i + 1] == cats[..i] + [cats[i]];
      refs, after := PushRef(cats[..i], cats[i], keyAt, next, refs, after);
    }
    assert cats[..|cats|] == cats;
  }

  /** One turn of the loop: a category that resolves adds its keyed reference and uses one key. */
  method PushRef(ghost done: seq<Option<CategoryData>>, cat: Option<CategoryData>, keyAt: nat -> string, next: nat,
                 refs: seq<KeyedRef>, after: nat) returns (refs': seq<KeyedRef>, after': nat)
    requires refs == KeyedRefs(CategoryIds(done), keyAt, next) && after == next + |refs|
    ensures refs' == KeyedRefs(CategoryIds(done + [cat]), keyAt, next) && after' == next + |refs'|
  {
    var category := CategoryId(cat);
    CategoryIdsAppend(done, cat);
    refs', after' := refs, after;
    if category.Some? {
      KeyedRefsSnoc(CategoryIds(done), category.value, keyAt, next, after);
      refs' := refs + [KeyedRef(Some(keyAt(after)), category.value)];
      after' := after + 1;
    }
  }

  /** The top-level fields of a store document, named as in the document (`IdField` is `_id`). */
  datatype Field =
    | IdField | TypeField | NameField | SlugField | CardDescriptionField | DescriptionField
    | EditorialSummaryField | LocationField | FormattedAddressField | PlaceIdField | HoursField
    | PrimaryCategoryField | SecondaryCategoriesField | NeighborhoodField | MetricsField
    | WebsiteField | GoogleMapsUrlField

  /** The order `Object.keys` lists the document's fields in: the order of the object literal. */
  const StoreFields: seq<Field> := [
    IdField, TypeField, NameField, SlugField, CardDescriptionField, DescriptionField, EditorialSummaryField,
    LocationField, FormattedAddressField, PlaceIdField, HoursField, PrimaryCategoryField,
    SecondaryCategoriesField, NeighborhoodField, MetricsField, WebsiteField, GoogleMapsUrlField]

  /** The values the stripping loop deletes: `null`, `undefined` and `''`. */
  predicate IsEmptyValue(v: Value) {
    v == Undefined || v == Null || v == Str("")
  }

  /** The `Object.keys(store).forEach(... delete store[key])` loop: every empty field goes, every other stays as it was. */
  method StripEmpty(doc: map<Field, Value>, keys: seq<Field>) returns (store: map<Field, Value>)
    requires forall k :: k in doc ==> k in keys
    ensures forall k :: k in store <==> k in doc && !IsEmptyValue(doc[k])
    ensures forall k :: k in store ==> store[k] == doc[k]
  {
    store := doc;
    for i := 0 to |keys|
      invariant forall k :: k in store <==> k in doc && !(k in keys[..i] && IsEmptyValue(doc[k]))
      invariant forall k :: k in store ==> store[k] == doc[k]
    {
      var key := keys[i];
      if key in store && IsEmptyValue(store[key]) {
        store := store - {key};
      }
    }
    assert keys[..|keys|] == keys;
  }

  /** The values of the object literal that are computed rather than copied from the export. */
  datatype Computed = Computed(
    name: string,
    slug: string,
    primary: Option<string>,
    neighborhood: string,
    secondary: seq<KeyedRef>,
    description: Option<seq<Block>>)

  /** The computed values for a store with a name; `secondary` and `description` are what the loop and the conversion gave. */
  function Compute(data: StoreData, secondary: seq<KeyedRef>, description: Option<seq<Block>>): (c: Computed)
    requires data.name.Some?
    ensures c.name == data.name.value && c.slug == CreateSlug(data.name.value)
    ensures c.primary == CategoryId(data.primaryCategory) && c.neighborhood == NeighborhoodId(data.neighborhoodName)
    ensures c.secondary == secondary && c.description == description
  {
    Computed(data.name.value, CreateSlug(data.name.value), CategoryId(data.primaryCategory),
             NeighborhoodId(data.neighborhoodName), secondary, description)
  }

  /** The value the object literal of `importStore` gives each field. */
  function FieldValue(data: StoreData, c: Computed, f: Field): Value {
    match f
    case IdField => Str(data.id)
    case TypeField => Str("store")
    case NameField => Str(c.name)
    case SlugField => Slug(c.slug)
    case CardDescriptionField => data.cardDescription
    case DescriptionField => if c.description.Some? then Blocks(c.description.value) else Null
    case EditorialSummaryField => data.editorialSummary
    case LocationField => data.location
    case FormattedAddressField => data.formattedAddress
    case PlaceIdField => data.placeId
    case HoursField => data.hours
    case PrimaryCategoryField => if c.primary.Some? then Ref(c.primary.value) else Null
    case SecondaryCategoriesField => Refs(c.secondary)
    case NeighborhoodField => Ref(c.neighborhood)
    case MetricsField => MetricsObj(data.priceLevel, data.rating, data.userRatingsTotal)
    case WebsiteField => data.website
    case GoogleMapsUrlField => data.url
  }

  /** The store document before stripping: the object literal, one entry per field. */
  function Document(data: StoreData, c: Computed): (r: map<Field, Value>) {
    map[
      IdField := FieldValue(data, c, IdField),
      TypeField := FieldValue(data, c, TypeField),
      NameField := FieldValue(data, c, NameField),
      SlugField := FieldValue(data, c, SlugField),
      CardDescriptionField := FieldValue(data, c, CardDescriptionField),
      DescriptionField := FieldValue(data, c, DescriptionField),
      EditorialSummaryField := FieldValue(data, c, EditorialSummaryField),
      LocationField := FieldValue(data, c, LocationField),
      FormattedAddressField := FieldValue(data, c, FormattedAddressField),
      PlaceIdField := FieldValue(data, c, PlaceIdField),
      HoursField := FieldValue(data, c, HoursField),
      PrimaryCategoryField := FieldValue(data, c, PrimaryCategoryField),
      SecondaryCategoriesField := FieldValue(data, c, SecondaryCategoriesField),
      NeighborhoodField := FieldValue(data, c, NeighborhoodField),
      MetricsField := FieldValue(data, c, MetricsField),
      WebsiteField := FieldValue(data, c, WebsiteField),
      GoogleMapsUrlField := FieldValue(data, c, GoogleMapsUrlField)]
  }

  /** Every field is in the document with its literal's value. */
  lemma DocumentValue(data: StoreData, c: Computed, f: Field)
    ensures f in Document(data, c)
    ensures Document(data, c)[f] == FieldValue(data, c, f)
  {
    var doc := Document(data, c);
    match f
    case IdField =>
    case TypeField =>
    case NameField =>
    case SlugField =>
    case CardDescriptionField =>
    case DescriptionField =>
    case EditorialSummaryField =>
    case LocationField =>
    case FormattedAddressField =>
    case PlaceIdField =>
    case HoursField =>
    case PrimaryCategoryField =>
    case SecondaryCategoriesField =>
    case NeighborhoodField =>
    case MetricsField =>
    case WebsiteField =>
    case GoogleMapsUrlField =>
  }

  /** `Object.keys` of the document lists every one of its fields. */
  lemma FieldsListed(f: Field)
    ensures f in StoreFields
  {
    match f
    case IdField => assert StoreFields[0] == f;
    case TypeField => assert StoreFields[1] == f;
    case NameField => assert StoreFields[2] == f;
    case SlugField => assert StoreFields[3] == f;
    case CardDescriptionField => assert StoreFields[4] == f;
    case DescriptionField => assert StoreFields[5] == f;
    case EditorialSummaryField => assert StoreFields[6] == f;
    case LocationField => assert StoreFields[7] == f;
    case FormattedAddressField => assert StoreFields[8] == f;
    case PlaceIdField => assert StoreFields[9] == f;
    case HoursField => assert StoreFields[10] == f;
    case PrimaryCategoryField => assert StoreFields[11] == f;
    case SecondaryCategoriesField => assert StoreFields[12] == f;
    case NeighborhoodField => assert StoreFields[13] == f;
    case MetricsField => assert StoreFields[14] == f;
    case WebsiteField => assert StoreFields[15] == f;
    case GoogleMapsUrlField => assert StoreFields[16] == f;
  }

  /** A field of the stripped document: present exactly when its value is not empty, and then unchanged. */
  predicate Keeps(doc: map<Field, Value>, f: Field, v: Value) {
    (f in doc <==> !IsEmptyValue(v)) && (f in doc ==> doc[f] == v)
  }

  /** Every field of the object literal built from `data` and `c` is kept exactly when it is not empty. */
  predicate KeepsAll(doc: map<Field, Value>, data: StoreData, c: Computed) {
    forall f :: Keeps(doc, f, FieldValue(data, c, f))
  }

  /** What `importStore` ends in: the store existed, it was created, or it threw. */
  datatype ImportOutcome = Existing | Created(doc: map<Field, Value>) | Failed

  /** `importStore` throws for a new store without a name (`createSlug` of `undefined`) or when a write throws. */
  predicate ImportFails(data: StoreData, found: bool, writeFails: bool) {
    !found && (data.name.None? || writeFails)
  }

  /**
   * The `_key` values `generateKey` hands out while one store is imported:
   * `refKey(k)` for the `k`-th secondary reference, then the block and span
   * keys of the description.
   */
  datatype Keys = Keys(refKey: nat -> string, blockKey: string, spanKey: string)

  /**
   * `importStore`: an existing store is left alone; otherwise the references
   * are resolved, the document built, its empty fields deleted, and it is
   * written. `found` says whether the store document already exists and
   * `writeFails` whether a repository write throws. A created document keeps
   * each field of the object literal exactly when it is not empty.
   */
  method ImportStore(data: StoreData, found: bool, writeFails: bool, keys: Keys) returns (outcome: ImportOutcome)
    ensures outcome.Existing? <==> found
    ensures outcome.Failed? <==> ImportFails(data, found, writeFails)
    ensures outcome.Created? ==>
      data.name.Some?
      && KeepsAll(outcome.doc, data, Compute(data,
           KeyedRefs(CategoryIds(data.secondaryCategories), keys.refKey, 0),
           ConvertHtml(data.description, keys.blockKey, keys.spanKey)))
  {
    if found {
      return Existing;
    }
    if data.name.None? {
      return Failed;
    }
    var secondary, _ := SecondaryRefs(data.secondaryCategories, keys.refKey, 0);
    var description := ConvertHtml(data.description, keys.blockKey, keys.spanKey);
    var store := BuildDocument(data, Compute(data, secondary, description));
    if writeFails {
      return Failed;
    }
    return Created(store);
  }

  /** The document of the object literal, with its empty fields deleted. */
  method BuildDocument(data: StoreData, c: Computed) returns (store: map<Field, Value>)
    ensures KeepsAll(store, data, c)
  {
    forall f ensures f in StoreFields { FieldsListed(f); }
    store := StripEmpty(Document(data, c), StoreFields);
    StrippedDocument(data, c, store);
  }

  /** The result of `StripEmpty` on the document keeps each field exactly when its value is not empty. */
  lemma StrippedDocument(data: StoreData, c: Computed, store: map<Field, Value>)
    requires forall k :: k in store <==> k in Document(data, c) && !IsEmptyValue(Document(data, c)[k])
    requires forall k :: k in store ==> store[k] == Document(data, c)[k]
    ensures KeepsAll(store, data, c)
  {
    forall f ensures Keeps(store, f, FieldValue(data, c, f)) {
      DocumentValue(data, c, f);
    }
  }

  /**
   * What the written document holds: only non-empty fields; the type, slug,
   * neighbourhood reference, secondary references and metrics always; the
   * primary category and the description exactly when they resolve.
   */
  lemma {:induction false} ImportedDocument(data: StoreData, secondary: seq<KeyedRef>, description: Option<seq<Block>>, doc: map<Field, Value>)
    requires data.name.Some?
    requires KeepsAll(doc, data, Compute(data, secondary, description))
    ensures forall f :: f in doc ==> !IsEmptyValue(doc[f])
    ensures TypeField in doc && doc[TypeField] == Str("store")
    ensures SlugField in doc && doc[SlugField] == Slug(CreateSlug(data.name.value))
    ensures NeighborhoodField in doc && doc[NeighborhoodField] == Ref(NeighborhoodId(data.neighborhoodName))
    ensures MetricsField in doc && doc[MetricsField] == MetricsObj(data.priceLevel, data.rating, data.userRatingsTotal)
    ensures SecondaryCategoriesField in doc && doc[SecondaryCategoriesField] == Refs(secondary)
    ensures PrimaryCategoryField in doc <==> CategoryId(data.primaryCategory).Some?
    ensures DescriptionField in doc <==> description.Some?
    ensures NameField in doc <==> data.name.value != ""
  {
    KeptNonEmpty(data, Compute(data, secondary, description), doc);
    KeptFields(data, Compute(data, secondary, description), doc);
  }

  /** A stripped document holds no empty value. */
  lemma KeptNonEmpty(data: StoreData, c: Computed, doc: map<Field, Value>)
    requires KeepsAll(doc, data, c)
    ensures forall f :: f in doc ==> !IsEmptyValue(doc[f])
  {
    forall f | f in doc ensures !IsEmptyValue(doc[f]) {
      assert Keeps(doc, f, FieldValue(data, c, f));
    }
  }

  /** `ImportedDocument`'s fields for any computed values. */
  lemma KeptFields(data: StoreData, c: Computed, doc: map<Field, Value>)
    requires KeepsAll(doc, data, c)
    ensures TypeField in doc && doc[TypeField] == Str("store")
    ensures SlugField in doc && doc[SlugField] == Slug(c.slug)
    ensures NeighborhoodField in doc && doc[NeighborhoodField] == Ref(c.neighborhood)
    ensures MetricsField in doc && doc[MetricsField] == MetricsObj(data.priceLevel, data.rating, data.userRatingsTotal)
    ensures SecondaryCategoriesField in doc && doc[SecondaryCategoriesField] == Refs(c.secondary)
    ensures PrimaryCategoryField in doc <==> c.primary.Some?
    ensures DescriptionField in doc <==> c.description.Some?
    ensures NameField in doc <==> c.name != ""
  {
    assert Keeps(doc, TypeField, FieldValue(data, c, TypeField));
    assert Keeps(doc, SlugField, FieldValue(data, c, SlugField));
    assert Keeps(doc, NeighborhoodField, FieldValue(data, c, NeighborhoodField));
    assert Keeps(doc, MetricsField, FieldValue(data, c, MetricsField));
    assert Keeps(doc, SecondaryCategoriesField, FieldValue(data, c, SecondaryCategoriesField));
    assert Keeps(doc, PrimaryCategoryField, FieldValue(data, c, PrimaryCategoryField));
    assert Keeps(doc, DescriptionField, FieldValue(data, c, DescriptionField));
    assert Keeps(doc, NameField, FieldValue(data, c, NameField));
  }

  // ---------------------------------------------------------------------------
  // importData
  // ---------------------------------------------------------------------------

  /** How many of the first `n` stores fail to import. */
  function CountFails(stores: seq<StoreData>, found: seq<bool>, writeFails: seq<bool>, n: nat): (c: nat)
    requires n <= |stores| && |found| == |stores| && |writeFails| == |stores|
    ensures c <= n
  {
    if n == 0 then 0
    else CountFails(stores, found, writeFails, n - 1) + (if ImportFails(stores[n - 1], found[n - 1], writeFails[n - 1]) then 1 else 0)
  }

  /**
   * `importData`: every store is imported in turn; a throw is counted as an
   * error and the loop goes on. `found` and `writeFails` give, per store,
   * what the repository does, and `keys` the keys generated for it.
   */
  method ImportData(stores: seq<StoreData>, found: seq<bool>, writeFails: seq<bool>, keys: seq<Keys>)
    returns (successCount: nat, errorCount: nat)
    requires |found| == |stores| && |writeFails| == |stores| && |keys| == |stores|
    ensures successCount + errorCount == |stores|
    ensures errorCount == CountFails(stores, found, writeFails, |stores|)
  {
    successCount, errorCount := 0, 0;
    for i := 0 to |stores|
      invariant successCount + errorCount == i
      invariant errorCount == CountFails(stores, found, writeFails, i)
    {
      var failed := ImportCounted(stores[i], found[i], writeFails[i], keys[i]);
      if failed {
        errorCount := errorCount + 1;
      } else {
        successCount := successCount + 1;
      }
    }
  }

  /** One turn of `importData`'s loop: whether the `importStore` call throws. */
  method ImportCounted(data: StoreData, found: bool, writeFails: bool, keys: Keys) returns (failed: bool)
    ensures failed <==> ImportFails(data, found, writeFails)
  {
    var outcome := ImportStore(data, found, writeFails, keys);
    failed := outcome.Failed?;
  }
}
