/**
 * The records the site reads from its content repository (lib/types/index.ts).
 * They carry no behaviour. A field the code reads through optional chaining
 * (`store.neighborhood?.region?.name`) is an `Option` here even where the
 * TypeScript interface calls it required, because the content repository can
 * return a dangling reference as `null`.
 */
module Types {
  import opened Wrappers

  /** A Sanity image, kept as an opaque asset reference. */
  datatype Image = Image(assetRef: string)

  /** A coordinate pair. JavaScript numbers become reals; NaN is not modelled. */
  datatype Location = Location(lat: real, lng: real)

  datatype City = City(
    id: string,
    name: string,
    slug: string,
    state: Option<string>,
    center: Option<Location>,
    defaultZoom: Option<int>)

  datatype Region = Region(id: string, name: string, slug: string, city: Option<City>)

  datatype Neighborhood = Neighborhood(id: string, name: string, slug: string, region: Option<Region>)

  datatype Category = Category(id: string, name: string, slug: string)

  datatype Hours = Hours(weekdayText: Option<seq<string>>)

  /**
   * Google-derived metrics. The price level is a count of `$` signs (the store
   * schema allows 1 to 4; the import copies Google's value, which may be 0).
   */
  datatype Metrics = Metrics(priceLevel: Option<nat>, rating: Option<real>, userRatingsTotal: Option<int>)

  datatype Store = Store(
    id: string,
    name: string,
    slug: string,
    cardDescription: Option<string>,
    editorialSummary: Option<string>,
    location: Option<Location>,
    formattedAddress: string,
    hours: Option<Hours>,
    primaryCategory: Option<Category>,
    secondaryCategories: Option<seq<Category>>,
    neighborhood: Option<Neighborhood>,
    metrics: Option<Metrics>,
    website: Option<string>,
    googleMapsUrl: Option<string>,
    featuredImage: Option<Image>)

  datatype BlogPost = BlogPost(
    id: string,
    title: string,
    slug: string,
    author: Option<string>,
    publishedAt: string,
    excerpt: string)

  /** JavaScript truthiness of an optional string: absent and `''` are both falsy. */
  predicate Truthy(s: Option<string>) {
    s.Some? && s.value != ""
  }

  /** `a || b` on optional strings. */
  function OrElse(a: Option<string>, b: string): (r: string)
    ensures Truthy(a) ==> r == a.value
    ensures !Truthy(a) ==> r == b
  {
    if Truthy(a) then a.value else b
  }

  /** The region name reached by `store.neighborhood?.region?.name`. */
  function RegionName(store: Store): Option<string> {
    match store.neighborhood
    case None => None
    case Some(n) =>
      match n.region
      case None => None
      case Some(r) => Some(r.name)
  }

  /** The neighbourhood name reached by `store.neighborhood?.name`. */
  function NeighborhoodName(store: Store): Option<string> {
    match store.neighborhood
    case None => None
    case Some(n) => Some(n.name)
  }
}
