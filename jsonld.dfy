/**
 * The structured data a store page and a blog post embed
 * (components/layout/JsonLd.tsx), in the schema.org vocabulary: a `Store`
 * with a `PostalAddress`, `GeoCoordinates`, opening hours, a price range and
 * an `AggregateRating`, and a `BlogPosting`. `JSON.stringify` drops a field
 * whose value is `undefined`; such fields are `Option`s here.
 */
module JsonLd {
  import opened Wrappers
  import opened Text
  import opened Types
  import StoreCard

  /** A template literal's text for an environment variable that may be unset. */
  function EnvText(v: Option<string>): (t: string)
    ensures v.Some? ==> t == v.value
    ensures v.None? ==> t == "undefined"
  {
    match v
    case Some(s) => s
    case None => "undefined"
  }

  /** `formattedAddress.split(',')[0]`: the address up to its first comma. */
  function StreetAddress(address: string): (street: string)
    ensures StartsWith(address, street)
    ensures ',' !in street
    ensures ',' in address ==> |street| < |address| && address[|street|] == ','
    ensures ',' !in address ==> street == address
  {
    SplitFirst(address, ',');
    Split(address, ',')[0]
  }

  /** Five digits in a row start at position `i`. */
  predicate FiveDigitsAt(s: string, i: int) {
    0 <= i && i + 5 <= |s| && forall k :: i <= k < i + 5 ==> IsDigit(s[k])
  }

  /** The leftmost position at or after `from` where five digits start, as a regular expression search finds it. */
  function FindFiveDigits(s: string, from: nat): (r: Option<nat>)
    ensures r.Some? ==> from <= r.value && FiveDigitsAt(s, r.value)
    ensures r.Some? ==> forall j :: from <= j < r.value ==> !FiveDigitsAt(s, j)
    ensures r.None? ==> forall j :: from <= j ==> !FiveDigitsAt(s, j)
    decreases |s| - from
  {
    if from + 5 > |s| then None
    else if FiveDigitsAt(s, from) then Some(from)
    else FindFiveDigits(s, from + 1)
  }

  /**
   * `formattedAddress.match(/\d{5}/)?.[0] || ''`: the first five consecutive
   * digits anywhere in the address, or the empty text when there are none.
   */
  function PostalCode(address: string): (code: string)
    ensures code == "" <==> forall i :: !FiveDigitsAt(address, i)
    ensures code != "" ==>
      exists i :: FiveDigitsAt(address, i) && address[i..i + 5] == code && forall j :: 0 <= j < i ==> !FiveDigitsAt(address, j)
  {
    match FindFiveDigits(address, 0)
    case None => ""
    case Some(i) => address[i..i + 5]
  }

  /** The postal code is always five digits when there is one. */
  lemma PostalCodeIsFiveDigits(address: string)
    ensures var code := PostalCode(address);
      code == "" || (|code| == 5 && forall k :: 0 <= k < 5 ==> IsDigit(code[k]))
  {
    var code := PostalCode(address);
    if code != "" {
      var i :| FiveDigitsAt(address, i) && address[i..i + 5] == code;
      assert forall k :: 0 <= k < 5 ==> code[k] == address[i + k];
    }
  }

  /**
   * An address that begins with a five-digit house number yields that number
   * as its postal code, whatever zip code follows.
   */
  lemma HouseNumberTakenForPostalCode(number: string, rest: string)
    requires |number| == 5 && forall k :: 0 <= k < 5 ==> IsDigit(number[k])
    ensures PostalCode(number + rest) == number
  {
    var address := number + rest;
    assert FiveDigitsAt(address, 0);
    assert address[0..5] == number;
  }

  datatype PostalAddress = PostalAddress(
    streetAddress: string,
    addressLocality: string,
    addressRegion: string,
    postalCode: string,
    addressCountry: string)

  datatype AggregateRating = AggregateRating(ratingValue: real, reviewCount: Option<int>)

  datatype StoreDocument = StoreDocument(
    name: string,
    description: string,
    url: string,
    telephone: string,
    address: PostalAddress,
    geo: Location,
    openingHours: seq<string>,
    priceRange: Option<string>,
    aggregateRating: Option<AggregateRating>)

  /** `cardDescription || editorialSummary || ''`. */
  function Description(store: Store): (d: string)
    ensures Truthy(store.cardDescription) ==> d == store.cardDescription.value
    ensures !Truthy(store.cardDescription) && Truthy(store.editorialSummary) ==> d == store.editorialSummary.value
    ensures !Truthy(store.cardDescription) && !Truthy(store.editorialSummary) ==> d == ""
  {
    OrElse(store.cardDescription, OrElse(store.editorialSummary, ""))
  }

  /** `hours?.weekdayText || []`: an array is truthy even when empty, so any list is kept. */
  function OpeningHours(store: Store): (lines: seq<string>)
    ensures store.hours.Some? && store.hours.value.weekdayText.Some? ==> lines == store.hours.value.weekdayText.value
    ensures store.hours.None? || store.hours.value.weekdayText.None? ==> lines == []
  {
    match store.hours
    case None => []
    case Some(h) => h.weekdayText.GetOr([])
  }

  /** A rating block exactly when the rating is present and not zero. */
  function Rating(store: Store): (r: Option<AggregateRating>)
    ensures r.Some? <==> store.metrics.Some? && store.metrics.value.rating.Some? && store.metrics.value.rating.value != 0.0
    ensures r.Some? ==>
      r.value.ratingValue == store.metrics.value.rating.value && r.value.reviewCount == store.metrics.value.userRatingsTotal
  {
    match store.metrics
    case None => None
    case Some(m) =>
      match m.rating
      case None => None
      case Some(v) => if v == 0.0 then None else Some(AggregateRating(v, m.userRatingsTotal))
  }

  /**
   * `StoreJsonLd`'s document. Reading `store.location.lat` throws when the
   * location is missing, so the page then fails to render: `None`.
   */
  function StoreLd(store: Store, siteUrl: Option<string>): (doc: Option<StoreDocument>)
    ensures doc.Some? <==> store.location.Some?
    ensures doc.Some? ==>
      var d := doc.value;
      d.name == store.name && d.description == Description(store)
      && d.url == EnvText(siteUrl) + StoreCard.StorePath(store.slug)
      && d.address.streetAddress == StreetAddress(store.formattedAddress)
      && d.address.postalCode == PostalCode(store.formattedAddress)
      && d.address.addressLocality == "New York" && d.address.addressRegion == "NY" && d.address.addressCountry == "US"
      && d.geo == store.location.value
      && d.openingHours == OpeningHours(store)
      && d.priceRange == StoreCard.PriceIndicator(store.metrics)
      && d.aggregateRating == Rating(store)
  {
    match store.location
    case None => None
    case Some(loc) =>
      Some(StoreDocument(
        store.name,
        Description(store),
        EnvText(siteUrl) + StoreCard.StorePath(store.slug),
        "",
        PostalAddress(StreetAddress(store.formattedAddress), "New York", "NY", PostalCode(store.formattedAddress), "US"),
        loc,
        OpeningHours(store),
        StoreCard.PriceIndicator(store.metrics),
        Rating(store)))
  }

  datatype BlogDocument = BlogDocument(
    headline: string,
    description: string,
    author: string,
    datePublished: string,
    url: string,
    image: Option<string>,
    publisherName: string,
    logoUrl: string)

  /** `BlogPostJsonLd`'s document: the image path is prefixed with the site address when it is non-empty. */
  function BlogLd(title: string, description: string, author: string, publishedTime: string, url: string,
                  image: Option<string>, siteUrl: Option<string>): (doc: BlogDocument)
    ensures doc.image.Some? <==> Truthy(image)
    ensures doc.image.Some? ==> doc.image.value == EnvText(siteUrl) + image.value
    ensures doc.headline == title && doc.url == url && doc.datePublished == publishedTime
    ensures doc.logoUrl == EnvText(siteUrl) + "/logo.png"
  {
    BlogDocument(title, description, author, publishedTime, url,
      if Truthy(image) then Some(EnvText(siteUrl) + image.value) else None,
      "ThriftHub NYC", EnvText(siteUrl) + "/logo.png")
  }
}
