/**
 * The store detail panel (components/store/StoreDetailPanel.tsx). It repeats
 * the card's image choice, price indicator and neighbourhood line word for
 * word; the model uses the card's definitions for those and adds the panel's
 * own parts: the secondary badges, the hours block, the website link and the
 * domain helper.
 */
module StoreDetailPanel {
  import opened Wrappers
  import opened Text
  import opened Types
  import opened StoreCard

  /** The panel's picture: the featured image at 600 by 400, else the card's stock image. */
  function PanelImage(store: Store): (src: ImageSource)
    ensures src.Featured? <==> store.featuredImage.Some?
    ensures src.Featured? ==> src == Featured(store.featuredImage.value, 600, 400)
    ensures src.Stock? ==> src.url == StoreImage(store.id)
  {
    match store.featuredImage
    case Some(img) => Featured(img, 600, 400)
    case None => Stock(StoreImage(store.id))
  }

  /** Panel and card show the same stock photograph, and the same featured image at another size. */
  lemma PanelAndCardShareImage(store: Store)
    ensures PanelImage(store).Stock? <==> CardImage(store).Stock?
    ensures PanelImage(store).Stock? ==> PanelImage(store) == CardImage(store)
    ensures PanelImage(store).Featured? ==> PanelImage(store).image == CardImage(store).image
  {
  }

  /** `secondaryCategories?.slice(0, 2)`: at most the first two secondary categories. */
  function SecondaryBadges(store: Store): (shown: seq<Category>)
    ensures store.secondaryCategories.None? ==> shown == []
    ensures store.secondaryCategories.Some? ==>
      var all := store.secondaryCategories.value;
      |shown| == (if |all| < 2 then |all| else 2) && shown == all[..|shown|]
  {
    match store.secondaryCategories
    case None => []
    case Some(all) => if |all| < 2 then all else all[..2]
  }

  /** A value in the hours object: text, a list such as `weekdayText`, or `null`. */
  datatype HoursValue = Text(s: string) | Lines(items: seq<string>) | Null

  /** JavaScript truthiness of such a value: the empty text and `null` are falsy, every array is truthy. */
  predicate Present(v: HoursValue) {
    match v
    case Text(s) => s != ""
    case Lines(_) => true
    case Null => false
  }

  datatype HoursRow = HoursRow(day: string, value: HoursValue)

  /** The hours block: up to three rows and, when there are more days, how many were left out. */
  datatype HoursBlock = HoursBlock(rows: seq<HoursRow>, moreDays: Option<nat>)

  const HoursRowsShown: nat := 3

  /** One row: the day, and its value or 'Closed' when the value is falsy. */
  function Row(entry: (string, HoursValue)): (r: HoursRow)
    ensures r.day == entry.0
    ensures Present(entry.1) ==> r.value == entry.1
    ensures !Present(entry.1) ==> r.value == Text("Closed")
  {
    HoursRow(entry.0, if Present(entry.1) then entry.1 else Text("Closed"))
  }

  /**
   * The hours block for the `Object.entries` of `store.hours`, in their
   * enumeration order: shown only when the object has a key, the first three
   * entries as rows, and a "+ n more days" line when more than three keys exist.
   */
  function HoursView(entries: Option<seq<(string, HoursValue)>>): (b: Option<HoursBlock>)
    ensures b.Some? <==> entries.Some? && |entries.value| > 0
    ensures b.Some? ==>
      var all := entries.value;
      |b.value.rows| == (if |all| < HoursRowsShown then |all| else HoursRowsShown) &&
      (forall i :: 0 <= i < |b.value.rows| ==> b.value.rows[i] == Row(all[i])) &&
      (b.value.moreDays.Some? <==> |all| > HoursRowsShown) &&
      |b.value.rows| + b.value.moreDays.GetOr(0) == |all|
  {
    match entries
    case None => None
    case Some(all) =>
      if |all| == 0 then None
      else
        var shown := if |all| < HoursRowsShown then all else all[..HoursRowsShown];
        Some(HoursBlock(
          seq(|shown|, i requires 0 <= i < |shown| => Row(shown[i])),
          if |all| > HoursRowsShown then Some(|all| - HoursRowsShown) else None))
  }

  /**
   * The entries of the typed hours record `{ weekdayText?: string[] }`: one
   * key, `weekdayText`, when the list is there, none otherwise.
   */
  function TypedEntries(h: Hours): (entries: seq<(string, HoursValue)>)
    ensures |entries| <= 1
    ensures |entries| == 1 <==> h.weekdayText.Some?
  {
    match h.weekdayText
    case None => []
    case Some(lines) => [("weekdayText", Lines(lines))]
  }

  /**
   * For hours shaped as the type declares, the block is one row labelled
   * `weekdayText` holding the whole list, with no "more days" line.
   */
  lemma TypedHoursShowOneRow(h: Hours)
    requires h.weekdayText.Some?
    ensures var b := HoursView(Some(TypedEntries(h)));
      b.Some? && b.value.rows == [HoursRow("weekdayText", Lines(h.weekdayText.value))] && b.value.moreDays.None?
  {
    var b := HoursView(Some(TypedEntries(h)));
    assert |b.value.rows| == 1;
    assert b.value.rows[0] == Row(("weekdayText", Lines(h.weekdayText.value)));
  }

  /** The website link's target: kept when it starts with "http", otherwise given an https scheme. */
  function WebsiteHref(website: string): (href: string)
    ensures StartsWith(href, "http")
    ensures StartsWith(website, "http") ==> href == website
    ensures !StartsWith(website, "http") ==> href == "https://" + website
  {
    if StartsWith(website, "http") then website else "https://" + website
  }

  /** Normalising twice changes nothing more. */
  lemma WebsiteHrefIdempotent(website: string)
    ensures WebsiteHref(WebsiteHref(website)) == WebsiteHref(website)
  {
  }

  /** Any text that starts with "http" counts as having a scheme, even a bare host such as "httpbin.org". */
  lemma HttpPrefixIsNotAScheme()
    ensures WebsiteHref("httpbin.org") == "httpbin.org"
  {
    assert StartsWith("httpbin.org", "http") by {
      assert "httpbin.org"[..4] == "http";
    }
  }

  /** The website link, present exactly when the store has a non-empty website. */
  function WebsiteLink(store: Store): (href: Option<string>)
    ensures href.Some? <==> Truthy(store.website)
    ensures href.Some? ==> href.value == WebsiteHref(store.website.value)
  {
    if Truthy(store.website) then Some(WebsiteHref(store.website.value)) else None
  }

  /** The directions link, the Google Maps address as stored, present exactly when it is non-empty. */
  function DirectionsLink(store: Store): (href: Option<string>)
    ensures href.Some? <==> Truthy(store.googleMapsUrl)
    ensures href.Some? ==> href == store.googleMapsUrl
  {
    if Truthy(store.googleMapsUrl) then store.googleMapsUrl else None
  }

  /**
   * `getWebsiteDomain`: `null` for a missing or empty address; otherwise the
   * host name of the normalised address with its first "www." removed, or
   * the address itself when parsing throws. `hostname` stands for
   * `new URL(u).hostname`: `None` when the constructor throws.
   */
  function WebsiteDomain(url: Option<string>, hostname: string -> Option<string>): (d: Option<string>)
    ensures d.None? <==> !Truthy(url)
    ensures Truthy(url) && hostname(WebsiteHref(url.value)).None? ==> d == url
    ensures Truthy(url) && hostname(WebsiteHref(url.value)).Some? ==>
      d == Some(ReplaceFirst(hostname(WebsiteHref(url.value)).value, "www.", ""))
  {
    if !Truthy(url) then None
    else
      match hostname(WebsiteHref(url.value))
      case None => url
      case Some(host) => Some(ReplaceFirst(host, "www.", ""))
  }

  /** A host without "www." in it is shown as it is. */
  lemma DomainKeepsPlainHost(url: Option<string>, hostname: string -> Option<string>, host: string)
    requires Truthy(url) && hostname(WebsiteHref(url.value)) == Some(host)
    requires !Contains(host, "www.")
    ensures WebsiteDomain(url, hostname) == Some(host)
  {
  }

  /** A leading "www." is dropped. */
  lemma DomainDropsLeadingWww(url: Option<string>, hostname: string -> Option<string>, rest: string)
    requires Truthy(url) && hostname(WebsiteHref(url.value)) == Some("www." + rest)
    ensures WebsiteDomain(url, hostname) == Some(rest)
  {
    var host := "www." + rest;
    assert host[0..4] == "www.";
    ContainsAt(host, "www.", 0);
    var i := Occurrence(host, "www.");
    assert host[..0] + "" + host[4..] == rest;
    assert ReplaceFirst(host, "www.", "") == rest;
  }

  /**
   * The first "www." is removed wherever it stands, not only at the front:
   * one character before it is enough, so "awww.example.com" is shown as
   * "aexample.com".
   */
  lemma DomainDropsInnerWww(url: Option<string>, hostname: string -> Option<string>, c: char, rest: string)
    requires c != 'w'
    requires Truthy(url) && hostname(WebsiteHref(url.value)) == Some([c] + "www." + rest)
    ensures WebsiteDomain(url, hostname) == Some([c] + rest)
  {
    var host := [c] + "www." + rest;
    assert host[1..5] == "www.";
    ContainsAt(host, "www.", 1);
    var i := Occurrence(host, "www.");
    assert i != 0 by {
      assert host[i] == "www."[0];
    }
    assert host[..1] + "" + host[5..] == [c] + rest;
    assert ReplaceFirst(host, "www.", "") == [c] + rest;
  }
}
