/**
 * The embedded-map block (sanity/schemas/blocks/embeddedMap.ts): which of
 * its selection fields the editor shows for the map type, and the preview
 * subtitle, built by appending to the map type's label.
 */
module EmbeddedMap {
  import opened Wrappers
  import opened Text
  import opened Types
  import opened BlockPreview

  /** The fields that depend on the map type. */
  datatype MapField = FeaturedStores | NeighborhoodFocus | CategoryFilter

  /** The map type a new block starts with. */
  const InitialMapType: string := "stores"

  /**
   * The `hidden` callbacks: the featured stores are shown for the 'stores'
   * and 'custom' maps, the neighbourhood only for a 'neighborhood' map and
   * the category only for a 'category' map.
   */
  predicate Hidden(f: MapField, mapType: Option<string>) {
    match f
    case FeaturedStores => mapType != Some("stores") && mapType != Some("custom")
    case NeighborhoodFocus => mapType != Some("neighborhood")
    case CategoryFilter => mapType != Some("category")
  }

  /** Whatever the map type, at most one of the three fields is shown. */
  lemma AtMostOneMapFieldShown(mapType: Option<string>, f: MapField, g: MapField)
    requires !Hidden(f, mapType) && !Hidden(g, mapType)
    ensures f == g
  {
    match f
    case FeaturedStores =>
      assert mapType == Some("stores") || mapType == Some("custom");
    case NeighborhoodFocus =>
    case CategoryFilter =>
  }

  /** Each of the four map types shows one field: 'stores' and 'custom' the store list, the others their reference. */
  lemma FieldShownPerMapType()
    ensures !Hidden(FeaturedStores, Some(InitialMapType)) && !Hidden(FeaturedStores, Some("custom"))
    ensures !Hidden(NeighborhoodFocus, Some("neighborhood")) && !Hidden(CategoryFilter, Some("category"))
  {
  }

  /**
   * `prepare`: the subtitle starts as "<type> map" (the type defaulting to
   * 'stores') and gets one bullet part appended: the number of featured
   * stores for a 'stores' map that has a store list (an empty list counts as
   * 0 stores), the neighbourhood's name for a 'neighborhood' map, or the
   * category's name for a 'category' map. `storeCount` is the length of the
   * selected store list, absent when no list was selected. A block whose
   * type was never set reads "stores map" and never shows a count.
   */
  method Prepare(title: Option<string>, mapType: Option<string>, storeCount: Option<nat>,
                 neighborhood: Option<string>, category: Option<string>) returns (p: Preview)
    ensures p.title == OrElse(title, "Embedded Map")
    ensures var base := OrElse(mapType, "stores") + " map";
      StartsWith(p.subtitle, base) &&
      (if mapType == Some("stores") && storeCount.Some? then p.subtitle == base + Bullet + Counted(storeCount.value, "store")
       else if mapType == Some("neighborhood") && Truthy(neighborhood) then p.subtitle == base + Bullet + neighborhood.value
       else if mapType == Some("category") && Truthy(category) then p.subtitle == base + Bullet + category.value
       else p.subtitle == base)
  {
    var subtitle := OrElse(mapType, "stores") + " map";
    if mapType == Some("stores") && storeCount.Some? {
      subtitle := subtitle + Bullet + Counted(storeCount.value, "store");
    } else if mapType == Some("neighborhood") && Truthy(neighborhood) {
      subtitle := subtitle + Bullet + neighborhood.value;
    } else if mapType == Some("category") && Truthy(category) {
      subtitle := subtitle + Bullet + category.value;
    }
    p := Preview(OrElse(title, "Embedded Map"), subtitle);
  }
}
