/**
 * The store-spotlight block's preview (sanity/schemas/blocks/storeSpotlight.ts).
 * It reads the referenced store's name and image; the block's own custom
 * title is not part of the preview.
 */
module StoreSpotlight {
  import opened Wrappers
  import opened Text
  import opened Types

  /** The fields the preview selects, plus the custom title it does not. */
  datatype Spotlight = Spotlight(
    storeName: Option<string>,
    customTitle: Option<string>,
    spotlight: Option<string>,
    highlightImage: Option<Image>,
    storeImage: Option<Image>)

  datatype SpotlightPreview = SpotlightPreview(title: string, subtitle: string, media: Option<Image>)

  const TitlePrefix: string := "Store Spotlight: "

  /**
   * `prepare`: the store's name (or 'Untitled') after the prefix, the
   * spotlight text or 'No description', and the highlight image, falling
   * back to the store's featured image.
   */
  function Preview(s: Spotlight): (p: SpotlightPreview)
    ensures StartsWith(p.title, TitlePrefix) && p.title[|TitlePrefix|..] == OrElse(s.storeName, "Untitled")
    ensures p.subtitle == OrElse(s.spotlight, "No description")
    ensures s.highlightImage.Some? ==> p.media == s.highlightImage
    ensures s.highlightImage.None? ==> p.media == s.storeImage
  {
    SpotlightPreview(
      TitlePrefix + OrElse(s.storeName, "Untitled"),
      OrElse(s.spotlight, "No description"),
      if s.highlightImage.Some? then s.highlightImage else s.storeImage)
  }

  /** Setting a custom title does not change the preview, which still names the store. */
  lemma CustomTitleNotPreviewed(s: Spotlight, custom: Option<string>)
    ensures Preview(s.(customTitle := custom)) == Preview(s)
  {
  }
}
