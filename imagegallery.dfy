/**
 * The image-gallery block's previews (sanity/schemas/blocks/imageGallery.ts):
 * one per gallery item and one for the block, which counts the images and
 * shows the first one.
 */
module ImageGallery {
  import opened Wrappers
  import opened Text
  import opened Types
  import opened BlockPreview

  /** One gallery item as the editor stores it. */
  datatype GalleryItem = GalleryItem(image: Option<Image>, caption: Option<string>, alt: Option<string>)

  /** A preview line pair with a picture. */
  datatype MediaPreview = MediaPreview(title: string, subtitle: string, media: Option<Image>)

  /** The layout a new block starts with, and the one the preview assumes when none is set. */
  const DefaultLayout: string := "grid-2"

  /** An item's preview: its caption or 'Untitled Image', its alt text or 'No alt text', and its image. */
  function ItemPreview(item: GalleryItem): (p: MediaPreview)
    ensures p.title == OrElse(item.caption, "Untitled Image")
    ensures p.subtitle == OrElse(item.alt, "No alt text")
    ensures p.media == item.image
    ensures p.title != "" && p.subtitle != ""
  {
    MediaPreview(OrElse(item.caption, "Untitled Image"), OrElse(item.alt, "No alt text"), item.image)
  }

  /** `images?.length || 0`. */
  function ImageCount(images: Option<seq<GalleryItem>>): (n: nat)
    ensures images.Some? ==> n == |images.value|
    ensures images.None? ==> n == 0
  {
    match images
    case None => 0
    case Some(items) => |items|
  }

  /** `images?.[0]?.image`: the first item's image, when there is a first item. */
  function FirstImage(images: Option<seq<GalleryItem>>): (m: Option<Image>)
    ensures m.Some? ==> images.Some? && |images.value| > 0 && images.value[0].image == m
    ensures images.Some? && |images.value| > 0 ==> m == images.value[0].image
  {
    match images
    case None => None
    case Some(items) => if |items| == 0 then None else items[0].image
  }

  /** The block subtitle as the file writes it, with the misdecoded separator. */
  function SubtitleAsWritten(images: Option<seq<GalleryItem>>, layout: Option<string>): (s: string)
    ensures |s| == |Counted(ImageCount(images), "image")| + |MisdecodedBullet| + |OrElse(layout, DefaultLayout)|
    ensures StartsWith(s, Counted(ImageCount(images), "image"))
    ensures s[|Counted(ImageCount(images), "image")| + |MisdecodedBullet|..] == OrElse(layout, DefaultLayout)
  {
    JoinedAsWritten(Counted(ImageCount(images), "image"), OrElse(layout, DefaultLayout))
  }

  /** With no bullet in the layout name, the subtitle as written shows none. */
  lemma SubtitleAsWrittenLacksBullet(images: Option<seq<GalleryItem>>, layout: Option<string>)
    requires '\U{2022}' !in OrElse(layout, DefaultLayout)
    ensures '\U{2022}' !in SubtitleAsWritten(images, layout)
    ensures SubtitleAsWritten(images, layout) != Subtitle(images, layout)
  {
    var count := Counted(ImageCount(images), "image");
    assert '\U{2022}' !in count by {
      var digits := NatToString(ImageCount(images));
      assert forall i :: 0 <= i < |count| ==> count[i] != '\U{2022}' by {
        forall i | 0 <= i < |count| ensures count[i] != '\U{2022}' {
          if i < |digits| {
            assert count[i] == digits[i];
          }
        }
      }
    }
    MisdecodedJoinLacksBullet(count, OrElse(layout, DefaultLayout));
  }

  /** The block subtitle with the bullet the other blocks use: the image count, then the layout. */
  function Subtitle(images: Option<seq<GalleryItem>>, layout: Option<string>): (s: string)
    ensures |s| == |Counted(ImageCount(images), "image")| + |Bullet| + |OrElse(layout, DefaultLayout)|
    ensures StartsWith(s, Counted(ImageCount(images), "image"))
    ensures s[|Counted(ImageCount(images), "image")| + |Bullet|..] == OrElse(layout, DefaultLayout)
  {
    Joined(Counted(ImageCount(images), "image"), OrElse(layout, DefaultLayout))
  }

  /** The block's preview: its title or 'Image Gallery', the count and layout, and the first image. */
  function GalleryPreview(title: Option<string>, images: Option<seq<GalleryItem>>, layout: Option<string>): (p: MediaPreview)
    ensures p.title == OrElse(title, "Image Gallery")
    ensures p.subtitle == Subtitle(images, layout)
    ensures p.media == FirstImage(images)
  {
    MediaPreview(OrElse(title, "Image Gallery"), Subtitle(images, layout), FirstImage(images))
  }

  /**
   * The preview the block's `prepare` returns as written: the corrected
   * preview's title and image, with the misdecoded separator in the subtitle.
   */
  function GalleryPreviewAsWritten(title: Option<string>, images: Option<seq<GalleryItem>>, layout: Option<string>): (p: MediaPreview)
    ensures p.title == GalleryPreview(title, images, layout).title
    ensures p.media == GalleryPreview(title, images, layout).media
    ensures p.subtitle == SubtitleAsWritten(images, layout)
    ensures '\U{2022}' !in OrElse(layout, DefaultLayout) ==> p != GalleryPreview(title, images, layout)
  {
    var p := MediaPreview(OrElse(title, "Image Gallery"), SubtitleAsWritten(images, layout), FirstImage(images));
    if '\U{2022}' !in OrElse(layout, DefaultLayout) then
      SubtitleAsWrittenLacksBullet(images, layout);
      p
    else p
  }
}
