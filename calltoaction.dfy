/**
 * The call-to-action block (sanity/schemas/blocks/callToAction.ts): which of
 * a button's link fields the editor shows for its link type, and the preview
 * texts of a button and of the block.
 */
module CallToAction {
  import opened Wrappers
  import opened Types
  import opened BlockPreview
  import Text

  /** The link fields of a button; each is shown for one link type only. */
  datatype LinkField = StoreField | MapParams | ExternalUrl | InternalPath

  /** The link type that shows a field. */
  function LinkTypeOf(f: LinkField): string {
    match f
    case StoreField => "store"
    case MapParams => "map"
    case ExternalUrl => "external"
    case InternalPath => "internal"
  }

  /**
   * The `hidden` callbacks: `parent?.linkType !== <type>`. A button without
   * a link type (or whose parent is missing) hides every link field.
   */
  predicate Hidden(f: LinkField, linkType: Option<string>) {
    linkType != Some(LinkTypeOf(f))
  }

  /** A button with one of the four link types shows exactly that type's field. */
  lemma ExactlyOneLinkFieldShown(f: LinkField)
    ensures !Hidden(f, Some(LinkTypeOf(f)))
    ensures forall g :: g != f ==> Hidden(g, Some(LinkTypeOf(f)))
  {
    forall g | g != f ensures Hidden(g, Some(LinkTypeOf(f))) {
      assert LinkTypeOf(g) != LinkTypeOf(f) by {
        match g
        case StoreField =>
        case MapParams =>
        case ExternalUrl =>
        case InternalPath =>
      }
    }
  }

  /** Any other link type, or none, shows no link field at all. */
  lemma UnknownLinkTypeShowsNothing(linkType: Option<string>)
    requires linkType.None? || linkType.value !in {"store", "map", "external", "internal"}
    ensures forall f :: Hidden(f, linkType)
  {
  }

  /** A button's preview: its text or 'Untitled Button', then the link type and style, defaulted. */
  function ButtonPreview(text: Option<string>, linkType: Option<string>, style: Option<string>): (p: Preview)
    ensures p.title == OrElse(text, "Untitled Button")
    ensures p.subtitle == Joined(OrElse(linkType, "no-link"), OrElse(style, "primary"))
    ensures p.title != "" && p.subtitle != ""
  {
    Preview(OrElse(text, "Untitled Button"), Joined(OrElse(linkType, "no-link"), OrElse(style, "primary")))
  }

  /** With no bullet in the link type, the part of the subtitle before the bullet is the link type. */
  lemma ButtonSubtitleLeadsWithLinkType(text: Option<string>, linkType: Option<string>, style: Option<string>)
    requires '\U{2022}' !in OrElse(linkType, "no-link")
    ensures Text.Split(ButtonPreview(text, linkType, style).subtitle, '\U{2022}')[0] == OrElse(linkType, "no-link") + " "
  {
    JoinedSplitsAtBullet(OrElse(linkType, "no-link"), OrElse(style, "primary"));
  }

  /**
   * The block's preview: the heading or 'Call to Action', then the number of
   * buttons (no buttons selected counts as 0) and the text or 'No description'.
   */
  function BlockSummary(heading: Option<string>, text: Option<string>, buttons: Option<nat>): (p: Preview)
    ensures p.title == OrElse(heading, "Call to Action")
    ensures p.subtitle == Joined(Counted(buttons.GetOr(0), "button"), OrElse(text, "No description"))
  {
    Preview(OrElse(heading, "Call to Action"), Joined(Counted(buttons.GetOr(0), "button"), OrElse(text, "No description")))
  }
}
