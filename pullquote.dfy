/**
 * The pull-quote block's preview (sanity/schemas/blocks/pullQuote.ts): the
 * quote, cut to sixty characters, in quotation marks, and the attribution
 * and style.
 */
module PullQuote {
  import opened Wrappers
  import opened Text
  import opened Types
  import opened BlockPreview

  /** The longest quote shown whole. */
  const QuoteLimit: nat := 60

  /** The style a new block starts with, and the one the preview assumes when none is set. */
  const DefaultStyle: string := "large-center"

  /**
   * The preview title: a quote longer than the limit is cut to its first
   * sixty characters followed by "..."; a missing or empty quote reads
   * 'No quote text'; the result is wrapped in double quotation marks.
   */
  function QuoteTitle(quote: Option<string>): (t: string)
    ensures |t| >= 2 && t[0] == '"' && t[|t| - 1] == '"'
    ensures |t| <= QuoteLimit + 5
    ensures quote.Some? && |quote.value| > QuoteLimit ==> t == "\"" + quote.value[..QuoteLimit] + "...\""
    ensures Truthy(quote) && |quote.value| <= QuoteLimit ==> t == "\"" + quote.value + "\""
    ensures !Truthy(quote) ==> t == "\"No quote text\""
  {
    var shown :=
      if quote.Some? && |quote.value| > QuoteLimit then quote.value[..QuoteLimit] + "..."
      else OrElse(quote, "No quote text");
    "\"" + shown + "\""
  }

  /**
   * `name && title ? name + ', ' + title : name || title || 'Anonymous'`:
   * both parts when both are set, otherwise whichever is set, otherwise
   * 'Anonymous'. The attribution is never empty.
   */
  function Attribution(name: Option<string>, title: Option<string>): (a: string)
    ensures Truthy(name) && Truthy(title) ==> a == name.value + ", " + title.value
    ensures Truthy(name) && !Truthy(title) ==> a == name.value
    ensures !Truthy(name) && Truthy(title) ==> a == title.value
    ensures !Truthy(name) && !Truthy(title) ==> a == "Anonymous"
    ensures a != ""
  {
    if Truthy(name) && Truthy(title) then name.value + ", " + title.value
    else OrElse(name, OrElse(title, "Anonymous"))
  }

  /** The subtitle as the file writes it, with the misdecoded separator. */
  function SubtitleAsWritten(name: Option<string>, title: Option<string>, style: Option<string>): (s: string)
    ensures |s| == |Attribution(name, title)| + |MisdecodedBullet| + |OrElse(style, DefaultStyle)|
    ensures StartsWith(s, Attribution(name, title))
    ensures s[|Attribution(name, title)| + |MisdecodedBullet|..] == OrElse(style, DefaultStyle)
  {
    JoinedAsWritten(Attribution(name, title), OrElse(style, DefaultStyle))
  }

  /** With no bullet in the names or the style, the subtitle as written shows none. */
  lemma SubtitleAsWrittenLacksBullet(name: Option<string>, title: Option<string>, style: Option<string>)
    requires '\U{2022}' !in Attribution(name, title) && '\U{2022}' !in OrElse(style, DefaultStyle)
    ensures '\U{2022}' !in SubtitleAsWritten(name, title, style)
    ensures SubtitleAsWritten(name, title, style) != Subtitle(name, title, style)
  {
    MisdecodedJoinLacksBullet(Attribution(name, title), OrElse(style, DefaultStyle));
  }

  /** The subtitle with the bullet the other blocks use: the attribution, then the style. */
  function Subtitle(name: Option<string>, title: Option<string>, style: Option<string>): (s: string)
    ensures |s| == |Attribution(name, title)| + |Bullet| + |OrElse(style, DefaultStyle)|
    ensures StartsWith(s, Attribution(name, title))
    ensures s[|Attribution(name, title)| + |Bullet|..] == OrElse(style, DefaultStyle)
  {
    Joined(Attribution(name, title), OrElse(style, DefaultStyle))
  }

  /** The corrected subtitle splits at its bullet back into the attribution. */
  lemma SubtitleSplitsAtBullet(name: Option<string>, title: Option<string>, style: Option<string>)
    requires '\U{2022}' !in Attribution(name, title)
    ensures Split(Subtitle(name, title, style), '\U{2022}')[0] == Attribution(name, title) + " "
  {
    JoinedSplitsAtBullet(Attribution(name, title), OrElse(style, DefaultStyle));
  }

  /** The block's preview. */
  function QuotePreview(quote: Option<string>, name: Option<string>, title: Option<string>, style: Option<string>): (p: Preview)
    ensures p.title == QuoteTitle(quote) && p.subtitle == Subtitle(name, title, style)
  {
    Preview(QuoteTitle(quote), Subtitle(name, title, style))
  }

  /**
   * The preview the block's `prepare` returns as written: the same title as
   * the corrected preview, with the misdecoded separator in the subtitle.
   */
  function QuotePreviewAsWritten(quote: Option<string>, name: Option<string>, title: Option<string>, style: Option<string>): (p: Preview)
    ensures p.title == QuotePreview(quote, name, title, style).title
    ensures p.subtitle == SubtitleAsWritten(name, title, style)
    ensures '\U{2022}' !in Attribution(name, title) && '\U{2022}' !in OrElse(style, DefaultStyle) ==>
      p != QuotePreview(quote, name, title, style)
  {
    var p := Preview(QuoteTitle(quote), SubtitleAsWritten(name, title, style));
    if '\U{2022}' !in Attribution(name, title) && '\U{2022}' !in OrElse(style, DefaultStyle) then
      SubtitleAsWrittenLacksBullet(name, title, style);
      p
    else p
  }
}
