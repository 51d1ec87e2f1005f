/**
 * What the content studio's block schemas (the files under sanity/schemas/blocks) have
 * in common in their previews: a count with a plural ending and two parts
 * joined by a bullet. A preview receives the selected fields as optional
 * values and falls back with `||`, so an empty text falls back like a missing one.
 */
module BlockPreview {
  import opened Text

  /** A preview's two lines. */
  datatype Preview = Preview(title: string, subtitle: string)

  /** The separator the previews put between two parts: a space, U+2022 and a space. */
  const Bullet: string := " \U{2022} "

  /** `${n} noun${n !== 1 ? 's' : ''}`: the count, the noun, and an "s" unless the count is one. */
  function Counted(n: nat, noun: string): (r: string)
    ensures StartsWith(r, NatToString(n) + " " + noun)
    ensures |r| == |NatToString(n) + " " + noun| + (if n == 1 then 0 else 1)
    ensures n != 1 ==> r[|r| - 1] == 's'
  {
    NatToString(n) + " " + noun + (if n != 1 then "s" else "")
  }

  /** Two parts with the bullet between them. */
  function Joined(left: string, right: string): (r: string)
    ensures |r| == |left| + |Bullet| + |right|
    ensures StartsWith(r, left) && r[|left| + |Bullet|..] == right
  {
    left + Bullet + right
  }

  /**
   * When the left part holds no bullet, splitting the preview at the first
   * bullet gives the left part back (with the space before the bullet).
   */
  lemma JoinedSplitsAtBullet(left: string, right: string)
    requires '\U{2022}' !in left
    ensures Split(Joined(left, right), '\U{2022}')[0] == left + " "
  {
    var s := Joined(left, right);
    var p := Split(s, '\U{2022}')[0];
    SplitFirst(s, '\U{2022}');
    assert s[|left| + 1] == '\U{2022}';
    assert '\U{2022}' in s;
    assert forall k :: 0 <= k <= |left| ==> s[k] != '\U{2022}' by {
      forall k | 0 <= k <= |left| ensures s[k] != '\U{2022}' {
        if k < |left| {
          assert s[k] == left[k];
        }
      }
    }
    assert p == s[..|left| + 1];
    assert s[..|left| + 1] == left + " ";
  }

  /**
   * The separator as two of the block files spell it: the UTF-8 bytes of
   * U+2022 read back as Windows-1252, which gives U+00E2, U+20AC and U+00A2.
   */
  const MisdecodedBullet: string := " \U{00E2}\U{20AC}\U{00A2} "

  /** Two parts joined with the misdecoded separator. */
  function JoinedAsWritten(left: string, right: string): (r: string)
    ensures |r| == |left| + |MisdecodedBullet| + |right|
    ensures StartsWith(r, left) && r[|left| + |MisdecodedBullet|..] == right
  {
    left + MisdecodedBullet + right
  }

  /**
   * The misdecoded separator is not a bullet: a preview joined with it
   * contains no U+2022 at all when its parts do not, so it differs from the
   * preview the other blocks produce.
   */
  lemma MisdecodedJoinLacksBullet(left: string, right: string)
    requires '\U{2022}' !in left && '\U{2022}' !in right
    ensures '\U{2022}' !in JoinedAsWritten(left, right)
    ensures '\U{2022}' in Joined(left, right)
    ensures JoinedAsWritten(left, right) != Joined(left, right)
  {
    assert '\U{2022}' !in MisdecodedBullet;
    assert Joined(left, right)[|left| + 1] == '\U{2022}';
  }
}
