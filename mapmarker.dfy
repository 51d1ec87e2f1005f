/**
 * The map legend's store classifier and marker sizing (components/map/MapMarker.tsx).
 * A store is put in one of eight display categories by looking for keywords in
 * its lower-cased name and card description; the first keyword group that
 * matches wins.
 */
module MapMarker {
  import opened Wrappers
  import opened Text

  /** The keys of `categoryConfig`. */
  datatype CategoryType = Vintage | Consignment | Thrift | Antique | Furniture | Books | Designer | General

  /** One entry of `categoryConfig`: pin colour, icon glyph and legend name. */
  datatype CategoryStyle = CategoryStyle(color: string, icon: string, name: string)

  /** `categoryConfig[category]`: every key has a `#rrggbb` colour, an icon and a name. */
  function Config(c: CategoryType): (s: CategoryStyle)
    ensures |s.color| == 7 && s.color[0] == '#'
    ensures forall i :: 1 <= i < 7 ==> s.color[i] in "0123456789abcdefABCDEF"
    ensures s.icon != "" && s.name != ""
  {
    match c
    case Vintage => CategoryStyle("#8B4A7B", "\U{1F457}", "Vintage")
    case Consignment => CategoryStyle("#6B73FF", "\U{1F48E}", "Consignment")
    case Thrift => CategoryStyle("#E67E22", "\U{1F6CD}\U{FE0F}", "Thrift")
    case Antique => CategoryStyle("#8B4513", "\U{1F3FA}", "Antique")
    case Furniture => CategoryStyle("#2E8B57", "\U{1FA91}", "Furniture")
    case Books => CategoryStyle("#4169E1", "\U{1F4DA}", "Books")
    case Designer => CategoryStyle("#FF1493", "\U{2728}", "Designer")
    case General => CategoryStyle("#6d8c76", "\U{1F3EA}", "General")
  }

  /** No two categories share a pin colour or a legend name, so the legend tells them apart. */
  lemma ConfigDistinct(c: CategoryType, d: CategoryType)
    requires c != d
    ensures Config(c).color != Config(d).color
    ensures Config(c).name != Config(d).name
  {
  }

  /** The keyword groups in the order the classifier tries them, each with the category it yields. */
  const KeywordGroups: seq<(CategoryType, seq<string>)> := [
    (Vintage, ["vintage", "retro"]),
    (Consignment, ["consignment", "consign"]),
    (Antique, ["antique", "antiquary"]),
    (Furniture, ["furniture", "chair", "table"]),
    (Books, ["book", "library"]),
    (Designer, ["designer", "luxury", "couture"]),
    (Thrift, ["thrift", "goodwill", "salvation army"])
  ]

  /** Some keyword of the group occurs in the text. */
  predicate AnyKeyword(text: string, words: seq<string>) {
    exists i :: 0 <= i < |words| && Contains(text, words[i])
  }

  /** The reference reading of the classifier: the category of the first group with a keyword in the text, else `General`. */
  function FirstMatch(text: string, groups: seq<(CategoryType, seq<string>)>): CategoryType {
    if groups == [] then General
    else if AnyKeyword(text, groups[0].1) then groups[0].0
    else FirstMatch(text, groups[1..])
  }

  /** The text searched: name, a space and the card description (absent or null reads as `''`), lower-cased. */
  function SearchText(name: string, cardDescription: Option<string>): string {
    Lower(name + " " + cardDescription.GetOr(""))
  }

  /** `categorizeStore`: the chain of keyword tests on the lower-cased text. */
  function CategorizeStore(name: string, cardDescription: Option<string>): CategoryType {
    CategorizeText(SearchText(name, cardDescription))
  }

  /** The body of `categorizeStore` once the text is built. */
  function CategorizeText(text: string): CategoryType {
    if Contains(text, "vintage") || Contains(text, "retro") then Vintage
    else if Contains(text, "consignment") || Contains(text, "consign") then Consignment
    else if Contains(text, "antique") || Contains(text, "antiquary") then Antique
    else if Contains(text, "furniture") || Contains(text, "chair") || Contains(text, "table") then Furniture
    else if Contains(text, "book") || Contains(text, "library") then Books
    else if Contains(text, "designer") || Contains(text, "luxury") || Contains(text, "couture") then Designer
    else if Contains(text, "thrift") || Contains(text, "goodwill") || Contains(text, "salvation army") then Thrift
    else General
  }

  /** One step of `FirstMatch`. */
  lemma FirstMatchStep(text: string, groups: seq<(CategoryType, seq<string>)>)
    requires groups != []
    ensures FirstMatch(text, groups)
         == if AnyKeyword(text, groups[0].1) then groups[0].0 else FirstMatch(text, groups[1..])
  {
  }

  lemma AnyOfTwo(text: string, a: string, b: string)
    ensures AnyKeyword(text, [a, b]) <==> Contains(text, a) || Contains(text, b)
  {
    if Contains(text, a) { assert [a, b][0] == a; }
    if Contains(text, b) { assert [a, b][1] == b; }
  }

  lemma AnyOfThree(text: string, a: string, b: string, c: string)
    ensures AnyKeyword(text, [a, b, c]) <==> Contains(text, a) || Contains(text, b) || Contains(text, c)
  {
    if Contains(text, a) { assert [a, b, c][0] == a; }
    if Contains(text, b) { assert [a, b, c][1] == b; }
    if Contains(text, c) { assert [a, b, c][2] == c; }
  }

  /** The if-chain is exactly "first matching group in the fixed order". */
  lemma CategorizeIsFirstMatch(text: string)
    ensures CategorizeText(text) == FirstMatch(text, KeywordGroups)
  {
    var g := KeywordGroups;
    AnyOfTwo(text, "vintage", "retro");
    AnyOfTwo(text, "consignment", "consign");
    AnyOfTwo(text, "antique", "antiquary");
    AnyOfThree(text, "furniture", "chair", "table");
    AnyOfTwo(text, "book", "library");
    AnyOfThree(text, "designer", "luxury", "couture");
    AnyOfThree(text, "thrift", "goodwill", "salvation army");
    FirstMatchStep(text, g);
    FirstMatchStep(text, g[1..]);
    FirstMatchStep(text, g[2..]);
    FirstMatchStep(text, g[3..]);
    FirstMatchStep(text, g[4..]);
    FirstMatchStep(text, g[5..]);
    FirstMatchStep(text, g[6..]);
    assert g[1..][1..] == g[2..] && g[2..][1..] == g[3..] && g[3..][1..] == g[4..];
    assert g[4..][1..] == g[5..] && g[5..][1..] == g[6..] && g[6..][1..] == [];
  }

  /** Position of a non-general category in the precedence order. */
  function Rank(c: CategoryType): (k: nat)
    requires c != General
    ensures k < |KeywordGroups| && KeywordGroups[k].0 == c
  {
    match c
    case Vintage => 0
    case Consignment => 1
    case Antique => 2
    case Furniture => 3
    case Books => 4
    case Designer => 5
    case Thrift => 6
  }

  /** What `FirstMatch` promises: the winning group matches and no earlier group does; `General` means none matches. */
  lemma {:induction false} FirstMatchSpec(text: string, groups: seq<(CategoryType, seq<string>)>)
    ensures var c := FirstMatch(text, groups);
      (c == General && (forall j :: 0 <= j < |groups| ==> groups[j].0 != General) ==>
         forall j :: 0 <= j < |groups| ==> !AnyKeyword(text, groups[j].1))
      && (c != General ==> exists k :: 0 <= k < |groups| && groups[k].0 == c && AnyKeyword(text, groups[k].1)
                                        && forall j :: 0 <= j < k ==> !AnyKeyword(text, groups[j].1))
  {
    if groups != [] && !AnyKeyword(text, groups[0].1) {
      FirstMatchSpec(text, groups[1..]);
      var c := FirstMatch(text, groups);
      if c != General {
        var k :| 0 <= k < |groups| - 1 && groups[1..][k].0 == c && AnyKeyword(text, groups[1..][k].1)
                 && forall j :: 0 <= j < k ==> !AnyKeyword(text, groups[1..][j].1);
        assert forall j :: 0 <= j < k + 1 ==> !AnyKeyword(text, groups[j].1) by {
          forall j | 0 <= j < k + 1 ensures !AnyKeyword(text, groups[j].1) {
            if j > 0 { assert groups[j] == groups[1..][j - 1]; }
          }
        }
      }
    }
  }

  /**
   * Precedence: a store is classified `c` exactly when a keyword of `c`'s group
   * occurs and no keyword of an earlier group does; it is `General` exactly when
   * no keyword of any group occurs.
   */
  lemma CategorizePrecedence(name: string, cardDescription: Option<string>)
    ensures var text := SearchText(name, cardDescription);
      var c := CategorizeStore(name, cardDescription);
      (c == General <==> forall j :: 0 <= j < |KeywordGroups| ==> !AnyKeyword(text, KeywordGroups[j].1))
      && (c != General ==> AnyKeyword(text, KeywordGroups[Rank(c)].1)
                           && forall j :: 0 <= j < Rank(c) ==> !AnyKeyword(text, KeywordGroups[j].1))
  {
    var text := SearchText(name, cardDescription);
    CategorizeIsFirstMatch(text);
    FirstMatchSpec(text, KeywordGroups);
  }

  /** Matching ignores case: lower-casing the inputs first changes nothing. */
  lemma CategorizeIgnoresCase(name: string, cardDescription: Option<string>)
    ensures CategorizeStore(name, cardDescription)
         == CategorizeStore(Lower(name), Some(Lower(cardDescription.GetOr(""))))
  {
    var d := cardDescription.GetOr("");
    LowerConcat(name, " " + d);
    LowerConcat(" ", d);
    LowerConcat(Lower(name), " " + Lower(d));
    LowerConcat(" ", Lower(d));
    LowerIdempotent(name);
    LowerIdempotent(d);
    assert Lower(" ") == " ";
    assert SearchText(name, cardDescription) == SearchText(Lower(name), Some(Lower(d))) by {
      assert name + " " + d == name + (" " + d);
      assert Lower(name) + " " + Lower(d) == Lower(name) + (" " + Lower(d));
    }
  }

  lemma ChainAntique(text: string)
    requires !Contains(text, "vintage") && !Contains(text, "retro")
    requires !Contains(text, "consignment") && !Contains(text, "consign")
    requires Contains(text, "antique")
    ensures CategorizeText(text) == Antique
  {
  }

  lemma ChainFurniture(text: string)
    requires !Contains(text, "vintage") && !Contains(text, "retro")
    requires !Contains(text, "consignment") && !Contains(text, "consign")
    requires !Contains(text, "antique") && !Contains(text, "antiquary")
    requires Contains(text, "table")
    ensures CategorizeText(text) == Furniture
  {
  }

  lemma ChainThrift(text: string)
    requires !Contains(text, "vintage") && !Contains(text, "retro")
    requires !Contains(text, "consignment") && !Contains(text, "consign")
    requires !Contains(text, "antique") && !Contains(text, "antiquary")
    requires !Contains(text, "furniture") && !Contains(text, "chair") && !Contains(text, "table")
    requires !Contains(text, "book") && !Contains(text, "library")
    requires !Contains(text, "designer") && !Contains(text, "luxury") && !Contains(text, "couture")
    requires Contains(text, "salvation army")
    ensures CategorizeText(text) == Thrift
  {
  }

  lemma SearchTextAntique(name: string)
    requires name == "Antique Furniture"
    ensures SearchText(name, None) == "antique furniture "
  {
  }

  lemma SearchTextStable(name: string)
    requires name == "Stable Finds"
    ensures SearchText(name, None) == "stable finds "
  {
  }

  lemma SearchTextSalvation(name: string, cardDescription: Option<string>)
    requires name == "Salvation" && cardDescription == Some("Army")
    ensures SearchText(name, cardDescription) == "salvation army"
    ensures Lower(name) == "salvation" && Lower(cardDescription.value) == "army"
  {
  }

  /** "Vintage Consignment" is `Vintage`: the earlier group wins over the later one. */
  lemma VintageBeatsConsignment(name: string)
    requires name == "Vintage Consignment"
    ensures CategorizeStore(name, None) == Vintage
  {
    var text := SearchText(name, None);
    assert text == "vintage consignment ";
    ContainsAt(text, "vintage", 0);
  }

  /** "Antique Furniture" is `Antique`, not `Furniture`. */
  lemma AntiqueBeatsFurniture(name: string)
    requires name == "Antique Furniture"
    ensures CategorizeStore(name, None) == Antique
  {
    SearchTextAntique(name);
    var text := SearchText(name, None);
    AntiqueFurnitureLetters(text);
    NotContainsMissingChar(text, "vintage", 'v');
    NotContainsMissingChar(text, "retro", 'o');
    NotContainsMissingChar(text, "consignment", 'c');
    NotContainsMissingChar(text, "consign", 'c');
    ContainsAt(text, "antique", 0);
    ChainAntique(text);
  }

  /** Keywords are substrings, not words: "Stable" holds "table" and is classified as furniture. */
  lemma SubstringNotWord(name: string)
    requires name == "Stable Finds"
    ensures CategorizeStore(name, None) == Furniture
  {
    SearchTextStable(name);
    var text := SearchText(name, None);
    StableFindsNoEarlierKeyword(text);
    ContainsAt(text, "table", 1);
    ChainFurniture(text);
  }

  /** "stable finds " holds no keyword of the groups before furniture. */
  lemma StableFindsNoEarlierKeyword(text: string)
    requires text == "stable finds "
    ensures !Contains(text, "vintage") && !Contains(text, "retro")
    ensures !Contains(text, "consignment") && !Contains(text, "consign")
    ensures !Contains(text, "antique") && !Contains(text, "antiquary")
  {
    StableFindsLetters(text);
    NotContainsMissingChar(text, "vintage", 'v');
    NotContainsMissingChar(text, "retro", 'r');
    NotContainsMissingChar(text, "consignment", 'c');
    NotContainsMissingChar(text, "consign", 'c');
    NotContainsMissingChar(text, "antique", 'q');
    NotContainsMissingChar(text, "antiquary", 'q');
  }

  lemma AntiqueFurnitureLetters(text: string)
    requires text == "antique furniture "
    ensures 'v' !in text && 'o' !in text && 'c' !in text
  {
  }

  lemma StableFindsLetters(text: string)
    requires text == "stable finds "
    ensures 'v' !in text && 'r' !in text && 'c' !in text && 'q' !in text
  {
  }

  /** A keyword may straddle the space joining name and description. */
  lemma KeywordSpansJoin(name: string, cardDescription: Option<string>)
    requires name == "Salvation" && cardDescription == Some("Army")
    ensures CategorizeStore(name, cardDescription) == Thrift
    ensures !Contains(Lower(name), "salvation army") && !Contains(Lower(cardDescription.value), "salvation army")
  {
    SearchTextSalvation(name, cardDescription);
    var text := SearchText(name, cardDescription);
    SalvationArmyLetters(text);
    SalvationArmyMoreLetters(text);
    OnlyThriftLetters(text);
    var n := Lower(name);
    var d := Lower(cardDescription.value);
    NeitherPartHoldsIt(n, d);
    NotContainsMissingChar(n, "salvation army", ' ');
    NotContainsMissingChar(d, "salvation army", 's');
  }

  lemma NeitherPartHoldsIt(n: string, d: string)
    requires n == "salvation" && d == "army"
    ensures ' ' !in n && 's' !in d
  {
  }

  lemma SalvationArmyLetters(text: string)
    requires text == "salvation army"
    ensures 'b' !in text && 'c' !in text && 'd' !in text && 'e' !in text
    ensures StartsWith(text, "salvation army")
  {
  }

  lemma SalvationArmyMoreLetters(text: string)
    requires text == "salvation army"
    ensures 'f' !in text && 'g' !in text && 'q' !in text && 'x' !in text
  {
  }

  /** Text lacking these letters matches no keyword before the thrift group's "salvation army". */
  lemma OnlyThriftLetters(text: string)
    requires 'b' !in text && 'c' !in text && 'd' !in text && 'e' !in text && 'f' !in text
    requires 'g' !in text && 'q' !in text && 'x' !in text
    requires StartsWith(text, "salvation army")
    ensures CategorizeText(text) == Thrift
  {
    ContainsAt(text, "salvation army", 0);
    NotContainsMissingChar(text, "vintage", 'g');
    NotContainsMissingChar(text, "retro", 'e');
    NotContainsMissingChar(text, "consignment", 'c');
    NotContainsMissingChar(text, "consign", 'c');
    NotContainsMissingChar(text, "antique", 'q');
    NotContainsMissingChar(text, "antiquary", 'q');
    NotContainsMissingChar(text, "furniture", 'f');
    NotContainsMissingChar(text, "chair", 'c');
    NotContainsMissingChar(text, "table", 'b');
    NotContainsMissingChar(text, "book", 'b');
    NotContainsMissingChar(text, "library", 'b');
    NotContainsMissingChar(text, "designer", 'd');
    NotContainsMissingChar(text, "luxury", 'x');
    NotContainsMissingChar(text, "couture", 'c');
    ChainThrift(text);
  }

  /** The marker sizes of `sizeConfig`. */
  datatype Size = Sm | Md | Lg

  /** One row of `sizeConfig`, in pixels. */
  datatype SizeSpec = SizeSpec(container: nat, pin: nat, icon: nat, iconOffset: nat)

  function SizeConfig(s: Size): SizeSpec {
    match s
    case Sm => SizeSpec(24, 20, 10, 4)
    case Md => SizeSpec(30, 26, 12, 5)
    case Lg => SizeSpec(36, 32, 14, 6)
  }

  /** Container, pin, icon and offset grow strictly from `sm` to `md` to `lg`, and the pin fits in its container. */
  lemma SizesIncrease()
    ensures SizeConfig(Sm).container < SizeConfig(Md).container < SizeConfig(Lg).container
    ensures SizeConfig(Sm).pin < SizeConfig(Md).pin < SizeConfig(Lg).pin
    ensures SizeConfig(Sm).icon < SizeConfig(Md).icon < SizeConfig(Lg).icon
    ensures SizeConfig(Sm).iconOffset < SizeConfig(Md).iconOffset < SizeConfig(Lg).iconOffset
    ensures forall s :: SizeConfig(s).pin < SizeConfig(s).container
  {
  }

  /** The size drawn: a hovered marker is always `lg`; otherwise the `size` prop, `md` when it is not given. */
  function CurrentSize(isHovered: Option<bool>, size: Option<Size>): (s: Size)
    ensures isHovered == Some(true) ==> s == Lg
    ensures isHovered != Some(true) ==> s == size.GetOr(Md)
  {
    if isHovered.GetOr(false) then Lg else size.GetOr(Md)
  }

  /** Hovering never makes a marker smaller than the size it would have had. */
  lemma HoverNeverShrinks(size: Option<Size>)
    ensures SizeConfig(CurrentSize(Some(true), size)).container >= SizeConfig(CurrentSize(Some(false), size)).container
  {
  }
}
