/**
 * The store card (components/store/StoreCard.tsx): the stock image chosen
 * from a store's id, the `$` price indicator, the highlight classes of the
 * list variant and the conditional parts of both variants. JSX's `a && b`
 * renders nothing for `undefined`, `null`, `false` and `''`, but renders the
 * number `0` as the text "0"; the slots below keep that third outcome.
 */
module StoreCard {
  import opened Wrappers
  import opened Text
  import opened Types

  /** The eight stock photographs a store without a featured image can get. */
  const StockImages: seq<string> := [
    "https://images.unsplash.com/photo-1441986300917-64674bd600d8?ixlib=rb-4.0.3&ixid=M3wxMjA3fDB8MHxwaG90by1wYWdlfHx8fGVufDB8fHx8fA%3D%3D&auto=format&fit=crop&w=800&q=80",
    "https://images.unsplash.com/photo-1558618666-fcd25c85cd64?ixlib=rb-4.0.3&ixid=M3wxMjA3fDB8MHxwaG90by1wYWdlfHx8fGVufDB8fHx8fA%3D%3D&auto=format&fit=crop&w=800&q=80",
    "https://images.unsplash.com/photo-1563013544-824ae1b704d3?ixlib=rb-4.0.3&ixid=M3wxMjA3fDB8MHxwaG90by1wYWdlfHx8fGVufDB8fHx8fA%3D%3D&auto=format&fit=crop&w=800&q=80",
    "https://images.unsplash.com/photo-1507003211169-0a1dd7228f2d?ixlib=rb-4.0.3&ixid=M3wxMjA3fDB8MHxwaG90by1wYWdlfHx8fGVufDB8fHx8fA%3D%3D&auto=format&fit=crop&w=800&q=80",
    "https://images.unsplash.com/photo-1583847268964-b28dc8f51f92?ixlib=rb-4.0.3&ixid=M3wxMjA3fDB8MHxwaG90by1wYWdlfHx8fGVufDB8fHx8fA%3D%3D&auto=format&fit=crop&w=800&q=80",
    "https://images.unsplash.com/photo-1576995853123-5a10305d93c0?ixlib=rb-4.0.3&ixid=M3wxMjA3fDB8MHxwaG90by1wYWdlfHx8fGVufDB8fHx8fA%3D%3D&auto=format&fit=crop&w=800&q=80",
    "https://images.unsplash.com/photo-1558769132-cb1aea458c5e?ixlib=rb-4.0.3&ixid=M3wxMjA3fDB8MHxwaG90by1wYWdlfHx8fGVufDB8fHx8fA%3D%3D&auto=format&fit=crop&w=800&q=80",
    "https://images.unsplash.com/photo-1472851294608-062f824d29cc?ixlib=rb-4.0.3&ixid=M3wxMjA3fDB8MHxwaG90by1wYWdlfHx8fGVufDB8fHx8fA%3D%3D&auto=format&fit=crop&w=800&q=80"
  ]

  /**
   * `id.split('').reduce((acc, ch) => acc + ch.charCodeAt(0), 0)`: the sum
   * of the character codes, accumulated from the left.
   */
  function CharSum(id: string): nat {
    if id == [] then 0 else CharSum(id[..|id| - 1]) + id[|id| - 1] as nat
  }

  /** The sum over two pieces is the sum of their sums. */
  lemma {:induction false} CharSumConcat(a: string, b: string)
    ensures CharSum(a + b) == CharSum(a) + CharSum(b)
    decreases |b|
  {
    if b == [] {
      assert a + b == a;
    } else {
      var init := b[..|b| - 1];
      assert (a + b)[..|a + b| - 1] == a + init;
      CharSumConcat(a, init);
    }
  }

  /** The sum ignores the order of the characters. */
  lemma {:induction false} CharSumPermutation(a: string, b: string)
    requires multiset(a) == multiset(b)
    ensures CharSum(a) == CharSum(b)
    decreases |a|
  {
    if a == [] {
      assert |multiset(b)| == 0;
    } else {
      var x := a[|a| - 1];
      var init := a[..|a| - 1];
      assert a == init + [x];
      assert x in multiset(b);
      var j :| 0 <= j < |b| && b[j] == x;
      var front, back := b[..j], b[j + 1..];
      assert b == front + [x] + back;
      assert multiset(b) == multiset(front) + multiset{x} + multiset(back);
      assert multiset(a) == multiset(init) + multiset{x};
      assert multiset(front + back) == multiset(front) + multiset(back);
      assert multiset(front + back) == multiset(b) - multiset{x};
      assert multiset(init) == multiset(a) - multiset{x};
      CharSumPermutation(init, front + back);
      CharSumConcat(front + [x], back);
      CharSumConcat(front, [x]);
      CharSumConcat(front, back);
      assert CharSum([x]) == x as nat by {
        assert [x][..0] == [];
      }
    }
  }

  /** `getStoreImage`: the stock image at the character sum modulo the number of images. */
  function StoreImage(id: string): (url: string)
    ensures url in StockImages
    ensures id == [] ==> url == StockImages[0]
  {
    StockImages[CharSum(id) % |StockImages|]
  }

  /** Ids made of the same characters in another order get the same image. */
  lemma AnagramsShareImage(a: string, b: string)
    requires multiset(a) == multiset(b)
    ensures StoreImage(a) == StoreImage(b)
  {
    CharSumPermutation(a, b);
  }

  /** Changing one character code by eight keeps the image: the hash repeats every eight codes. */
  lemma ShiftByEightSharesImage(front: string, c: char, d: char, back: string)
    requires c as int == d as int + 8
    ensures StoreImage(front + [c] + back) == StoreImage(front + [d] + back)
  {
    var sum := CharSum(front + [d] + back);
    assert CharSum(front + [c] + back) == sum + 8 by {
      CharSumConcat(front + [c], back);
      CharSumConcat(front + [d], back);
      assert (front + [c])[..|front|] == front;
      assert (front + [d])[..|front|] == front;
    }
    assert (sum + 8) % 8 == sum % 8;
  }

  /** Where a card's picture comes from: the featured image at a requested size, or a stock photograph. */
  datatype ImageSource = Featured(image: Image, width: nat, height: nat) | Stock(url: string)

  /** The card's `imageUrl`: the featured image at 400 by 300 when there is one. */
  function CardImage(store: Store): (src: ImageSource)
    ensures src.Featured? <==> store.featuredImage.Some?
    ensures src.Featured? ==> src == Featured(store.featuredImage.value, 400, 300)
    ensures src.Stock? ==> src.url == StoreImage(store.id)
  {
    match store.featuredImage
    case Some(img) => Featured(img, 400, 300)
    case None => Stock(StoreImage(store.id))
  }

  /**
   * `metrics?.priceLevel ? '$'.repeat(priceLevel) : null`: a level of 0 is
   * falsy, so it shows no indicator, like a missing one.
   */
  function PriceIndicator(metrics: Option<Metrics>): (r: Option<string>)
    ensures r.Some? <==> metrics.Some? && metrics.value.priceLevel.Some? && metrics.value.priceLevel.value != 0
    ensures r.Some? ==> |r.value| == metrics.value.priceLevel.value
    ensures r.Some? ==> forall i :: 0 <= i < |r.value| ==> r.value[i] == '$'
  {
    match metrics
    case None => None
    case Some(m) =>
      match m.priceLevel
      case None => None
      case Some(level) => if level == 0 then None else Some(Repeat('$', level))
  }

  /** How a list card is highlighted. */
  datatype Highlight = SelectedLook | HoveredLook | PlainLook

  /** A selected card shows as selected whether or not it is hovered; hovering counts only otherwise. */
  function HighlightOf(isSelected: bool, isHovered: bool): (h: Highlight)
    ensures h == SelectedLook <==> isSelected
    ensures h == HoveredLook <==> !isSelected && isHovered
    ensures h == PlainLook <==> !isSelected && !isHovered
  {
    if isSelected then SelectedLook else if isHovered then HoveredLook else PlainLook
  }

  const BaseClasses: string := "p-4 transition-all duration-200 ease-in-out "

  function HighlightClasses(h: Highlight): string {
    match h
    case SelectedLook => "ring-2 ring-earth-sage-500 bg-earth-sage-50"
    case HoveredLook => "bg-gray-50 shadow-md"
    case PlainLook => ""
  }

  /** The list card's `cardClasses`: the fixed classes, then the highlight's own. */
  function CardClasses(isSelected: bool, isHovered: bool): (r: string)
    ensures StartsWith(r, BaseClasses)
    ensures r[|BaseClasses|..] == HighlightClasses(HighlightOf(isSelected, isHovered))
  {
    BaseClasses + HighlightClasses(HighlightOf(isSelected, isHovered))
  }

  /** The three looks give three different class strings, so the classes tell the look apart. */
  lemma CardClassesDistinguishLooks(s1: bool, h1: bool, s2: bool, h2: bool)
    requires HighlightOf(s1, h1) != HighlightOf(s2, h2)
    ensures CardClasses(s1, h1) != CardClasses(s2, h2)
  {
  }

  /** What `{x && <part/>}` renders for an optional number. */
  datatype Slot = Absent | ZeroText | Shown(value: real)

  /** Nothing for a missing number, the text "0" for zero, the part itself otherwise. */
  function NumberSlot(x: Option<real>): (s: Slot)
    ensures s == Absent <==> x.None?
    ensures s == ZeroText <==> x == Some(0.0)
    ensures s.Shown? ==> x == Some(s.value) && s.value != 0.0
  {
    match x
    case None => Absent
    case Some(v) => if v == 0.0 then ZeroText else Shown(v)
  }

  /** The rating slot, shared by both variants. */
  function RatingSlot(store: Store): (s: Slot)
    ensures store.metrics.None? ==> s == Absent
    ensures store.metrics.Some? ==> s == NumberSlot(store.metrics.value.rating)
  {
    match store.metrics
    case None => Absent
    case Some(m) => NumberSlot(m.rating)
  }

  /** Where activating a list card leads. */
  datatype Target = Handler | Link(href: string)

  /** The page of one store. */
  function StorePath(slug: string): (href: string)
    ensures StartsWith(href, "/stores/") && href[|"/stores/"|..] == slug
  {
    "/stores/" + slug
  }

  /** A list card calls the click handler when it has one and links to the store page otherwise. */
  function ListTarget(store: Store, hasOnClick: bool): (t: Target)
    ensures t == Handler <==> hasOnClick
    ensures t.Link? ==> t.href == StorePath(store.slug)
  {
    if hasOnClick then Handler else Link(StorePath(store.slug))
  }

  /** The neighbourhood and, when the region has a non-empty name, a bullet and the region. */
  function NeighborhoodLine(store: Store): (line: string)
    ensures var n := OrElse(NeighborhoodName(store), "");
      StartsWith(line, n) &&
      (Truthy(RegionName(store)) ==> line[|n|..] == " \U{2022} " + RegionName(store).value) &&
      (!Truthy(RegionName(store)) ==> line == n)
  {
    OrElse(NeighborhoodName(store), "")
    + (if Truthy(RegionName(store)) then " \U{2022} " + RegionName(store).value else "")
  }

  /** The grid card's neighbourhood text, `'NYC'` when the name is missing or empty. */
  function GridNeighborhood(store: Store): (text: string)
    ensures Truthy(NeighborhoodName(store)) ==> text == NeighborhoodName(store).value
    ensures !Truthy(NeighborhoodName(store)) ==> text == "NYC"
    ensures text != ""
  {
    OrElse(NeighborhoodName(store), "NYC")
  }

  /** A store without a neighbourhood shows "NYC" on a grid card but an empty line on a list card. */
  lemma VariantsDisagreeWithoutNeighborhood(store: Store)
    requires store.neighborhood.None?
    ensures GridNeighborhood(store) == "NYC"
    ensures NeighborhoodLine(store) == ""
  {
  }

  /** What the list variant shows beyond the name, description and image. */
  datatype ListCard = ListCard(
    image: ImageSource,
    classes: string,
    neighborhoodLine: string,
    price: Option<string>,
    rating: Slot,
    ratingCount: Option<int>,
    distance: Slot,
    selectedNote: bool,
    target: Target)

  /** The list variant for a store, its selection and hover state, a click handler's presence and a distance. */
  function ListVariant(store: Store, isSelected: bool, isHovered: bool, hasOnClick: bool, distance: Option<real>): (c: ListCard)
    ensures c.image == CardImage(store) && c.price == PriceIndicator(store.metrics)
    ensures c.classes == CardClasses(isSelected, isHovered)
    ensures c.rating == RatingSlot(store) && c.distance == NumberSlot(distance)
    ensures c.neighborhoodLine == NeighborhoodLine(store)
    ensures c.ratingCount.Some? ==> c.rating.Shown?
    ensures c.rating.Shown? ==> store.metrics.Some? && c.ratingCount == store.metrics.value.userRatingsTotal
    ensures c.selectedNote <==> isSelected
    ensures c.target == ListTarget(store, hasOnClick)
  {
    var rating := RatingSlot(store);
    ListCard(
      CardImage(store),
      CardClasses(isSelected, isHovered),
      NeighborhoodLine(store),
      PriceIndicator(store.metrics),
      rating,
      if rating.Shown? then store.metrics.value.userRatingsTotal else None,
      NumberSlot(distance),
      isSelected,
      ListTarget(store, hasOnClick))
  }

  /** What the grid variant shows beyond the name, description and image. */
  datatype GridCard = GridCard(image: ImageSource, neighborhood: string, price: Option<string>, rating: Slot, href: string)

  /** The grid variant: always a link to the store page, with no count next to the rating. */
  function GridVariant(store: Store): (c: GridCard)
    ensures c.image == CardImage(store) && c.price == PriceIndicator(store.metrics)
    ensures c.neighborhood == GridNeighborhood(store) && c.rating == RatingSlot(store)
    ensures c.href == StorePath(store.slug)
  {
    GridCard(CardImage(store), GridNeighborhood(store), PriceIndicator(store.metrics), RatingSlot(store), StorePath(store.slug))
  }
}
