/**
 * The cart flyout: the `ShoppingCartButton` component and the `ShoppingCartItem` row it renders
 * for each line item. Only the values the components derive from the cart query are modelled;
 * the markup around them is reduced to the fields of `CartPanel` and `ItemView`.
 */
module ShoppingCart {
  import opened Wrappers
  import opened JsValues

  // ---------------------------------------------------------------------------------------
  // The fields of the commerce platform's cart that the components read
  // ---------------------------------------------------------------------------------------

  /** A translatable text such as `productName` or `colorInfo`: only `translated` is read. */
  datatype Translatable = Translatable(translated: Option<string>)

  /** A money value: `amount` is compared, `formattedConvertedAmount` is displayed. */
  datatype Price = Price(amount: Option<string>, formattedConvertedAmount: Option<string>)

  datatype Availability = Availability(quantityAvailable: Option<int>)

  datatype DescriptionLine = DescriptionLine(colorInfo: Option<Translatable>, plainText: Option<Translatable>)

  datatype LineItem = LineItem(
    url: Option<string>,
    productName: Option<Translatable>,
    quantity: Option<int>,
    availability: Option<Availability>,
    descriptionLines: Option<seq<DescriptionLine>>,
    price: Option<Price>,
    fullPrice: Option<Price>)

  datatype Subtotal = Subtotal(formattedConvertedAmount: Option<string>)

  datatype Cart = Cart(lineItems: Option<seq<LineItem>>, subtotal: Option<Subtotal>)

  datatype QueryError = QueryError(message: string)

  /** The reactive cart query, taken as a plain snapshot: `data`, `isPending` and `error`. */
  datatype CartQuery = CartQuery(data: Option<Cart>, isPending: bool, error: Option<QueryError>)

  /** `t?.translated` */
  function Translated(t: Option<Translatable>): Option<string> {
    match t
    case None => None
    case Some(x) => x.translated
  }

  /** `cartQuery.data?.lineItems`, with an absent list read as empty. */
  function LineItemsOf(q: CartQuery): seq<LineItem> {
    match q.data
    case None => []
    case Some(cart) => cart.lineItems.GetOr([])
  }

  // ---------------------------------------------------------------------------------------
  // Total quantity and the badge
  // ---------------------------------------------------------------------------------------

  /** `item.quantity || 0` */
  function QuantityOf(item: LineItem): int {
    OrInt(item.quantity, 0)
  }

  /** The `reduce` callback applied left to right, starting from `acc`. */
  function Reduce(acc: int, items: seq<LineItem>): int
    decreases |items|
  {
    if items == [] then acc else Reduce(acc + QuantityOf(items[0]), items[1..])
  }

  /** Reference definition: the sum of the line-item quantities, a missing quantity counting 0. */
  function SumQuantities(items: seq<LineItem>): int
    decreases |items|
  {
    if items == [] then 0 else QuantityOf(items[0]) + SumQuantities(items[1..])
  }

  /** `cartQuery.data?.lineItems?.reduce((acc, item) => acc + (item.quantity || 0), 0) || 0` */
  function TotalQuantity(q: CartQuery): int {
    var reduced: Option<int> :=
      match q.data
      case None => None
      case Some(cart) =>
        match cart.lineItems
        case None => None
        case Some(items) => Some(Reduce(0, items));
    OrInt(reduced, 0)
  }

  /** The left fold computes the sum, whatever the starting value. */
  lemma {:induction false} ReduceIsSum(acc: int, items: seq<LineItem>)
    ensures Reduce(acc, items) == acc + SumQuantities(items)
    decreases |items|
  {
    if items != [] {
      ReduceIsSum(acc + QuantityOf(items[0]), items[1..]);
    }
  }

  /** The total is the sum of the quantities; an absent cart or line-item list gives 0. */
  lemma TotalQuantityIsSum(q: CartQuery)
    ensures TotalQuantity(q) == SumQuantities(LineItemsOf(q))
    ensures LineItemsOf(q) == [] ==> TotalQuantity(q) == 0
  {
    if q.data.Some? && q.data.value.lineItems.Some? {
      ReduceIsSum(0, q.data.value.lineItems.value);
    }
  }

  /** With every quantity present and at least 1, the total is at least the number of items. */
  lemma {:induction false} SumAtLeastItemCount(items: seq<LineItem>)
    requires forall i :: 0 <= i < |items| ==> items[i].quantity.Some? && items[i].quantity.value >= 1
    ensures SumQuantities(items) >= |items|
    decreases |items|
  {
    if items != [] {
      SumAtLeastItemCount(items[1..]);
    }
  }

  /** `totalQuantity < 10 ? totalQuantity : "9+"` as displayed on the cart button. */
  function BadgeText(total: int): string {
    if total < 10 then NumberText(total) else "9+"
  }

  /**
   * The badge shows the exact total below 10 and "9+" from 10 on, so the number it shows is
   * never 10 or more.
   */
  lemma BadgeSaturates(total: int)
    ensures total < 10 ==> BadgeText(total) == NumberText(total)
    ensures total >= 10 ==> BadgeText(total) == "9+"
    ensures forall m: nat :: BadgeText(total) == NatText(m) ==> m == total && m < 10
  {
    BadgeDigitsOnlyBelowTen(total);
    forall m: nat | BadgeText(total) == NatText(m)
      ensures m == total && m < 10
    {
      if 0 <= total < 10 {
        NatTextInjective(m, total);
      }
    }
  }

  /** Outside 0..9 the badge text holds a character that is not a digit ('+' or '-'). */
  lemma BadgeDigitsOnlyBelowTen(total: int)
    ensures AllDigits(BadgeText(total)) ==> 0 <= total < 10
  {
    if total >= 10 {
      assert BadgeText(total)[1] == '+';
    } else if total < 0 {
      assert BadgeText(total)[0] == '-';
    }
  }

  /** `totalQuantity === 1 ? "item" : "items"` */
  function ItemWord(total: int): (w: string)
    ensures w == "item" <==> total == 1
    ensures w == "items" <==> total != 1
  {
    if total == 1 then "item" else "items"
  }

  /** The header count `({totalQuantity} item(s))`. */
  function HeaderCount(total: int): string {
    "(" + NumberText(total) + " " + ItemWord(total) + ")"
  }

  /** The header shows the exact total, unlike the badge: 10 items read "(10 items)". */
  lemma HeaderShowsExactTotal(total: int)
    ensures var h := HeaderCount(total);
      var n := NumberText(total);
      && |n| + 2 <= |h|
      && h[1..|n| + 1] == n
      && h[|n| + 1] == ' '
    ensures HeaderCount(10) == "(10 items)"
  {
  }

  // ---------------------------------------------------------------------------------------
  // One line item
  // ---------------------------------------------------------------------------------------

  /** What `ShoppingCartItem` derives from its line item. */
  datatype ItemView = ItemView(
    href: string,
    imageAlt: string,
    name: string,
    description: Option<string>,
    priceLine: string,
    struckPrice: Option<string>,
    decrementDisabled: bool,
    incrementDisabled: bool,
    limitNotice: bool)

  /** `item.url?.split("/").pop()` */
  function Slug(item: LineItem): (slug: Option<string>)
    ensures slug.None? <==> item.url.None?
    ensures slug.Some? ==> '/' !in slug.value
  {
    match item.url
    case None => None
    case Some(url) => Some(LastSegment(url, '/'))
  }

  /** The slug is the text after the last "/" of the URL. */
  lemma SlugIsLastSegment(url: string)
    ensures var s := LastSegment(url, '/');
      && '/' !in s
      && |s| <= |url|
      && s == url[|url| - |s|..]
      && (s == url || url[|url| - |s| - 1] == '/')
  {
    SplitLast(url, '/');
  }

  /** A URL without "/" is its own slug. */
  lemma SlugWithoutSlash(url: string)
    requires '/' !in url
    ensures LastSegment(url, '/') == url
  {
    SlugIsLastSegment(url);
  }

  /** A URL ending in "/" has the empty slug. */
  lemma SlugAfterTrailingSlash(url: string)
    requires |url| > 0 && url[|url| - 1] == '/'
    ensures LastSegment(url, '/') == ""
  {
    SlugIsLastSegment(url);
  }

  /** `/products/${slug}`: an absent slug is interpolated as "undefined". */
  function ItemHref(item: LineItem): (href: string)
    ensures item.url.Some? ==> href == "/products/" + LastSegment(item.url.value, '/')
    ensures item.url.None? ==> href == "/products/undefined"
  {
    "/products/" + TemplateText(Slug(item))
  }

  /** `!!item.quantity && !!item.availability?.quantityAvailable && item.quantity >= ...` */
  predicate QuantityLimitReached(item: LineItem) {
    var available := match item.availability
      case None => None
      case Some(a) => a.quantityAvailable;
    TruthyInt(item.quantity) && TruthyInt(available) && item.quantity.value >= available.value
  }

  /**
   * The limit is reached exactly when quantity and availability are both present and non-zero
   * and the quantity is at least the availability; no availability never triggers it.
   */
  lemma QuantityLimitRule(item: LineItem)
    ensures QuantityLimitReached(item) <==>
      && item.quantity.Some? && item.quantity.value != 0
      && item.availability.Some? && item.availability.value.quantityAvailable.Some?
      && item.availability.value.quantityAvailable.value != 0
      && item.quantity.value >= item.availability.value.quantityAvailable.value
    ensures item.availability.None? ==> !QuantityLimitReached(item)
    ensures item.availability.Some? && item.availability.value.quantityAvailable in {None, Some(0)}
      ==> !QuantityLimitReached(item)
  {
  }

  /** `line.colorInfo?.translated || line.plainText?.translated`, as `join` renders it. */
  function LineText(line: DescriptionLine): (t: string)
    ensures TruthyString(Translated(line.colorInfo)) ==> t == Translated(line.colorInfo).value
    ensures !TruthyString(Translated(line.colorInfo)) ==> t == Translated(line.plainText).GetOr("")
  {
    // `join` writes an `undefined` element as the empty string
    OrOptString(Translated(line.colorInfo), Translated(line.plainText)).GetOr("")
  }

  function LineTexts(lines: seq<DescriptionLine>): (texts: seq<string>)
    ensures |texts| == |lines|
    ensures forall i :: 0 <= i < |lines| ==> texts[i] == LineText(lines[i])
  {
    seq(|lines|, i requires 0 <= i < |lines| => LineText(lines[i]))
  }

  /** The description paragraph, shown only when there is at least one description line. */
  function Description(item: LineItem): (d: Option<string>)
    ensures d.Some? <==> item.descriptionLines.Some? && |item.descriptionLines.value| > 0
    ensures d.Some? ==> d.value == Join(LineTexts(item.descriptionLines.value), ", ")
  {
    match item.descriptionLines
    case None => None
    case Some(lines) =>
      if |lines| > 0 then Some(Join(LineTexts(lines), ", ")) else None
  }

  /** The description keeps every line text in order with one ", " between neighbours. */
  lemma DescriptionLayout(item: LineItem)
    requires item.descriptionLines.Some? && |item.descriptionLines.value| > 0
    ensures var lines := item.descriptionLines.value;
      var texts := LineTexts(lines);
      && |Description(item).value| == TotalLength(texts) + (|lines| - 1) * 2
      && (|lines| == 1 ==> Description(item).value == texts[0])
      && (|lines| > 1 ==>
            Description(item).value == Join(texts[..|lines| - 1], ", ") + ", " + texts[|lines| - 1])
  {
    var lines := item.descriptionLines.value;
    var texts := LineTexts(lines);
    JoinLength(texts, ", ");
    if |lines| > 1 {
      JoinSnoc(texts[..|lines| - 1], texts[|lines| - 1], ", ");
      assert texts[..|lines| - 1] + [texts[|lines| - 1]] == texts;
    }
  }

  /** A colour line and a plain-text line render as "Red, Cotton". */
  lemma DescriptionExample()
    ensures var item := LineItem(None, None, Some(1), None,
      Some([DescriptionLine(Some(Translatable(Some("Red"))), None),
            DescriptionLine(None, Some(Translatable(Some("Cotton"))))]),
      None, None);
      Description(item) == Some("Red, Cotton")
  {
    var lines := [DescriptionLine(Some(Translatable(Some("Red"))), None),
                  DescriptionLine(None, Some(Translatable(Some("Cotton"))))];
    var item := LineItem(None, None, Some(1), None, Some(lines), None, None);
    assert LineText(lines[0]) == "Red";
    assert LineText(lines[1]) == "Cotton";
    assert LineTexts(lines) == ["Red", "Cotton"];
    assert Description(item) == Some(Join(["Red", "Cotton"], ", "));
    assert ["Red", "Cotton"][1..] == ["Cotton"];
    assert Join(["Red", "Cotton"], ", ") == "Red" + ", " + "Cotton";
    assert "Red" + ", " + "Cotton" == "Red, Cotton";
  }

  /** `item.price?.amount` */
  function PriceAmount(item: LineItem): Option<string> {
    match item.price
    case None => None
    case Some(p) => p.amount
  }

  /** `item.fullPrice && item.fullPrice.amount !== item.price?.amount` */
  predicate ShowsFullPrice(item: LineItem) {
    item.fullPrice.Some? && item.fullPrice.value.amount != PriceAmount(item)
  }

  /** What `ShoppingCartItem` shows for one line item. */
  function RenderItem(item: LineItem): (v: ItemView)
    ensures v.href == ItemHref(item)
    ensures v.description == Description(item)
    ensures v.struckPrice.Some? <==>
      item.fullPrice.Some? && item.fullPrice.value.amount != PriceAmount(item)
    ensures v.struckPrice.Some? ==> v.struckPrice.value == JsxText(item.fullPrice.value.formattedConvertedAmount)
    ensures v.decrementDisabled <==> item.quantity == Some(1)
    ensures v.incrementDisabled <==> QuantityLimitReached(item)
    ensures v.limitNotice <==> v.incrementDisabled
  {
    var price := match item.price case None => None case Some(p) => p.formattedConvertedAmount;
    ItemView(
      href := "/products/" + TemplateText(Slug(item)),
      imageAlt := OrString(Translated(item.productName), "Product image"),
      name := OrString(Translated(item.productName), "Item"),
      description := Description(item),
      priceLine := JsxNumber(item.quantity) + " * " + JsxText(price),
      struckPrice := if ShowsFullPrice(item)
        then Some(JsxText(item.fullPrice.value.formattedConvertedAmount)) else None,
      decrementDisabled := item.quantity == Some(1),
      incrementDisabled := QuantityLimitReached(item),
      limitNotice := QuantityLimitReached(item))
  }

  /** The "-" button depends on the quantity alone: availability never changes it. */
  lemma DecrementIndependentOfAvailability(item: LineItem, availability: Option<Availability>)
    ensures RenderItem(item).decrementDisabled == RenderItem(item.(availability := availability)).decrementDisabled
    ensures item.quantity == Some(1) ==> RenderItem(item.(availability := availability)).decrementDisabled
  {
  }

  /** Quantity equal to a known, non-zero availability disables "+" and shows the notice. */
  lemma LimitAtAvailability(item: LineItem)
    requires item.quantity.Some? && item.quantity.value != 0
    requires item.availability == Some(Availability(item.quantity))
    ensures RenderItem(item).incrementDisabled && RenderItem(item).limitNotice
  {
  }

  /** Equal amounts show no struck-through price, whatever the formatted strings say. */
  lemma SameAmountNoStrike(item: LineItem)
    requires item.fullPrice.Some? && item.price.Some?
    requires item.fullPrice.value.amount == item.price.value.amount
    ensures RenderItem(item).struckPrice.None?
  {
  }

  // ---------------------------------------------------------------------------------------
  // The panel
  // ---------------------------------------------------------------------------------------

  /** What `ShoppingCartButton` derives from the cart query. */
  datatype CartPanel = CartPanel(
    badge: string,
    header: string,
    items: seq<ItemView>,
    spinner: bool,
    errorText: Option<string>,
    emptyState: bool,
    subtotal: string)

  function RenderItems(items: seq<LineItem>): (views: seq<ItemView>)
    ensures |views| == |items|
    ensures forall i :: 0 <= i < |items| ==> views[i] == RenderItem(items[i])
  {
    seq(|items|, i requires 0 <= i < |items| => RenderItem(items[i]))
  }

  /** `cartQuery.data?.lineItems?.length`, truthy when non-zero. */
  predicate HasLineItemCount(q: CartQuery) {
    var count: Option<int> :=
      match q.data
      case None => None
      case Some(cart) =>
        match cart.lineItems
        case None => None
        case Some(items) => Some(|items|);
    TruthyInt(count)
  }

  function RenderCart(q: CartQuery): (p: CartPanel)
    ensures p.badge == BadgeText(TotalQuantity(q))
    ensures p.header == HeaderCount(TotalQuantity(q))
    ensures |p.items| == |LineItemsOf(q)|
    ensures forall i :: 0 <= i < |p.items| ==> p.items[i] == RenderItem(LineItemsOf(q)[i])
    ensures p.spinner <==> q.isPending
    ensures p.errorText.Some? <==> q.error.Some?
    ensures q.error.Some? ==> p.errorText == Some(q.error.value.message)
    ensures p.emptyState <==> !q.isPending && |LineItemsOf(q)| == 0
  {
    var total := TotalQuantity(q);
    var rendered := match q.data
      case None => []
      case Some(cart) => match cart.lineItems case None => [] case Some(items) => RenderItems(items);
    var subtotal := match q.data
      case None => None
      case Some(cart) => match cart.subtotal case None => None case Some(s) => s.formattedConvertedAmount;
    CartPanel(
      badge := BadgeText(total),
      header := HeaderCount(total),
      items := rendered,
      spinner := q.isPending,
      errorText := match q.error case None => None case Some(e) => Some(e.message),
      emptyState := !q.isPending && !HasLineItemCount(q),
      subtotal := JsxText(subtotal))
  }

  /** The empty state and a non-empty item list never show together. */
  lemma EmptyStateExcludesItems(q: CartQuery)
    ensures !(RenderCart(q).emptyState && |RenderCart(q).items| > 0)
  {
  }

  /**
   * The empty state ignores the error: a failed query that is not pending and has no line
   * items shows both the error text and the empty state, and changing the error never changes
   * whether the empty state shows.
   */
  lemma ErrorAndEmptyStateTogether(q: CartQuery, e: Option<QueryError>)
    ensures q.error.Some? && !q.isPending && LineItemsOf(q) == [] ==>
      RenderCart(q).emptyState && RenderCart(q).errorText == Some(q.error.value.message)
    ensures RenderCart(q).emptyState == RenderCart(q.(error := e)).emptyState
  {
  }

  /** While the query is pending the empty state is hidden, even with no items. */
  lemma PendingHidesEmptyState(q: CartQuery)
    requires q.isPending
    ensures !RenderCart(q).emptyState && RenderCart(q).spinner
  {
  }
}
