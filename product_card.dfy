/**
 * The product listing card: the `Product` component and its `getFormattedPrice` helper.
 * Prices in a range are numbers; they are reals here, so the `NaN` a JavaScript number may
 * hold does not exist in this model.
 */
module ProductCard {
  import opened Wrappers
  import opened JsValues

  // ---------------------------------------------------------------------------------------
  // The fields of the catalog product that the card reads
  // ---------------------------------------------------------------------------------------

  datatype PriceRange = PriceRange(minValue: Option<real>, maxValue: Option<real>)

  datatype FormattedPrices = FormattedPrices(price: Option<string>, discountedPrice: Option<string>)

  datatype PriceData = PriceData(currency: Option<string>, formatted: Option<FormattedPrices>)

  /** The discount descriptor is handed to the discount badge unread. */
  datatype Discount = Discount(kind: Option<string>, value: Option<real>)

  datatype Product = Product(
    slug: Option<string>,
    name: Option<string>,
    description: Option<string>,
    ribbon: Option<string>,
    discount: Option<Discount>,
    priceRange: Option<PriceRange>,
    priceData: Option<PriceData>)

  /** The currency formatter the card calls; its behaviour is not part of this model. */
  type CurrencyFormatter = (real, Option<string>) -> string

  // ---------------------------------------------------------------------------------------
  // getFormattedPrice
  // ---------------------------------------------------------------------------------------

  /** `product.priceRange?.minValue` */
  function MinPrice(p: Product): Option<real> {
    match p.priceRange
    case None => None
    case Some(r) => r.minValue
  }

  /** `product.priceRange?.maxValue` */
  function MaxPrice(p: Product): Option<real> {
    match p.priceRange
    case None => None
    case Some(r) => r.maxValue
  }

  function Currency(p: Product): Option<string> {
    match p.priceData
    case None => None
    case Some(d) => d.currency
  }

  /** `product.priceData?.formatted?.discountedPrice` */
  function DiscountedText(p: Product): Option<string> {
    match p.priceData
    case None => None
    case Some(d) => match d.formatted case None => None case Some(f) => f.discountedPrice
  }

  /** `product.priceData?.formatted?.price` */
  function PriceText(p: Product): Option<string> {
    match p.priceData
    case None => None
    case Some(d) => match d.formatted case None => None case Some(f) => f.price
  }

  /** `minPrice && maxPrice !== maxPrice`: the guard of the price-range branch, as written. */
  predicate RangeGuard(minPrice: Option<real>, maxPrice: Option<real>) {
    TruthyReal(minPrice) && maxPrice != maxPrice
  }

  /** `discountedPrice || price || "n/a"`: the fallback chain. */
  function FallbackPrice(p: Product): (s: string)
    ensures TruthyString(DiscountedText(p)) ==> s == DiscountedText(p).value
    ensures !TruthyString(DiscountedText(p)) && TruthyString(PriceText(p)) ==> s == PriceText(p).value
    ensures !TruthyString(DiscountedText(p)) && !TruthyString(PriceText(p)) ==> s == "n/a"
  {
    OrString(DiscountedText(p), OrString(PriceText(p), "n/a"))
  }

  /** `getFormattedPrice(product)`, with `formatCurrency` passed in. */
  function GetFormattedPrice(p: Product, formatCurrency: CurrencyFormatter): string {
    if RangeGuard(MinPrice(p), MaxPrice(p))
    then "from " + formatCurrency(MinPrice(p).GetOr(0.0), Currency(p))
    else FallbackPrice(p)
  }

  /** The range branch also needs a present, non-zero minimum price. */
  lemma RangeGuardNeedsMinPrice(minPrice: Option<real>, maxPrice: Option<real>)
    ensures RangeGuard(minPrice, maxPrice) ==> minPrice.Some? && minPrice.value != 0.0
  {
  }

  /**
   * `maxPrice !== maxPrice` holds for no number other than `NaN`, so the range branch is dead:
   * every product, ranged or not, shows the fallback chain, whatever the formatter does.
   */
  lemma RangeBranchUnreachable(p: Product, formatCurrency: CurrencyFormatter)
    ensures !RangeGuard(MinPrice(p), MaxPrice(p))
    ensures GetFormattedPrice(p, formatCurrency) == FallbackPrice(p)
  {
  }

  /** A product priced 5 to 10 still shows its fallback price, not "from ...". */
  lemma RangedProductShowsFallback(formatCurrency: CurrencyFormatter)
    ensures var p := Product(None, None, None, None, None,
      Some(PriceRange(Some(5.0), Some(10.0))),
      Some(PriceData(Some("EUR"), Some(FormattedPrices(Some("5,00 €"), None)))));
      GetFormattedPrice(p, formatCurrency) == "5,00 €"
  {
  }

  /** The displayed price is never empty: it is a non-empty formatted price or "n/a". */
  lemma FormattedPriceShape(p: Product, formatCurrency: CurrencyFormatter)
    ensures var s := GetFormattedPrice(p, formatCurrency);
      && s != ""
      && (s == "n/a" || Some(s) == DiscountedText(p) || Some(s) == PriceText(p))
  {
    RangeBranchUnreachable(p, formatCurrency);
  }

  /** Matching a prefix: used to state that no "from ..." text is produced by the card itself. */
  predicate StartsWith(s: string, prefix: string) {
    |prefix| <= |s| && s[..|prefix|] == prefix
  }

  /** The card never writes "from " itself; only a formatted price that starts so shows it. */
  lemma NoFromPrefix(p: Product, formatCurrency: CurrencyFormatter)
    requires DiscountedText(p).Some? ==> !StartsWith(DiscountedText(p).value, "from ")
    requires PriceText(p).Some? ==> !StartsWith(PriceText(p).value, "from ")
    ensures !StartsWith(GetFormattedPrice(p, formatCurrency), "from ")
  {
    FormattedPriceShape(p, formatCurrency);
    assert !StartsWith("n/a", "from ");
  }

  // ---------------------------------------------------------------------------------------
  // The card
  // ---------------------------------------------------------------------------------------

  datatype Badge = RibbonBadge(text: string) | DiscountBadge(discount: Discount) | PriceBadge(text: string)

  /** The badges, in the order the card lays them out. */
  function Badges(p: Product, formatCurrency: CurrencyFormatter): (bs: seq<Badge>)
    ensures 1 <= |bs| <= 3
    ensures bs[|bs| - 1] == PriceBadge(GetFormattedPrice(p, formatCurrency))
    ensures forall i :: 0 <= i < |bs| - 1 ==> !bs[i].PriceBadge?
    ensures |bs| == 1 + (if TruthyString(p.ribbon) then 1 else 0) + (if p.discount.Some? then 1 else 0)
    ensures TruthyString(p.ribbon) <==> bs[0].RibbonBadge?
    ensures TruthyString(p.ribbon) ==> bs[0] == RibbonBadge(p.ribbon.value)
    ensures forall i :: 0 < i < |bs| ==> !bs[i].RibbonBadge?
    ensures p.discount.Some? ==> bs[|bs| - 2] == DiscountBadge(p.discount.value)
    ensures p.discount.None? ==> forall i :: 0 <= i < |bs| ==> !bs[i].DiscountBadge?
  {
    (if TruthyString(p.ribbon) then [RibbonBadge(p.ribbon.value)] else [])
    + (if p.discount.Some? then [DiscountBadge(p.discount.value)] else [])
    + [PriceBadge(GetFormattedPrice(p, formatCurrency))]
  }

  datatype CardView = CardView(href: string, badges: seq<Badge>, name: string, descriptionHtml: string)

  function RenderProduct(p: Product, formatCurrency: CurrencyFormatter): (v: CardView)
    ensures p.slug.Some? ==> v.href == "/products/" + p.slug.value
    ensures p.slug.None? ==> v.href == "/products/undefined"
    ensures v.badges == Badges(p, formatCurrency)
    ensures v.descriptionHtml == p.description.GetOr("")
  {
    CardView(
      href := "/products/" + TemplateText(p.slug),
      badges := Badges(p, formatCurrency),
      name := JsxText(p.name),
      descriptionHtml := OrString(p.description, ""))
  }
}
