/**
 * The home-page product grid (src/components/ProductList.jsx): which products are
 * listed, when a card's buttons are disabled, and the discount badge.
 */
module ProductList {
  import opened Wrappers
  import opened JsValue
  import opened Seqs
  import CartView
  import Catalogue

  /** The products that are not excluded, or none when the list is not an array. */
  function Listed(products: Value): (r: seq<Value>)
    ensures !products.Arr? ==> r == []
    ensures products.Arr? ==> Subseq(r, products.elems)
    ensures products.Arr? ==> forall p :: p in r <==> p in products.elems && !CartView.Excluded(p)
  {
    if products.Arr? then Catalogue.Unexcluded(products.elems) else []
  }

  /** `product.stock === 0` */
  predicate OutOfStock(p: Value) { StrictEq(Get(p, "stock"), Num(0.0)) }

  datatype Card = Card(addDisabled: bool, wishlistDisabled: bool, badge: Option<Value>)

  /** What a card shows, apart from its text and images. */
  function CardOf(p: Value): (c: Card)
    ensures c.addDisabled <==> Get(p, "stock") == Num(0.0)
    ensures c.wishlistDisabled == c.addDisabled
    ensures c.badge.Some? <==> Truthy(Get(p, "originalPrice")) && Gt(Get(p, "originalPrice"), Get(p, "price"))
  {
    var out := OutOfStock(p);
    Card(out, out, DiscountBadge(Get(p, "price"), Get(p, "originalPrice")))
  }

  /**
   * `product.originalPrice && product.originalPrice > product.price` shows
   * `Math.round((originalPrice - price) / originalPrice * 100)`.
   */
  function DiscountBadge(price: Value, originalPrice: Value): (r: Option<Value>)
    ensures r.Some? <==> Truthy(originalPrice) && Gt(originalPrice, price)
    ensures r.Some? ==> r.value.Num? || r.value.NaN?
  {
    if Truthy(originalPrice) && Gt(originalPrice, price) then
      var pct := Mul(Div(Sub(originalPrice, price), originalPrice), Num(100.0));
      Some(if pct.Num? then Num(Round(pct.n)) else NaN)
    else None
  }

  /**
   * On numeric prices the badge is shown exactly when the listing page's
   * `calculateDiscount` is not null, and shows the same number.
   */
  lemma BadgeAgreesWithListingDiscount(price: real, originalPrice: real)
    ensures var b := DiscountBadge(Num(price), Num(originalPrice));
      var d := Catalogue.CalculateDiscount(Num(price), Num(originalPrice));
      (b.Some? <==> !d.Null?) && (b.Some? ==> b.value == d)
  {
    NumericComparisons(originalPrice, price);
  }

  /** A badge on a non-negative price shows a whole percentage between 0 and 100. */
  lemma BadgeIsPercentage(price: real, originalPrice: real)
    requires 0.0 <= price
    requires DiscountBadge(Num(price), Num(originalPrice)).Some?
    ensures var b := DiscountBadge(Num(price), Num(originalPrice)).value;
      b.Num? && 0.0 <= b.n <= 100.0
  {
    NumericComparisons(originalPrice, price);
    BadgeAgreesWithListingDiscount(price, originalPrice);
    Catalogue.DiscountIsPercentage(price, originalPrice);
  }
}
