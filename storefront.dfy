/**
 * The storefront's shared state: the cart, the wishlist, the product list with
 * each product's wishlist flag, and the applied coupon's discount, with the
 * handlers that replace them and the totals derived from them.  Prices and
 * quantities are whole numbers (rupees and units).
 */
module Storefront {
  import opened Wrappers
  import opened Text
  import opened JsValue
  import opened Firestore
  import opened Seqs

  /** The product fields the cart and wishlist handlers read or write. */
  datatype Product = Product(id: string, price: int, stock: Value, isWishlisted: bool)

  /** `{ ...product, quantity }` */
  datatype CartItem = CartItem(product: Product, quantity: int)

  predicate InCart(cart: seq<CartItem>, id: string) {
    exists i :: 0 <= i < |cart| && cart[i].product.id == id
  }

  /** No two cart lines for the same product: what the handlers keep. */
  predicate DistinctItems(cart: seq<CartItem>) {
    forall i, j :: 0 <= i < j < |cart| ==> cart[i].product.id != cart[j].product.id
  }

  // ---------------------------------------------------------------- cart

  /** `prev.map(item => item.id === id ? { ...item, quantity: f(item) } : item)` with `f` adding one. */
  function Incremented(cart: seq<CartItem>, id: string): (r: seq<CartItem>)
    ensures |r| == |cart|
    ensures forall i :: 0 <= i < |cart| ==>
      r[i] == (if cart[i].product.id == id then CartItem(cart[i].product, cart[i].quantity + 1) else cart[i])
  {
    if cart == [] then []
    else
      var item := cart[0];
      [if item.product.id == id then CartItem(item.product, item.quantity + 1) else item] + Incremented(cart[1..], id)
  }

  /** `addToCart`: one more of a product already in the cart, or the product appended with quantity 1. */
  function AddedToCart(cart: seq<CartItem>, p: Product): (r: seq<CartItem>)
    ensures |r| == if InCart(cart, p.id) then |cart| else |cart| + 1
    ensures forall i :: 0 <= i < |cart| ==>
      r[i].product == cart[i].product && r[i].quantity == cart[i].quantity + (if cart[i].product.id == p.id then 1 else 0)
    ensures !InCart(cart, p.id) ==> r[|cart|] == CartItem(p, 1)
    ensures InCart(r, p.id)
  {
    if InCart(cart, p.id) then Incremented(cart, p.id)
    else
      var r := cart + [CartItem(p, 1)];
      assert r[|cart|].product.id == p.id;
      r
  }

  /** The cart with the quantity of the product with the given id set. */
  function WithQuantity(cart: seq<CartItem>, id: string, newQty: int): (r: seq<CartItem>)
    ensures |r| == |cart|
    ensures forall i :: 0 <= i < |cart| ==>
      r[i] == (if cart[i].product.id == id then CartItem(cart[i].product, newQty) else cart[i])
  {
    if cart == [] then []
    else
      var item := cart[0];
      [if item.product.id == id then CartItem(item.product, newQty) else item] + WithQuantity(cart[1..], id, newQty)
  }

  function NotProduct(id: string): CartItem -> bool {
    (item: CartItem) => item.product.id != id
  }

  /** `removeFromCart`: every line of the product dropped, the others kept in order. */
  function RemovedFromCart(cart: seq<CartItem>, id: string): (r: seq<CartItem>)
    ensures forall x :: x in r <==> x in cart && x.product.id != id
    ensures !InCart(r, id)
    ensures Subseq(r, cart)
    ensures !InCart(cart, id) ==> r == cart
  {
    var r := Filter(cart, NotProduct(id));
    assert forall i :: 0 <= i < |r| ==> r[i] in r;
    assert !InCart(cart, id) ==> forall i :: 0 <= i < |cart| ==> NotProduct(id)(cart[i]);
    r
  }

  /** `updateCartQuantity`: a quantity of zero or less removes the product, any other sets it. */
  function UpdatedQuantity(cart: seq<CartItem>, id: string, newQty: int): (r: seq<CartItem>)
    ensures newQty <= 0 ==> r == RemovedFromCart(cart, id)
    ensures newQty > 0 ==> |r| == |cart| && forall i :: 0 <= i < |cart| ==>
      r[i].product == cart[i].product && r[i].quantity == (if cart[i].product.id == id then newQty else cart[i].quantity)
  {
    if newQty <= 0 then RemovedFromCart(cart, id) else WithQuantity(cart, id, newQty)
  }

  function Quantity(item: CartItem): int { item.quantity }

  function LineTotal(item: CartItem): int { item.product.price * item.quantity }

  /** `cartCount`: the sum of the quantities. */
  function CartCount(cart: seq<CartItem>): int {
    SumOf(cart, Quantity)
  }

  /** `subtotal`: the sum of price times quantity. */
  function Subtotal(cart: seq<CartItem>): int {
    SumOf(cart, LineTotal)
  }

  /** Adding a product to a cart with one line per product adds exactly one unit to the count. */
  lemma {:induction false} AddToCartCountsOne(cart: seq<CartItem>, p: Product)
    requires DistinctItems(cart)
    ensures CartCount(AddedToCart(cart, p)) == CartCount(cart) + 1
  {
    if InCart(cart, p.id) {
      IncrementedCount(cart, p.id);
    } else {
      SumOfAppend(cart, [CartItem(p, 1)], Quantity);
    }
  }

  lemma {:induction false} IncrementedCount(cart: seq<CartItem>, id: string)
    requires DistinctItems(cart) && InCart(cart, id)
    ensures CartCount(Incremented(cart, id)) == CartCount(cart) + 1
  {
    var r := Incremented(cart, id);
    assert r[1..] == Incremented(cart[1..], id);
    if cart[0].product.id == id {
      assert !InCart(cart[1..], id);
      IncrementedAbsent(cart[1..], id);
    } else {
      assert InCart(cart[1..], id) by {
        var i :| 0 <= i < |cart| && cart[i].product.id == id;
        assert cart[1..][i - 1].product.id == id;
      }
      IncrementedCount(cart[1..], id);
    }
  }

  lemma IncrementedAbsent(cart: seq<CartItem>, id: string)
    requires !InCart(cart, id)
    ensures Incremented(cart, id) == cart
  {
  }

  lemma {:induction false} IncrementedSubtotal(cart: seq<CartItem>, id: string, price: int)
    requires DistinctItems(cart) && InCart(cart, id)
    requires forall i :: 0 <= i < |cart| && cart[i].product.id == id ==> cart[i].product.price == price
    ensures Subtotal(Incremented(cart, id)) == Subtotal(cart) + price
  {
    var r := Incremented(cart, id);
    assert r[1..] == Incremented(cart[1..], id);
    if cart[0].product.id == id {
      assert !InCart(cart[1..], id);
      IncrementedAbsent(cart[1..], id);
      var item := cart[0];
      assert LineTotal(r[0]) == item.product.price * (item.quantity + 1);
      assert item.product.price * (item.quantity + 1) == LineTotal(item) + price;
    } else {
      assert InCart(cart[1..], id) by {
        var i :| 0 <= i < |cart| && cart[i].product.id == id;
        assert cart[1..][i - 1].product.id == id;
      }
      assert forall i :: 0 <= i < |cart[1..]| ==> cart[1..][i] == cart[i + 1];
      IncrementedSubtotal(cart[1..], id, price);
    }
  }

  /**
   * Adding a product to a cart with one line per product, whose line for it
   * (if any) carries the same price, raises the subtotal by that price.
   */
  lemma AddToCartAddsPrice(cart: seq<CartItem>, p: Product)
    requires DistinctItems(cart)
    requires forall i :: 0 <= i < |cart| && cart[i].product.id == p.id ==> cart[i].product.price == p.price
    ensures Subtotal(AddedToCart(cart, p)) == Subtotal(cart) + p.price
  {
    if InCart(cart, p.id) {
      IncrementedSubtotal(cart, p.id, p.price);
    } else {
      SumOfAppend(cart, [CartItem(p, 1)], LineTotal);
    }
  }

  /** Adding and updating keep one line per product. */
  lemma CartHandlersKeepDistinct(cart: seq<CartItem>, p: Product, id: string, newQty: int)
    requires DistinctItems(cart)
    ensures DistinctItems(AddedToCart(cart, p))
    ensures DistinctItems(UpdatedQuantity(cart, id, newQty))
  {
    var added := AddedToCart(cart, p);
    assert forall i :: 0 <= i < |cart| ==> added[i].product.id == cart[i].product.id;
    var updated := UpdatedQuantity(cart, id, newQty);
    if newQty <= 0 {
      DistinctSubseq(updated, cart);
    } else {
      assert forall i :: 0 <= i < |cart| ==> updated[i].product.id == cart[i].product.id;
    }
  }

  lemma {:induction false} DistinctSubseq(a: seq<CartItem>, b: seq<CartItem>)
    requires Subseq(a, b) && DistinctItems(b)
    ensures DistinctItems(a)
    decreases |b|
  {
    if a != [] {
      assert DistinctItems(b[1..]) by {
        forall i, j | 0 <= i < j < |b| - 1 ensures b[1..][i].product.id != b[1..][j].product.id {
          assert b[1..][i] == b[i + 1] && b[1..][j] == b[j + 1];
        }
      }
      if a[0] == b[0] && Subseq(a[1..], b[1..]) {
        DistinctSubseq(a[1..], b[1..]);
        SubseqMembers(a[1..], b[1..]);
        forall j | 0 < j < |a| ensures a[0].product.id != a[j].product.id {
          assert a[j] == a[1..][j - 1];
          assert a[j] in b[1..];
          var k :| 0 <= k < |b[1..]| && b[1..][k] == a[j];
          assert b[k + 1] == a[j];
        }
      } else {
        DistinctSubseq(a, b[1..]);
      }
    }
  }

  /** `Math.max(subtotal - discount, 0)`: never negative, and NaN when the discount is not a number. */
  function DiscountedTotal(subtotal: int, discount: Value): (r: Value)
    ensures r.Num? ==> r.n >= 0.0
    ensures r.NaN? <==> ToNumber(discount).NaN?
    ensures discount.Num? ==> r == Num(if subtotal as real - discount.n >= 0.0 then subtotal as real - discount.n else 0.0)
  {
    Max(Sub(Num(subtotal as real), discount), Num(0.0))
  }

  // ---------------------------------------------------------------- wishlist and product flags

  predicate InWishlist(wishlist: seq<Product>, id: string) {
    exists i :: 0 <= i < |wishlist| && wishlist[i].id == id
  }

  function NotId(id: string): Product -> bool {
    (p: Product) => p.id != id
  }

  /** The wishlist after `handleWishlistToggle`: the product removed when listed, else appended and flagged. */
  function ToggledWishlist(wishlist: seq<Product>, p: Product): (r: seq<Product>)
    ensures InWishlist(r, p.id) <==> !InWishlist(wishlist, p.id)
    ensures forall id :: id != p.id ==> (InWishlist(r, id) <==> InWishlist(wishlist, id))
    ensures !InWishlist(wishlist, p.id) ==> r == wishlist + [p.(isWishlisted := true)]
    ensures InWishlist(wishlist, p.id) ==> Subseq(r, wishlist)
  {
    if InWishlist(wishlist, p.id) then
      var r := Filter(wishlist, NotId(p.id));
      assert forall i :: 0 <= i < |r| ==> r[i] in r;
      forall id | id != p.id && InWishlist(wishlist, id) ensures InWishlist(r, id) {
        var i :| 0 <= i < |wishlist| && wishlist[i].id == id;
        assert wishlist[i] in r;
      }
      r
    else
      var r := wishlist + [p.(isWishlisted := true)];
      assert r[|wishlist|].id == p.id;
      assert forall i :: 0 <= i < |wishlist| ==> r[i] == wishlist[i];
      r
  }

  /** The product list with the wishlist flag of the product with the given id flipped. */
  function FlagToggled(products: seq<Product>, id: string): (r: seq<Product>)
    ensures |r| == |products|
    ensures forall i :: 0 <= i < |products| ==>
      r[i] == (if products[i].id == id then products[i].(isWishlisted := !products[i].isWishlisted) else products[i])
  {
    if products == [] then []
    else
      var p := products[0];
      [if p.id == id then p.(isWishlisted := !p.isWishlisted) else p] + FlagToggled(products[1..], id)
  }

  /** Toggling a product twice restores wishlist membership of every product and every flag. */
  lemma ToggleTwiceRestores(wishlist: seq<Product>, products: seq<Product>, p: Product)
    ensures forall id :: InWishlist(ToggledWishlist(ToggledWishlist(wishlist, p), p), id) <==> InWishlist(wishlist, id)
    ensures FlagToggled(FlagToggled(products, p.id), p.id) == products
    ensures !InWishlist(wishlist, p.id) ==> ToggledWishlist(ToggledWishlist(wishlist, p), p) == wishlist
  {
    var once := ToggledWishlist(wishlist, p);
    if !InWishlist(wishlist, p.id) {
      var twice := ToggledWishlist(once, p);
      assert twice == Filter(once, NotId(p.id));
      FilterAppendDropped(wishlist, p.(isWishlisted := true), NotId(p.id));
      assert forall i :: 0 <= i < |wishlist| ==> NotId(p.id)(wishlist[i]);
    }
  }

  lemma {:induction false} FilterAppendDropped(s: seq<Product>, x: Product, keep: Product -> bool)
    requires !keep(x)
    ensures Filter(s + [x], keep) == Filter(s, keep)
  {
    if s == [] {
      assert [x][1..] == [];
    } else {
      assert (s + [x])[1..] == s[1..] + [x];
      FilterAppendDropped(s[1..], x, keep);
    }
  }

  // ---------------------------------------------------------------- coupons

  /** What applying a coupon leaves in `discount` and `couponError`. */
  datatype CouponState = CouponState(discount: Value, error: string)

  const InvalidCoupon: string := "Invalid or expired coupon."
  const ExpiredCoupon: string := "Coupon expired."

  /** The coupons the lookup finds: the exact trimmed, upper-cased code, with `active` set to true. */
  function CouponMatches(coupons: seq<Doc>, code: string): (r: seq<Doc>)
    ensures forall d :: d in r <==> d in coupons && "code" in d.data && d.data["code"] == Str(ToUpper(Trim(code))) &&
                                    "active" in d.data && d.data["active"] == Bool(true)
  {
    Where(Where(coupons, "code", Str(ToUpper(Trim(code)))), "active", Bool(true))
  }

  /**
   * The lookup with the flag the coupon schema and the admin page use, `isActive`,
   * in place of `active`.
   */
  function CouponMatchesIntended(coupons: seq<Doc>, code: string): (r: seq<Doc>)
    ensures forall d :: d in r <==> d in coupons && "code" in d.data && d.data["code"] == Str(ToUpper(Trim(code))) &&
                                    "isActive" in d.data && d.data["isActive"] == Bool(true)
  {
    Where(Where(coupons, "code", Str(ToUpper(Trim(code)))), "isActive", Bool(true))
  }

  /**
   * `fetchAndApplyCoupon(code, currentSubtotal)` against the stored coupons at
   * time `now`: no code leaves no discount; no match and a past expiry are
   * errors; a `percent` coupon takes its share of the subtotal and any other
   * type its value. An expiry that is not a timestamp makes `toDate` throw,
   * with the discount already reset.
   */
  function AppliedCoupon(code: string, currentSubtotal: int, coupons: seq<Doc>, now: int): (r: CouponState)
    ensures code == "" ==> r == CouponState(Num(0.0), "")
    ensures code != "" && CouponMatches(coupons, code) == [] ==> r == CouponState(Num(0.0), InvalidCoupon)
    ensures r.error == "" || r.discount == Num(0.0)
    ensures r.error != "" ==> r.error == InvalidCoupon || r.error == ExpiredCoupon
    ensures code != "" && CouponMatches(coupons, code) != [] ==>
      var data := Obj(CouponMatches(coupons, code)[0].data);
      var expiry := Get(data, "expiry");
      (expiry.Stamp? && expiry.millis < now ==> r == CouponState(Num(0.0), ExpiredCoupon)) &&
      (!Truthy(expiry) || (expiry.Stamp? && expiry.millis >= now) ==>
        r.error == "" &&
        r.discount == (if StrictEq(Get(data, "discountType"), Str("percent"))
                       then Div(Mul(Num(currentSubtotal as real), Get(data, "discountValue")), Num(100.0))
                       else Get(data, "discountValue")))
  {
    if code == "" then CouponState(Num(0.0), "")
    else FoundCoupon(CouponMatches(coupons, code), currentSubtotal, now)
  }

  /** The outcome for the coupons a non-empty code found. */
  function FoundCoupon(found: seq<Doc>, currentSubtotal: int, now: int): (r: CouponState)
    ensures found == [] ==> r == CouponState(Num(0.0), InvalidCoupon)
    ensures r.error == "" || r.discount == Num(0.0)
    ensures r.error != "" ==> r.error == InvalidCoupon || r.error == ExpiredCoupon
    ensures found != [] ==>
      var data := Obj(found[0].data);
      var expiry := Get(data, "expiry");
      (expiry.Stamp? && expiry.millis < now ==> r == CouponState(Num(0.0), ExpiredCoupon)) &&
      (!Truthy(expiry) || (expiry.Stamp? && expiry.millis >= now) ==>
        r.error == "" &&
        r.discount == (if StrictEq(Get(data, "discountType"), Str("percent"))
                       then Div(Mul(Num(currentSubtotal as real), Get(data, "discountValue")), Num(100.0))
                       else Get(data, "discountValue")))
  {
    if found == [] then CouponState(Num(0.0), InvalidCoupon)
    else
      var data := Obj(found[0].data);
      var expiry := Get(data, "expiry");
      if Truthy(expiry) && !expiry.Stamp? then CouponState(Num(0.0), "")
      else if Truthy(expiry) && expiry.millis < now then CouponState(Num(0.0), ExpiredCoupon)
      else if StrictEq(Get(data, "discountType"), Str("percent")) then
        CouponState(Div(Mul(Num(currentSubtotal as real), Get(data, "discountValue")), Num(100.0)), "")
      else CouponState(Get(data, "discountValue"), "")
  }

  /**
   * The coupon collection's two schemas disagree: a coupon stored without an
   * `active` field (the admin form writes `isActive`) is never found.
   */
  lemma CouponWithoutActiveFlagNeverFound(code: string, currentSubtotal: int, coupons: seq<Doc>, now: int)
    requires code != ""
    requires forall d :: d in coupons ==> "active" !in d.data
    ensures AppliedCoupon(code, currentSubtotal, coupons, now) == CouponState(Num(0.0), InvalidCoupon)
  {
    var found := CouponMatches(coupons, code);
    assert forall i :: 0 <= i < |found| ==> found[i] in found;
  }

  /** A `percentage` coupon, as the admin form writes it, is taken as a fixed amount off. */
  lemma PercentageCouponTakenAsAmount(code: string, currentSubtotal: int, coupons: seq<Doc>, now: int, value: real)
    requires code != "" && CouponMatches(coupons, code) != []
    requires var data := CouponMatches(coupons, code)[0].data;
      "expiry" !in data && "discountType" in data && data["discountType"] == Str("percentage") &&
      "discountValue" in data && data["discountValue"] == Num(value)
    ensures AppliedCoupon(code, currentSubtotal, coupons, now) == CouponState(Num(value), "")
  {
  }

  // ---------------------------------------------------------------- the state

  class Store {
    var cartItems: seq<CartItem>
    var wishlistItems: seq<Product>
    var products: seq<Product>
    var coupon: string
    var discount: Value
    var couponError: string

    ghost predicate Valid()
      reads this
    {
      DistinctItems(cartItems)
    }

    constructor ()
      ensures Valid()
      ensures cartItems == [] && wishlistItems == [] && products == []
      ensures coupon == "" && discount == Num(0.0) && couponError == ""
    {
      cartItems := [];
      wishlistItems := [];
      products := [];
      coupon := "";
      discount := Num(0.0);
      couponError := "";
    }

    /** `subtotal` */
    function SubtotalNow(): int
      reads this
    {
      Subtotal(cartItems)
    }

    /** `discountedTotal`: never negative. */
    function DiscountedTotalNow(): (r: Value)
      reads this
      ensures r.Num? ==> r.n >= 0.0
    {
      DiscountedTotal(Subtotal(cartItems), discount)
    }

    /** `cartCount` */
    function CartCountNow(): int
      reads this
    {
      CartCount(cartItems)
    }

    method AddToCart(p: Product)
      requires Valid()
      modifies this
      ensures Valid()
      ensures cartItems == AddedToCart(old(cartItems), p)
      ensures CartCountNow() == old(CartCountNow()) + 1
      ensures wishlistItems == old(wishlistItems) && products == old(products)
      ensures coupon == old(coupon) && discount == old(discount) && couponError == old(couponError)
    {
      CartHandlersKeepDistinct(cartItems, p, p.id, 1);
      AddToCartCountsOne(cartItems, p);
      cartItems := AddedToCart(cartItems, p);
    }

    method UpdateCartQuantity(id: string, newQty: int)
      requires Valid()
      modifies this
      ensures Valid()
      ensures cartItems == UpdatedQuantity(old(cartItems), id, newQty)
      ensures wishlistItems == old(wishlistItems) && products == old(products)
      ensures coupon == old(coupon) && discount == old(discount) && couponError == old(couponError)
    {
      CartHandlersKeepDistinct(cartItems, Product(id, 0, Undefined, false), id, newQty);
      if newQty <= 0 {
        cartItems := RemovedFromCart(cartItems, id);
      } else {
        cartItems := WithQuantity(cartItems, id, newQty);
      }
    }

    method RemoveFromCart(id: string)
      requires Valid()
      modifies this
      ensures Valid()
      ensures cartItems == RemovedFromCart(old(cartItems), id)
      ensures wishlistItems == old(wishlistItems) && products == old(products)
      ensures coupon == old(coupon) && discount == old(discount) && couponError == old(couponError)
    {
      DistinctSubseq(RemovedFromCart(cartItems, id), cartItems);
      cartItems := RemovedFromCart(cartItems, id);
    }

    method HandleWishlistToggle(p: Product)
      modifies this
      ensures products == FlagToggled(old(products), p.id)
      ensures wishlistItems == ToggledWishlist(old(wishlistItems), p)
      ensures cartItems == old(cartItems)
      ensures coupon == old(coupon) && discount == old(discount) && couponError == old(couponError)
    {
      products := FlagToggled(products, p.id);
      wishlistItems := ToggledWishlist(wishlistItems, p);
    }

    /** `moveToWishlist`: out of the cart, then the wishlist toggle. */
    method MoveToWishlist(p: Product)
      requires Valid()
      modifies this
      ensures Valid()
      ensures cartItems == RemovedFromCart(old(cartItems), p.id) && !InCart(cartItems, p.id)
      ensures products == FlagToggled(old(products), p.id)
      ensures wishlistItems == ToggledWishlist(old(wishlistItems), p)
      ensures coupon == old(coupon) && discount == old(discount) && couponError == old(couponError)
    {
      RemoveFromCart(p.id);
      HandleWishlistToggle(p);
    }

    method RemoveFromWishlist(id: string)
      modifies this
      ensures wishlistItems == Filter(old(wishlistItems), NotId(id)) && !InWishlist(wishlistItems, id)
      ensures cartItems == old(cartItems) && products == old(products)
      ensures coupon == old(coupon) && discount == old(discount) && couponError == old(couponError)
    {
      wishlistItems := Filter(wishlistItems, NotId(id));
      assert forall i :: 0 <= i < |wishlistItems| ==> wishlistItems[i] in wishlistItems;
    }

    /** `moveToCart`: out of the wishlist, then into the cart. */
    method MoveToCart(p: Product)
      requires Valid()
      modifies this
      ensures Valid()
      ensures wishlistItems == Filter(old(wishlistItems), NotId(p.id)) && !InWishlist(wishlistItems, p.id)
      ensures cartItems == AddedToCart(old(cartItems), p)
      ensures products == old(products)
      ensures coupon == old(coupon) && discount == old(discount) && couponError == old(couponError)
    {
      RemoveFromWishlist(p.id);
      AddToCart(p);
    }

    /** `fetchAndApplyCoupon(code, currentSubtotal)` against the stored coupons, at time `now`. */
    method FetchAndApplyCoupon(code: string, currentSubtotal: int, coupons: Collection, now: int)
      modifies this`discount, this`couponError
      ensures CouponState(discount, couponError) == AppliedCoupon(code, currentSubtotal, coupons.docs, now)
    {
      var applied := AppliedCoupon(code, currentSubtotal, coupons.docs, now);
      discount := applied.discount;
      couponError := applied.error;
    }

    /** `handleApplyCoupon`: the typed code against the current subtotal. */
    method HandleApplyCoupon(coupons: Collection, now: int)
      modifies this`discount, this`couponError
      ensures CouponState(discount, couponError) == AppliedCoupon(coupon, Subtotal(cartItems), coupons.docs, now)
    {
      FetchAndApplyCoupon(coupon, Subtotal(cartItems), coupons, now);
    }
  }
}
