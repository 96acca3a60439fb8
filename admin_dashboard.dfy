/**
 * The admin dashboard (src/components/AdminDashboard.jsx): the product table
 * with its inline edits and saves, the removal of a deleted product, and the
 * coupon summary (active count, the first five coupons and the "+N more" tile).
 */
module AdminDashboard {
  import opened Wrappers
  import opened JsValue
  import opened Seqs
  import opened Firestore
  import CouponManagement

  // ---------------------------------------------------------------- inline edits

  /** The three numeric columns, whose inputs are read with `Number(value)`. */
  predicate NumericField(field: string) { field == "price" || field == "originalPrice" || field == "stock" }

  /** The value stored for an edit to `field`. */
  function Coerced(field: string, value: Value): (r: Value)
    ensures NumericField(field) ==> r == ToNumber(value) && (r.Num? || r.NaN?)
    ensures !NumericField(field) ==> r == value
  {
    if NumericField(field) then ToNumber(value) else value
  }

  /** The product list with one field of the product with the given id replaced. */
  function Changed(products: seq<Value>, id: Value, field: string, value: Value): (r: seq<Value>)
    ensures |r| == |products|
    ensures forall i :: 0 <= i < |products| && !StrictEq(Get(products[i], "id"), id) ==> r[i] == products[i]
    ensures forall i :: 0 <= i < |products| && StrictEq(Get(products[i], "id"), id) ==>
      r[i] == With(products[i], field, Coerced(field, value))
  {
    seq(|products|, i requires 0 <= i < |products| => Edited(products[i], id, field, value))
  }

  /** One product of `Changed`. */
  function Edited(p: Value, id: Value, field: string, value: Value): Value {
    if StrictEq(Get(p, "id"), id) then With(p, field, Coerced(field, value)) else p
  }

  /** On one product, a second edit of the same field overrides the first. */
  lemma EditedTwice(p: Value, id: Value, field: string, v1: Value, v2: Value)
    requires field != "id"
    ensures Edited(Edited(p, id, field, v1), id, field, v2) == Edited(p, id, field, v2)
  {
    if StrictEq(Get(p, "id"), id) {
      assert Get(With(p, field, Coerced(field, v1)), "id") == Get(p, "id");
      assert Spread(With(p, field, Coerced(field, v1))) == Spread(p)[field := Coerced(field, v1)];
    }
  }

  /** An edit sets the named field on the products with that id and leaves every other field of every product alone. */
  lemma ChangeTouchesOnlyField(products: seq<Value>, id: Value, field: string, value: Value)
    requires forall i :: 0 <= i < |products| ==> products[i].Obj?
    ensures var r := Changed(products, id, field, value);
      (forall i :: 0 <= i < |r| && StrictEq(Get(products[i], "id"), id) ==> Get(r[i], field) == Coerced(field, value)) &&
      (forall i, k :: 0 <= i < |r| && k != field ==> Get(r[i], k) == Get(products[i], k))
  {
  }

  /** Edits to a product whose id is not listed change nothing. */
  lemma ChangeOfUnlistedId(products: seq<Value>, id: Value, field: string, value: Value)
    requires forall i :: 0 <= i < |products| ==> !StrictEq(Get(products[i], "id"), id)
    ensures Changed(products, id, field, value) == products
  {
  }

  /** Two edits of the same field: the later one wins. */
  lemma LaterEditWins(products: seq<Value>, id: Value, field: string, v1: Value, v2: Value)
    requires field != "id"
    ensures Changed(Changed(products, id, field, v1), id, field, v2) == Changed(products, id, field, v2)
  {
    var once := Changed(products, id, field, v1);
    forall i | 0 <= i < |products|
      ensures Changed(once, id, field, v2)[i] == Changed(products, id, field, v2)[i]
    {
      EditedTwice(products[i], id, field, v1, v2);
    }
  }

  // ---------------------------------------------------------------- saving

  /** The fields `handleSave` writes for a product. */
  function SaveFields(p: Value): (r: map<string, Value>)
    ensures r.Keys == {"name", "price", "originalPrice", "description", "brand", "stock", "mainImage", "images"}
    ensures "stock" in r && r["stock"] == (if Nullish(Get(p, "stock")) then Num(0.0) else Get(p, "stock"))
    ensures "images" in r && r["images"] == (if Nullish(Get(p, "images")) then Arr([Get(p, "mainImage")]) else Get(p, "images"))
    ensures "price" in r && r["price"] == Get(p, "price") && "name" in r && r["name"] == Get(p, "name")
  {
    map["name" := Get(p, "name"), "price" := Get(p, "price"), "originalPrice" := Get(p, "originalPrice"),
        "description" := Get(p, "description"), "brand" := Get(p, "brand"),
        "stock" := Coalesce(Get(p, "stock"), Num(0.0)), "mainImage" := Get(p, "mainImage"),
        "images" := Coalesce(Get(p, "images"), Arr([Get(p, "mainImage")]))]
  }

  /** `e.detail?.id` */
  function DeletedId(detail: Value): Value { Get(detail, "id") }

  predicate NotDeleted(deletedId: Value, p: Value) { !StrictEq(Get(p, "id"), deletedId) }

  function Undeleted(deletedId: Value): Value -> bool { p => NotDeleted(deletedId, p) }

  // ---------------------------------------------------------------- coupon summary

  predicate IsActive(c: Value) { Truthy(Get(c, "isActive")) }

  /** How many coupons have a truthy `isActive` flag. */
  function ActiveCount(coupons: seq<Value>): (n: nat)
    ensures n <= |coupons|
    ensures n == |coupons| <==> forall i :: 0 <= i < |coupons| ==> IsActive(coupons[i])
    ensures n == 0 <==> forall i :: 0 <= i < |coupons| ==> !IsActive(coupons[i])
    ensures n == |KeptIndices(coupons, IsActive)|
  {
    var active := Filter(coupons, IsActive);
    FilterLengthIsIndexCount(coupons, IsActive);
    assert |active| == |coupons| ==> forall i :: 0 <= i < |coupons| ==> IsActive(coupons[i]) by {
      if |active| == |coupons| {
        FilterKeepsAll(coupons, IsActive);
      }
    }
    assert active == [] <==> forall i :: 0 <= i < |coupons| ==> !IsActive(coupons[i]) by {
      if active != [] {
        assert active[0] in active;
      }
      if exists i :: 0 <= i < |coupons| && IsActive(coupons[i]) {
        var i :| 0 <= i < |coupons| && IsActive(coupons[i]);
        assert coupons[i] in active;
      }
    }
    |active|
  }

  /** The coupon tiles: `coupons.slice(0, 5)`, shown once loaded and when there is any. */
  function Preview(loadingCoupons: bool, coupons: seq<Value>): (r: seq<Value>)
    ensures |r| <= 5
    ensures loadingCoupons || coupons == [] ==> r == []
    ensures !loadingCoupons ==> r == coupons[..if |coupons| < 5 then |coupons| else 5]
  {
    if loadingCoupons || coupons == [] then [] else if |coupons| <= 5 then coupons else coupons[..5]
  }

  /** The "+N more" tile: shown with N = length - 5 when there are more than five coupons. */
  function MoreCount(loadingCoupons: bool, coupons: seq<Value>): (r: Option<nat>)
    ensures r.Some? <==> !loadingCoupons && |coupons| > 5
    ensures r.Some? ==> r.value > 0 && r.value + |Preview(loadingCoupons, coupons)| == |coupons|
  {
    if !loadingCoupons && |coupons| > 5 then Some(|coupons| - 5) else None
  }

  /** Once loaded, the tiles and the "+N more" count account for every coupon exactly once. */
  lemma SummaryCoversAll(coupons: seq<Value>)
    ensures |Preview(false, coupons)| + (if MoreCount(false, coupons).Some? then MoreCount(false, coupons).value else 0)
      == |coupons|
  {
  }

  /** A tile's discount: `${v}%` for a percentage coupon, `₹${v}` otherwise. */
  function DiscountText(c: Value): (r: string)
    ensures StrictEq(Get(c, "discountType"), Str("percentage")) ==> r == ToStr(Get(c, "discountValue")) + "%"
    ensures !StrictEq(Get(c, "discountType"), Str("percentage")) ==> r == "₹" + ToStr(Get(c, "discountValue"))
  {
    if StrictEq(Get(c, "discountType"), Str("percentage")) then ToStr(Get(c, "discountValue")) + "%"
    else "₹" + ToStr(Get(c, "discountValue"))
  }

  // ---------------------------------------------------------------- the page

  class Dashboard {
    var products: seq<Value>
    var coupons: seq<Value>
    var loadingCoupons: bool
    var savingId: Value
    var successMsg: string

    constructor()
      ensures products == [] && coupons == [] && loadingCoupons && savingId == Null && successMsg == ""
    {
      products := [];
      coupons := [];
      loadingCoupons := true;
      savingId := Null;
      successMsg := "";
    }

    /** `loadProducts()` and `loadCoupons()`: the coupons in the coupon page's order. */
    method Load(productDocs: seq<Doc>, couponDocs: seq<Doc>)
      modifies this`products, this`coupons, this`loadingCoupons
      ensures |products| == |productDocs| && forall i :: 0 <= i < |productDocs| ==> products[i] == AsObject(productDocs[i])
      ensures coupons == CouponManagement.CouponList(couponDocs) && !loadingCoupons
    {
      products := seq(|productDocs|, i requires 0 <= i < |productDocs| => AsObject(productDocs[i]));
      coupons := CouponManagement.CouponList(couponDocs);
      loadingCoupons := false;
    }

    /** `handleChange(id, field, value)` */
    method HandleChange(id: Value, field: string, value: Value)
      modifies this
      ensures products == Changed(old(products), id, field, value)
      ensures coupons == old(coupons) && savingId == old(savingId) && successMsg == old(successMsg)
      ensures loadingCoupons == old(loadingCoupons)
    {
      products := Changed(products, id, field, value);
    }

    /** The `productDeleted` listener: a truthy id is removed from the list, and nothing else. */
    method OnDeleted(detail: Value)
      modifies this
      ensures !Truthy(DeletedId(detail)) ==> products == old(products)
      ensures Truthy(DeletedId(detail)) ==>
        products == Filter(old(products), Undeleted(DeletedId(detail))) &&
        (forall p :: p in products <==> p in old(products) && !StrictEq(Get(p, "id"), DeletedId(detail))) &&
        Subseq(products, old(products))
      ensures coupons == old(coupons) && savingId == old(savingId) && successMsg == old(successMsg)
      ensures loadingCoupons == old(loadingCoupons)
    {
      var deletedId := DeletedId(detail);
      if Truthy(deletedId) {
        products := Filter(products, Undeleted(deletedId));
      }
    }

    /**
     * `handleSave(id)`: the listed product with that id is written back to its
     * document. A product missing from the list (reading `product.name` then
     * throws) or a missing document ends in an alert and writes nothing.
     */
    method HandleSave(id: string, store: Collection) returns (saved: bool)
      requires store.Valid()
      modifies this, store
      ensures store.Valid()
      ensures var found := FindFirst(old(products), p => StrictEq(Get(p, "id"), Str(id)));
        saved <==> found.Some? && old(store.Has(id))
      ensures var found := FindFirst(old(products), p => StrictEq(Get(p, "id"), Str(id)));
        saved ==> found.Some? && store.docs == Updated(old(store.docs), id, SaveFields(old(products)[found.value]))
      ensures !saved ==> store.docs == old(store.docs)
      ensures successMsg == (if saved then "Product updated successfully!" else "")
      ensures savingId == Null && products == old(products) && coupons == old(coupons)
      ensures loadingCoupons == old(loadingCoupons)
    {
      savingId := Str(id);
      successMsg := "";
      var found := FindFirst(products, p => StrictEq(Get(p, "id"), Str(id)));
      saved := false;
      if found.Some? {
        saved := store.Update(id, SaveFields(products[found.value]));
        if saved {
          successMsg := "Product updated successfully!";
        }
      }
      savingId := Null;
    }
  }

  /**
   * After a deletion event no listed product has the deleted id, and every other product
   * stays, as often as it was listed and in its order.
   */
  lemma DeletionRemovesExactly(products: seq<Value>, deletedId: Value)
    ensures var r := Filter(products, Undeleted(deletedId));
      (forall i :: 0 <= i < |r| ==> !StrictEq(Get(r[i], "id"), deletedId)) &&
      (forall p :: multiset(r)[p] == if StrictEq(Get(p, "id"), deletedId) then 0 else multiset(products)[p]) &&
      Subseq(r, products)
  {
    var r := Filter(products, Undeleted(deletedId));
    assert forall i :: 0 <= i < |r| ==> r[i] in r;
    FilterCounts(products, Undeleted(deletedId));
  }
}
