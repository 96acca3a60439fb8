/**
 * The cart page: which stored coupons are offered and which of them the
 * subtotal makes selectable, how a coupon is described, the cart lines as
 * shown (excluded products dropped, the legacy `image` field promoted), the
 * rule that disables checkout, and the coupon picker's state.
 */
module CartView {
  import opened Wrappers
  import opened Text
  import opened JsValue
  import opened Firestore
  import opened Seqs

  // ---------------------------------------------------------------- offered coupons

  /**
   * Whether a coupon counts as available at time `now`, or `None` when one of
   * its dates is set but is not a timestamp (its `toDate` throws): it has
   * started, has not ended, and its usage limit, when positive, is not used up.
   */
  function Available(c: Value, now: int): (r: Option<bool>)
    ensures r == Some(true) <==>
      (!Truthy(Get(c, "validFrom")) || (Get(c, "validFrom").Stamp? && Get(c, "validFrom").millis <= now)) &&
      (!Truthy(Get(c, "validUntil")) || (Get(c, "validUntil").Stamp? && Get(c, "validUntil").millis >= now)) &&
      !(Gt(Get(c, "usageLimit"), Num(0.0)) && Ge(Or(Get(c, "usedCount"), Num(0.0)), Get(c, "usageLimit")))
  {
    var from, until := Get(c, "validFrom"), Get(c, "validUntil");
    if Truthy(from) && !from.Stamp? then None
    else if Truthy(from) && from.millis > now then Some(false)
    else if Truthy(until) && !until.Stamp? then None
    else if Truthy(until) && until.millis < now then Some(false)
    else if Gt(Get(c, "usageLimit"), Num(0.0)) && Ge(Or(Get(c, "usedCount"), Num(0.0)), Get(c, "usageLimit")) then Some(false)
    else Some(true)
  }

  /** The documents of a snapshot, each read as its id together with its data. */
  function AsObjects(docs: seq<Doc>): (r: seq<Value>)
    ensures |r| == |docs| && forall i :: 0 <= i < |docs| ==> r[i] == AsObject(docs[i])
  {
    if docs == [] then [] else [AsObject(docs[0])] + AsObjects(docs[1..])
  }

  /** The available coupons among `cs`, in order; `None` when one of them throws. */
  function AvailableAmong(cs: seq<Value>, now: int): (r: Option<seq<Value>>)
    ensures r.Some? <==> forall i :: 0 <= i < |cs| ==> Available(cs[i], now).Some?
    ensures r.Some? ==> Subseq(r.value, cs) && forall c :: c in r.value <==> c in cs && Available(c, now) == Some(true)
  {
    if cs == [] then Some([])
    else
      var rest := AvailableAmong(cs[1..], now);
      assert forall i :: 1 <= i < |cs| ==> cs[i] == cs[1..][i - 1];
      assert forall c :: c in cs <==> c == cs[0] || c in cs[1..];
      match Available(cs[0], now)
      case None => None
      case Some(keep) =>
        if rest.None? then None
        else if keep then
          assert ([cs[0]] + rest.value)[1..] == rest.value;
          Some([cs[0]] + rest.value)
        else Some(rest.value)
  }

  /**
   * `fetchCoupons`: the stored coupons with `isActive` set to true that are
   * available; when a date throws, the list stays empty.
   */
  function OfferedCoupons(coupons: seq<Doc>, now: int): (r: seq<Value>)
    ensures forall c :: c in r ==> Available(c, now) == Some(true) && Get(c, "isActive") == Bool(true)
    ensures AvailableAmong(AsObjects(Where(coupons, "isActive", Bool(true))), now).Some? ==>
      forall d :: d in coupons && "isActive" in d.data && d.data["isActive"] == Bool(true) && Available(AsObject(d), now) == Some(true) ==>
        AsObject(d) in r
  {
    var active := Where(coupons, "isActive", Bool(true));
    var objects := AsObjects(active);
    assert forall c :: c in objects ==> Get(c, "isActive") == Bool(true) by {
      forall c | c in objects ensures Get(c, "isActive") == Bool(true) {
        var i :| 0 <= i < |objects| && objects[i] == c;
        assert active[i] in active;
      }
    }
    assert forall d :: d in active ==> AsObject(d) in objects by {
      forall d | d in active ensures AsObject(d) in objects {
        var i :| 0 <= i < |active| && active[i] == d;
        assert objects[i] == AsObject(d);
      }
    }
    match AvailableAmong(objects, now)
    case None => []
    case Some(list) => list
  }

  /** `subtotal >= (cpn.minOrderValue || 0)`: whether the coupon can be picked. */
  predicate Eligible(subtotal: Value, c: Value) {
    Ge(subtotal, Or(Get(c, "minOrderValue"), Num(0.0)))
  }

  /** Without a minimum order value any non-negative subtotal is eligible; below the minimum none is. */
  lemma EligibilityByMinimum(subtotal: real, c: Value, minimum: real)
    ensures !Truthy(Get(c, "minOrderValue")) && subtotal >= 0.0 ==> Eligible(Num(subtotal), c)
    ensures Get(c, "minOrderValue") == Num(minimum) && minimum != 0.0 ==> (Eligible(Num(subtotal), c) <==> subtotal >= minimum)
  {
    NumericComparisons(subtotal, 0.0);
    NumericComparisons(subtotal, minimum);
  }

  // ---------------------------------------------------------------- descriptions

  const Rupee: string := "₹"

  /**
   * `getCouponDescription`: the stored description when there is one, else
   * `X% off` for a percentage coupon and `₹X off` for any other, followed by
   * ` on purchase of ₹M` when the minimum order value is above zero.
   */
  function CouponDescription(c: Value): (r: Value)
    ensures !Truthy(c) ==> r == Str("")
    ensures Truthy(c) && Truthy(Get(c, "description")) ==> r == Get(c, "description")
    ensures Truthy(c) && !Truthy(Get(c, "description")) ==>
      r.Str? && StartsWith(r.s, DiscountText(c)) &&
      (Gt(Get(c, "minOrderValue"), Num(0.0)) <==> |r.s| > |DiscountText(c)|)
  {
    if !Truthy(c) then Str("")
    else if Truthy(Get(c, "description")) then Get(c, "description")
    else
      var head, tail := DiscountText(c), MinimumText(c);
      assert (head + tail)[..|head|] == head;
      Str(head + tail)
  }

  /** `X% off` for a percentage coupon, `₹X off` for any other. */
  function DiscountText(c: Value): (r: string)
    ensures StrictEq(Get(c, "discountType"), Str("percentage")) ==> |r| >= 5 && r[|r| - 5..] == "% off"
    ensures !StrictEq(Get(c, "discountType"), Str("percentage")) ==> |r| >= |Rupee| + 4 && StartsWith(r, Rupee) && r[|r| - 4..] == " off"
  {
    var value := ToStr(Get(c, "discountValue"));
    if StrictEq(Get(c, "discountType"), Str("percentage")) then
      var r := value + "% off";
      assert r[|r| - 5..] == "% off";
      r
    else
      var r := Rupee + value + " off";
      assert r[..|Rupee|] == Rupee && r[|r| - 4..] == " off";
      r
  }

  /** ` on purchase of ₹M` when the minimum order value `M` is above zero, else nothing. */
  function MinimumText(c: Value): (r: string)
    ensures r != "" <==> Gt(Get(c, "minOrderValue"), Num(0.0))
    ensures r != "" ==> StartsWith(r, " on purchase of " + Rupee)
  {
    if Gt(Get(c, "minOrderValue"), Num(0.0)) then
      var r := " on purchase of " + Rupee + ToStr(Get(c, "minOrderValue"));
      assert r[..|" on purchase of " + Rupee|] == " on purchase of " + Rupee;
      r
    else ""
  }

  // ---------------------------------------------------------------- cart lines as shown

  const ExcludedNames: seq<string> := ["PURE INSTANT COFFEE", "HAZELNUT", "VANILLA COFFEE"]

  /** `String(i.name || '').trim().toUpperCase()` */
  function NameKey(item: Value): string {
    ToUpper(Trim(ToStr(Or(Get(item, "name"), Str("")))))
  }

  /** Whether the item is one of the products the shop no longer shows. */
  predicate Excluded(item: Value) {
    NameKey(item) in ExcludedNames
  }

  function Shown(item: Value): bool { !Excluded(item) }

  /** A line without `mainImage` but with `image` gets `mainImage` from it and a default brand. */
  function NormalizedItem(item: Value): (r: Value)
    ensures !Truthy(Get(item, "mainImage")) && Truthy(Get(item, "image")) ==>
      Get(r, "mainImage") == Get(item, "image") && Truthy(Get(r, "brand")) &&
      (Truthy(Get(item, "brand")) ==> Get(r, "brand") == Get(item, "brand"))
    ensures Truthy(Get(item, "mainImage")) || !Truthy(Get(item, "image")) ==> r == item
    ensures forall k :: k != "mainImage" && k != "brand" && item.Obj? ==> Get(r, k) == Get(item, k)
  {
    if !Truthy(Get(item, "mainImage")) && Truthy(Get(item, "image")) then
      Obj(Spread(item)["mainImage" := Get(item, "image")]["brand" := Or(Get(item, "brand"), Str("Bold & Brew"))])
    else item
  }

  function NormalizedAll(items: seq<Value>): (r: seq<Value>)
    ensures |r| == |items| && forall i :: 0 <= i < |items| ==> r[i] == NormalizedItem(items[i])
  {
    if items == [] then [] else [NormalizedItem(items[0])] + NormalizedAll(items[1..])
  }

  /** `normalizedCartItems`: the lines not excluded, in order, each normalised. */
  function NormalizedCartItems(items: seq<Value>): (r: seq<Value>)
    ensures r == NormalizedAll(Filter(items, Shown))
    ensures |r| <= |items|
    ensures forall i :: 0 <= i < |r| ==> ImageOfKept(items, Shown, NormalizedItem, r[i])
    ensures forall j :: 0 <= j < |items| && Shown(items[j]) ==> NormalizedItem(items[j]) in r
    ensures (forall j :: 0 <= j < |items| ==> Shown(items[j])) ==> r == NormalizedAll(items)
  {
    var kept := Filter(items, Shown);
    var r := NormalizedAll(kept);
    FilterThenMap(items, Shown, NormalizedItem, kept, r);
    r
  }

  /** Normalising keeps the name, so no excluded product is ever shown. */
  lemma NoExcludedLineShown(items: seq<Value>)
    ensures forall i :: 0 <= i < |NormalizedCartItems(items)| ==> !Excluded(NormalizedCartItems(items)[i])
  {
    var r := NormalizedCartItems(items);
    forall i | 0 <= i < |r| ensures !Excluded(r[i]) {
      assert ImageOfKept(items, Shown, NormalizedItem, r[i]);
      var j :| 0 <= j < |items| && Shown(items[j]) && r[i] == NormalizedItem(items[j]);
      NormalizedKeepsName(items[j]);
      SameNameSameExclusion(items[j], r[i]);
    }
  }

  /** Exclusion looks at the name only. */
  lemma SameNameSameExclusion(a: Value, b: Value)
    requires Get(a, "name") == Get(b, "name")
    ensures Excluded(a) == Excluded(b)
  {
  }

  lemma NormalizedKeepsName(item: Value)
    ensures Get(NormalizedItem(item), "name") == Get(item, "name")
  {
  }

  /** The checkout button is disabled when nothing is shown or a shown line has stock 0. */
  predicate CheckoutDisabled(items: seq<Value>) {
    var shown := NormalizedCartItems(items);
    shown == [] || exists i :: 0 <= i < |shown| && StrictEq(Get(shown[i], "stock"), Num(0.0))
  }

  /** A shown line with stock 0 disables checkout. */
  lemma OutOfStockBlocksCheckout(items: seq<Value>, j: int)
    requires 0 <= j < |items| && !Excluded(items[j]) && Get(items[j], "stock") == Num(0.0)
    ensures CheckoutDisabled(items)
  {
    var kept := Filter(items, Shown);
    assert Shown(items[j]) && items[j] in kept;
    var i :| 0 <= i < |kept| && kept[i] == items[j];
    NormalizedKeepsStock(items[j]);
    assert NormalizedCartItems(items) == NormalizedAll(kept);
  }

  /** A non-empty cart whose lines are all shown and none has stock 0 can check out. */
  lemma InStockCartChecksOut(items: seq<Value>)
    requires items != []
    requires forall i :: 0 <= i < |items| ==> !Excluded(items[i]) && Get(items[i], "stock") != Num(0.0)
    ensures !CheckoutDisabled(items)
  {
    assert Filter(items, Shown) == items by {
      assert forall i :: 0 <= i < |items| ==> Shown(items[i]);
    }
    var shown := NormalizedAll(items);
    assert NormalizedCartItems(items) == shown;
    forall k | 0 <= k < |shown|
      ensures !StrictEq(Get(shown[k], "stock"), Num(0.0))
    {
      NormalizedKeepsStock(items[k]);
    }
    assert shown != [];
  }

  lemma NormalizedKeepsStock(item: Value)
    ensures Get(NormalizedItem(item), "stock") == Get(item, "stock")
  {
  }

  // ---------------------------------------------------------------- the coupon picker

  /** The picker's selected code and the page's coupon code (held by the storefront). */
  class CouponPicker {
    var selectedCoupon: string
    var coupon: string
    var showDropdown: bool

    constructor (coupon: string)
      ensures selectedCoupon == "" && this.coupon == coupon && !showDropdown
    {
      selectedCoupon := "";
      this.coupon := coupon;
      showDropdown := false;
    }

    /** `handleCouponSelect`: the code becomes both the selected and the page's coupon. */
    method Select(code: string)
      modifies this
      ensures selectedCoupon == code && coupon == code && !showDropdown
    {
      selectedCoupon := code;
      coupon := code;
      showDropdown := false;
    }

    /** `handleApplyCoupon`: the page's apply handler runs only when a code is set. */
    method Apply() returns (fired: bool)
      ensures fired <==> selectedCoupon != "" || coupon != ""
    {
      fired := selectedCoupon != "" || coupon != "";
    }

    /** `handleRemoveCoupon`: both codes cleared. */
    method Remove()
      modifies this
      ensures selectedCoupon == "" && coupon == "" && !showDropdown
    {
      selectedCoupon := "";
      coupon := "";
      showDropdown := false;
    }
  }
}
