/**
 * One order's page (src/components/OrderDetails.jsx): the amount, payment and
 * status normalisers, the cancel action and the per-line subtotal.
 */
module OrderDetails {
  import opened JsValue
  import opened Text
  import opened Firestore
  import opened Seqs
  import opened Wrappers

  /**
   * What `formatAmount` shows, before the `toFixed(2)` text: nothing known, a
   * rupee amount printed with two decimals (NaN prints as "NaN"), or the value's
   * own text after the rupee sign.
   */
  datatype AmountText = NotAvailable | TwoDecimals(rupees: Value) | AsText(text: string)

  /** `formatAmount(raw)`: a number above 1000 is taken to be paise. */
  function FormatAmount(raw: Value): (r: AmountText)
    ensures r.NotAvailable? <==> Nullish(raw)
    ensures raw.Num? && raw.n > 1000.0 ==> r == TwoDecimals(Num(raw.n / 100.0))
    ensures raw.Num? && raw.n <= 1000.0 ==> r == TwoDecimals(raw)
    ensures raw.NaN? ==> r == TwoDecimals(NaN)
    ensures !Nullish(raw) && !raw.Num? && !raw.NaN? ==> r == AsText(ToStr(raw))
  {
    if Nullish(raw) then NotAvailable
    else if raw.Num? then
      if raw.n > 1000.0 then TwoDecimals(Num(raw.n / 100.0)) else TwoDecimals(raw)
    else if raw.NaN? then TwoDecimals(NaN)
    else AsText(ToStr(raw))
  }

  /** A whole number of paise above 1000 is shown as that many hundredths of a rupee. */
  lemma LargeAmountsShownAsRupees(paise: int)
    requires paise > 1000
    ensures FormatAmount(Num(paise as real)) == TwoDecimals(Num(paise as real / 100.0))
    ensures FormatAmount(Num(paise as real)).rupees.n * 100.0 == paise as real
  {
  }

  // ---------------------------------------------------------------- payment

  /** The payment id: the first truthy of the four payment id fields, else 'N/A'. */
  function PaymentId(order: Value): (r: Value)
    ensures Truthy(r)
    ensures !HasPaymentId(order) ==> r == Str("N/A")
    ensures r in [Get(order, "razorpayPaymentId"), Get(order, "razorpay_payment_id"),
                  Get(order, "paymentId"), Get(order, "payment_id"), Str("N/A")]
  {
    var r := Or(Or(Or(Or(Get(order, "razorpayPaymentId"), Get(order, "razorpay_payment_id")),
                     Get(order, "paymentId")), Get(order, "payment_id")), Str("N/A"));
    r
  }

  predicate HasPaymentId(order: Value) {
    Truthy(Get(order, "razorpayPaymentId")) || Truthy(Get(order, "razorpay_payment_id")) ||
    Truthy(Get(order, "paymentId")) || Truthy(Get(order, "payment_id"))
  }

  /** 'Success' when there is a payment id, 'Failed' otherwise. */
  function PaymentStatus(order: Value): (r: string)
    ensures r == "Success" ==> HasPaymentId(order)
    ensures r == "Success" || r == "Failed"
  {
    if PaymentId(order) != Str("N/A") then "Success" else "Failed"
  }

  /** A payment id other than the literal text 'N/A' shows the payment as a success. */
  lemma SuccessIffPaymentId(order: Value)
    requires forall k :: k in ["razorpayPaymentId", "razorpay_payment_id", "paymentId", "payment_id"] ==>
      Get(order, k) != Str("N/A")
    ensures PaymentStatus(order) == "Success" <==> HasPaymentId(order)
  {
  }

  /** The payment mode: either stored mode field, else 'Razorpay' when there is a payment id, else 'N/A'. */
  function PaymentMode(order: Value): (r: Value)
    ensures Truthy(r)
    ensures Truthy(Get(order, "paymentMode")) ==> r == Get(order, "paymentMode")
    ensures !Truthy(Get(order, "paymentMode")) && Truthy(Get(order, "payment_method")) ==>
      r == Get(order, "payment_method")
    ensures !Truthy(Get(order, "paymentMode")) && !Truthy(Get(order, "payment_method")) ==>
      r == if PaymentId(order) != Str("N/A") then Str("Razorpay") else Str("N/A")
    ensures !Truthy(Get(order, "paymentMode")) && !Truthy(Get(order, "payment_method")) && !HasPaymentId(order) ==>
      r == Str("N/A")
  {
    Or(Or(Get(order, "paymentMode"), Get(order, "payment_method")),
       Str(if PaymentId(order) != Str("N/A") then "Razorpay" else "N/A"))
  }

  /** The amount: the first of the four amount fields that is not nullish, else 0. */
  function AmountValue(order: Value): (r: Value)
    ensures !Nullish(r)
    ensures !Nullish(Get(order, "total")) ==> r == Get(order, "total")
    ensures (Nullish(Get(order, "total")) && !Nullish(Get(order, "amount"))) ==> r == Get(order, "amount")
    ensures (Nullish(Get(order, "total")) && Nullish(Get(order, "amount")) &&
             !Nullish(Get(order, "totalAmount"))) ==> r == Get(order, "totalAmount")
    ensures (Nullish(Get(order, "total")) && Nullish(Get(order, "amount")) && Nullish(Get(order, "totalAmount")) &&
             !Nullish(Get(order, "orderAmount"))) ==> r == Get(order, "orderAmount")
    ensures (Nullish(Get(order, "total")) && Nullish(Get(order, "amount")) && Nullish(Get(order, "totalAmount")) &&
             Nullish(Get(order, "orderAmount"))) ==> r == Num(0.0)
  {
    Coalesce(Coalesce(Coalesce(Coalesce(Get(order, "total"), Get(order, "amount")),
      Get(order, "totalAmount")), Get(order, "orderAmount")), Num(0.0))
  }

  // ---------------------------------------------------------------- status

  /** The raw status: the status, else the payment status, else the empty string. */
  function StatusRaw(order: Value): Value {
    Or(Or(Get(order, "status"), Get(order, "paymentStatus")), Str(""))
  }

  /** `String(s).toLowerCase()` */
  function Lowered(s: Value): string { ToLower(ToStr(s)) }

  /** The status shown: an empty status and any spelling of 'completed' become 'In Process'. */
  function DisplayStatus(s: Value): (r: Value)
    ensures Truthy(s) && Lowered(s) != "completed" ==> r == s
    ensures !Truthy(s) || Lowered(s) == "completed" ==> r == Str("In Process")
    ensures Lowered(r) != "completed"
    ensures Truthy(r)
  {
    if Truthy(s) && Lowered(s) != "completed" then s
    else
      assert Lowered(Str("In Process")) == "in process";
      Str("In Process")
  }

  /** 'Completed' is never displayed, in any case. */
  lemma NeverCompleted(order: Value)
    ensures !EqualsIgnoreCase(ToStr(DisplayStatus(StatusRaw(order))), "Completed")
  {
    var r := DisplayStatus(StatusRaw(order));
    assert ToLower("Completed") == "completed";
    assert ToLower(ToStr(r)) != "completed";
  }

  /** A character that `.replace(/\s+/g, '-')` neither removes nor writes. */
  predicate Inked(c: char) { !IsSpace(c) && c != '-' }

  /** `.replace(/\s+/g, '-')`: each run of white space becomes one dash; `inRun` says a run is already open. */
  function SpaceRunsToDash(s: string, inRun: bool): (r: string)
    ensures forall i :: 0 <= i < |r| ==> !IsSpace(r[i])
    ensures (forall i :: 0 <= i < |s| ==> !IsSpace(s[i])) ==> r == s
    decreases |s|
  {
    if s == [] then []
    else if !IsSpace(s[0]) then [s[0]] + SpaceRunsToDash(s[1..], false)
    else if inRun then SpaceRunsToDash(s[1..], true)
    else "-" + SpaceRunsToDash(s[1..], true)
  }

  /** The replacement keeps every other character, in order. */
  lemma {:induction false} SpaceRunsKeepsText(s: string, inRun: bool)
    ensures Filter(SpaceRunsToDash(s, inRun), Inked) == Filter(s, Inked)
    decreases |s|
  {
    if s != [] {
      if !IsSpace(s[0]) {
        SpaceRunsKeepsText(s[1..], false);
        FilterCons(s[0], SpaceRunsToDash(s[1..], false), Inked);
      } else {
        SpaceRunsKeepsText(s[1..], true);
        FilterCons('-', SpaceRunsToDash(s[1..], true), Inked);
      }
    }
  }

  /**
   * The status badge's class, `displayStatus.toLowerCase().replace(/\s+/g, '-')`, or `None`
   * when the shown status is not a string: `toLowerCase` then throws and the page does not render.
   */
  function StatusClass(s: Value): (r: Option<string>)
    ensures r.Some? <==> !Truthy(s) || Lowered(s) == "completed" || s.Str?
    ensures s.Str? && s.s != "" && Lowered(s) != "completed" ==> r == Some(SpaceRunsToDash(ToLower(s.s), false))
    ensures r.Some? ==> forall i :: 0 <= i < |r.value| ==> !IsSpace(r.value[i])
  {
    var d := DisplayStatus(s);
    if d.Str? then
      Some(SpaceRunsToDash(ToLower(d.s), false))
    else None
  }

  /** Whether the raw status reads 'cancelled', ignoring case. */
  predicate IsCancelled(order: Value) {
    var s := StatusRaw(order);
    Truthy(s) && Lowered(s) == "cancelled"
  }

  /** The Cancel button is offered only on an order that is not cancelled. */
  function ShowsCancelButton(order: Value): (b: bool)
    ensures b <==> !(Truthy(StatusRaw(order)) && Lowered(StatusRaw(order)) == "cancelled")
  {
    !IsCancelled(order)
  }

  /** After a cancel the order reads as cancelled and offers no Cancel button. */
  lemma CancelledOrderHidesButton(order: Value)
    requires order.Obj?
    ensures var after := With(order, "status", Str("Cancelled"));
      IsCancelled(after) && !ShowsCancelButton(after)
  {
    var after := With(order, "status", Str("Cancelled"));
    assert Get(after, "status") == Str("Cancelled");
    assert Lowered(Str("Cancelled")) == "cancelled";
  }

  // ---------------------------------------------------------------- lines

  /** `Number(x) || 0` */
  function NumberOrZero(v: Value): (r: real)
    ensures ToNumber(v).Num? ==> r == ToNumber(v).n
    ensures ToNumber(v).NaN? ==> r == 0.0
  {
    var x := ToNumber(v);
    if x.Num? then x.n else 0.0
  }

  /** `it.quantity || it.qty || 1` */
  function LineQuantity(it: Value): Value {
    Or(Or(Get(it, "quantity"), Get(it, "qty")), Num(1.0))
  }

  /** A line's price: its price, unit price or nested product price, the first not nullish, else 0. */
  function LinePrice(it: Value): Value {
    Coalesce(Coalesce(Coalesce(Get(it, "price"), Get(it, "unitPrice")), Get(Get(it, "product"), "price")), Num(0.0))
  }

  /** A line's total: price times quantity, an unreadable number counting as 0. */
  function LineSubtotal(it: Value): real {
    NumberOrZero(LinePrice(it)) * NumberOrZero(LineQuantity(it))
  }

  /** A line with a numeric price and quantity costs their product; one with an unreadable price costs nothing. */
  lemma LineSubtotalCases(it: Value, price: real, qty: real)
    ensures Get(it, "price") == Num(price) && Get(it, "quantity") == Num(qty) && qty != 0.0 ==>
      LineSubtotal(it) == price * qty
    ensures ToNumber(LinePrice(it)).NaN? ==> LineSubtotal(it) == 0.0
  {
  }

  // ---------------------------------------------------------------- cancelling

  class OrderView {
    /** The order shown, `{ id, ...data }`, or a falsy value before it loads. */
    var order: Value

    constructor(order: Value)
      ensures this.order == order
    {
      this.order := order;
    }

    /**
     * `handleCancelOrder`: writes status 'Cancelled' to the stored order and to
     * the shown copy; a missing id does nothing, and a failed update leaves the
     * shown order as it was. The answer is whether the order was cancelled.
     */
    method CancelOrder(orders: Collection) returns (cancelled: bool)
      requires orders.Valid()
      modifies this, orders
      ensures orders.Valid()
      ensures cancelled ==> Get(old(order), "id").Str? && old(orders.Has(Get(order, "id").s))
      ensures cancelled ==> orders.docs == Updated(old(orders.docs), Get(old(order), "id").s, map["status" := Str("Cancelled")])
      ensures cancelled ==> order == With(old(order), "status", Str("Cancelled"))
      ensures !cancelled ==> orders.docs == old(orders.docs) && order == old(order)
      ensures Truthy(Get(old(order), "id")) && Get(old(order), "id").Str? && old(orders.Has(Get(order, "id").s)) ==> cancelled
    {
      var id := Get(order, "id");
      if !Truthy(id) || !id.Str? {
        return false;
      }
      cancelled := orders.Update(id.s, map["status" := Str("Cancelled")]);
      if cancelled {
        order := With(order, "status", Str("Cancelled"));
      }
    }
  }
}
