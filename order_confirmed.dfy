/**
 * The order confirmation page (src/components/OrderConfirmed.jsx): the client-side
 * save of a paid order when the server has not recorded it, the read-back by
 * payment id, the one-time confirmation e-mail, and the values the page displays.
 * The two effects the page starts side by side are modelled as running one after
 * the other.
 */
module OrderConfirmed {
  import opened Wrappers
  import opened JsValue
  import opened Firestore
  import OrderDetails

  /** The payment id: the response's `razorpay_payment_id`, else its `id`. */
  function PaymentKey(payment: Value): Value {
    Or(Get(payment, "razorpay_payment_id"), Get(payment, "id"))
  }

  /** The total paid: a truthy payment amount in paise as rupees, else the checkout total, its cart total, or the fallback. */
  function PaidTotal(payment: Value, checkout: Value, fallback: Value): (r: Value)
    ensures Truthy(Get(payment, "amount")) ==> r == Div(Get(payment, "amount"), Num(100.0))
    ensures !Truthy(Get(payment, "amount")) && !Nullish(Get(checkout, "total")) ==> r == Get(checkout, "total")
    ensures (!Truthy(Get(payment, "amount")) && Nullish(Get(checkout, "total")) &&
             !Nullish(Get(checkout, "cartTotal"))) ==> r == Get(checkout, "cartTotal")
    ensures (!Truthy(Get(payment, "amount")) && Nullish(Get(checkout, "total")) &&
             Nullish(Get(checkout, "cartTotal"))) ==> r == fallback
  {
    if Truthy(Get(payment, "amount")) then Div(Get(payment, "amount"), Num(100.0))
    else Coalesce(Coalesce(Get(checkout, "total"), Get(checkout, "cartTotal")), fallback)
  }

  /** A checkout field, else the same field of its shipping address, else null. */
  function ContactField(checkout: Value, key: string): Value {
    Or(Or(Get(checkout, key), Get(Get(checkout, "shipping"), key)), Null)
  }

  /** The lightweight order the page writes when no stored order carries the payment id. */
  function ClientOrder(payment: Value, checkout: Value, pid: Value, now: int): (o: map<string, Value>)
    ensures o.Keys == {"items", "date", "total", "status", "shipping", "razorpayPaymentId", "razorpayOrderId"}
    ensures o["status"] == Str("In Process") && o["razorpayPaymentId"] == pid && o["date"] == Stamp(now)
    ensures o["total"] == PaidTotal(payment, checkout, Num(0.0))
  {
    var fullName := Or(Or(Or(Get(checkout, "fullName"), Get(checkout, "name")),
                          Get(Get(checkout, "shipping"), "fullName")), Null);
    map[
      "items" := Or(Or(Get(checkout, "cartItems"), Get(checkout, "items")), Arr([])),
      "date" := Stamp(now),
      "total" := PaidTotal(payment, checkout, Num(0.0)),
      "status" := Str("In Process"),
      "shipping" := Obj(map[
        "fullName" := fullName,
        "phone" := ContactField(checkout, "phone"),
        "email" := ContactField(checkout, "email"),
        "address" := ContactField(checkout, "address")]),
      "razorpayPaymentId" := pid,
      "razorpayOrderId" := Or(Or(Get(payment, "razorpay_order_id"), Get(payment, "order_id")), Null)]
  }

  /** The first stored order whose field holds the value, as the page reads it (`limit(1)`). */
  function FirstWhere(docs: seq<Doc>, field: string, value: Value): (r: Option<Value>)
    ensures r.Some? <==> Where(docs, field, value) != []
    ensures r.Some? ==> r.value == AsObject(Where(docs, field, value)[0])
  {
    var found := Where(docs, field, value);
    if found == [] then None else Some(AsObject(found[0]))
  }

  /** A query over a collection with no match, after one matching document is added, finds just that one. */
  lemma WhereAfterAdd(docs: seq<Doc>, d: Doc, field: string, value: Value)
    requires Where(docs, field, value) == []
    requires field in d.data && StrictEq(d.data[field], value)
    ensures Where(docs + [d], field, value) == [d]
    decreases |docs|
  {
    if docs == [] {
      assert docs + [d] == [d];
    } else {
      assert (docs + [d])[1..] == docs[1..] + [d];
      WhereAfterAdd(docs[1..], d, field, value);
    }
  }

  datatype Entry = RedirectHome | Confirm

  /** With neither a payment nor a checkout in the navigation state the page goes home. */
  function EntryOf(payment: Value, checkout: Value): (e: Entry)
    ensures e.RedirectHome? <==> !Truthy(payment) && !Truthy(checkout)
  {
    if !Truthy(payment) && !Truthy(checkout) then RedirectHome else Confirm
  }

  /** The recipient: `orderData?.shipping?.email || checkout?.email || null` */
  function Recipient(orderData: Value, checkout: Value): Value {
    Or(Or(Get(Get(orderData, "shipping"), "email"), Get(checkout, "email")), Null)
  }

  /** `orderData.items || []`, what the e-mail maps over. */
  function EmailItems(orderData: Value): Value { Or(Get(orderData, "items"), Arr([])) }

  /**
   * Building the e-mail does not throw: the items are an array (or absent),
   * none of them is null or undefined (reading `it.name` would throw), and
   * every line's price is a number (`item.price.toFixed(2)` throws otherwise).
   */
  predicate EmailBuildable(orderData: Value) {
    var items := EmailItems(orderData);
    items.Arr? && forall i :: 0 <= i < |items.elems| ==> !Nullish(items.elems[i]) && IsNumber(OrderDetails.LinePrice(items.elems[i]))
  }

  predicate IsNumber(v: Value) { v.Num? || v.NaN? }

  /** A price stored as text, such as `"299"`, makes `toFixed` throw, so no e-mail is sent. */
  lemma TextPriceStopsEmail(orderData: Value, item: Value, text: string)
    requires Get(orderData, "items") == Arr([item]) && Get(item, "price") == Str(text)
    ensures !EmailBuildable(orderData)
  {
    assert EmailItems(orderData).elems[0] == item;
  }

  /** Items that are a truthy non-array, such as a string, have no `map`, so no e-mail is sent. */
  lemma NonArrayItemsStopEmail(orderData: Value)
    requires Truthy(Get(orderData, "items")) && !Get(orderData, "items").Arr?
    ensures !EmailBuildable(orderData)
  {
  }

  class ConfirmationPage {
    var orderData: Value
    var emailSent: bool
    var redirected: bool

    constructor()
      ensures orderData == Null && !emailSent && !redirected
    {
      orderData := Null;
      emailSent := false;
      redirected := false;
    }

    /**
     * `saveOrder`: adopt the stored order that carries the payment id, or write the
     * client order under the fresh id `newId` and read it back.
     */
    method SaveOrder(payment: Value, checkout: Value, orders: Collection, newId: string, now: int)
      requires orders.Valid() && !orders.Has(newId)
      modifies this, orders
      ensures orders.Valid()
      ensures emailSent == old(emailSent) && redirected == old(redirected)
      ensures !Truthy(PaymentKey(payment)) ==> orders.docs == old(orders.docs) && orderData == old(orderData)
      ensures Truthy(PaymentKey(payment)) && FirstWhere(old(orders.docs), "razorpayPaymentId", PaymentKey(payment)).Some? ==>
        orders.docs == old(orders.docs) &&
        orderData == FirstWhere(old(orders.docs), "razorpayPaymentId", PaymentKey(payment)).value
      ensures Truthy(PaymentKey(payment)) && FirstWhere(old(orders.docs), "razorpayPaymentId", PaymentKey(payment)).None? ==>
        orders.docs == old(orders.docs) + [Doc(newId, ClientOrder(payment, checkout, PaymentKey(payment), now))] &&
        orderData == AsObject(Doc(newId, ClientOrder(payment, checkout, PaymentKey(payment), now)))
    {
      var pid := PaymentKey(payment);
      if !Truthy(pid) {
        return;
      }
      var existing := FirstWhere(orders.docs, "razorpayPaymentId", pid);
      if existing.Some? {
        orderData := existing.value;
        return;
      }
      var order := ClientOrder(payment, checkout, pid, now);
      ghost var before := orders.docs;
      orders.Add(newId, order);
      WhereAfterAdd(before, Doc(newId, order), "razorpayPaymentId", pid);
      var saved := FirstWhere(orders.docs, "razorpayPaymentId", pid);
      if saved.Some? {
        orderData := saved.value;
      }
    }

    /** `fetchSaved`: look the order up by `razorpayPaymentId`, and by `paymentId` only when that finds nothing. */
    method FetchSaved(payment: Value, orders: Collection)
      modifies this
      ensures emailSent == old(emailSent) && redirected == old(redirected)
      ensures !Truthy(PaymentKey(payment)) ==> orderData == old(orderData)
      ensures Truthy(PaymentKey(payment)) ==>
        orderData == (match FirstWhere(orders.docs, "razorpayPaymentId", PaymentKey(payment))
                      case Some(d) => d
                      case None =>
                        match FirstWhere(orders.docs, "paymentId", PaymentKey(payment))
                        case Some(d) => d
                        case None => old(orderData))
    {
      var pid := PaymentKey(payment);
      if !Truthy(pid) {
        return;
      }
      var first := FirstWhere(orders.docs, "razorpayPaymentId", pid);
      if first.Some? {
        orderData := first.value;
        return;
      }
      var second := FirstWhere(orders.docs, "paymentId", pid);
      if second.Some? {
        orderData := second.value;
      }
    }

    /** The mount effect: redirect, or save and then fetch. */
    method Mount(payment: Value, checkout: Value, orders: Collection, newId: string, now: int)
      requires orders.Valid() && !orders.Has(newId)
      modifies this, orders
      ensures orders.Valid()
      ensures redirected <==> old(redirected) || EntryOf(payment, checkout).RedirectHome?
      ensures EntryOf(payment, checkout).RedirectHome? ==>
        orders.docs == old(orders.docs) && orderData == old(orderData) && emailSent == old(emailSent)
      ensures !Truthy(PaymentKey(payment)) ==> orders.docs == old(orders.docs) && orderData == old(orderData)
      ensures Truthy(PaymentKey(payment)) && EntryOf(payment, checkout).Confirm? ==>
        exists i :: 0 <= i < |orders.docs| && "razorpayPaymentId" in orders.docs[i].data &&
          orders.docs[i].data["razorpayPaymentId"] == PaymentKey(payment)
    {
      if EntryOf(payment, checkout).RedirectHome? {
        redirected := true;
        return;
      }
      SaveOrder(payment, checkout, orders, newId, now);
      if Truthy(PaymentKey(payment)) {
        var pid := PaymentKey(payment);
        var found := Where(orders.docs, "razorpayPaymentId", pid);
        assert found != [] by {
          var existing := FirstWhere(old(orders.docs), "razorpayPaymentId", pid);
          if existing.None? {
            var d := Doc(newId, ClientOrder(payment, checkout, pid, now));
            assert orders.docs[|orders.docs| - 1] == d;
            assert d in Where(orders.docs, "razorpayPaymentId", pid);
          }
        }
        assert found[0] in found;
        var i :| 0 <= i < |orders.docs| && orders.docs[i] == found[0];
      }
      FetchSaved(payment, orders);
    }

    /**
     * The e-mail effect. `status` is `result?.status` of the send (a send that
     * throws counts as a status other than 200); the method answers whether a
     * send was attempted. Building the lines throws into the `catch` before any
     * send when the items cannot be mapped or a price is not a number.
     */
    method SendEmail(checkout: Value, status: Value) returns (attempted: bool)
      modifies this
      ensures attempted <==> (Truthy(old(orderData)) && !old(emailSent) && Truthy(Recipient(old(orderData), checkout)) &&
                              EmailBuildable(old(orderData)))
      ensures emailSent <==> old(emailSent) || (attempted && StrictEq(status, Num(200.0)))
      ensures orderData == old(orderData) && redirected == old(redirected)
    {
      attempted := false;
      if !Truthy(orderData) || emailSent {
        return;
      }
      var recipient := Recipient(orderData, checkout);
      if !Truthy(recipient) {
        return;
      }
      if !EmailBuildable(orderData) {
        return;
      }
      attempted := true;
      if StrictEq(status, Num(200.0)) {
        emailSent := true;
      }
    }
  }

  // ---------------------------------------------------------------- displayed values

  const NotAvailable: Value := Str("N/A")

  /** The total an order records: the stored total when it is not nullish, else the total paid. */
  function DisplayAmount(orderData: Value, payment: Value, checkout: Value): (r: Value)
    ensures !Nullish(Get(orderData, "total")) ==> r == Get(orderData, "total")
    ensures Nullish(Get(orderData, "total")) ==> r == PaidTotal(payment, checkout, Null)
  {
    Coalesce(Get(orderData, "total"), PaidTotal(payment, checkout, Null))
  }

  /** 'Razorpay' whenever a payment id is known, else the checkout's mode, else 'N/A'. */
  function PaymentMode(payment: Value, checkout: Value): (r: Value)
    ensures Truthy(PaymentKey(payment)) ==> r == Str("Razorpay")
    ensures !Truthy(PaymentKey(payment)) ==> r == OrElse([Get(checkout, "paymentMode")], NotAvailable)
    ensures Truthy(r)
  {
    if Truthy(PaymentKey(payment)) then Str("Razorpay") else OrElse([Get(checkout, "paymentMode")], NotAvailable)
  }

  function DisplayPaymentId(payment: Value): (r: Value)
    ensures Truthy(r)
    ensures Truthy(PaymentKey(payment)) ==> r == PaymentKey(payment)
    ensures !Truthy(PaymentKey(payment)) ==> r == NotAvailable
  {
    var vs := [Get(payment, "razorpay_payment_id"), Get(payment, "id")];
    assert !Truthy(vs[0]) && Truthy(vs[1]) ==> forall j :: 0 <= j < 1 ==> !Truthy(vs[j]);
    OrElse(vs, NotAvailable)
  }

  function DisplayOrderId(payment: Value, orderData: Value): (r: Value)
    ensures Truthy(r)
    ensures r in [Get(payment, "razorpay_order_id"), Get(payment, "order_id"), Get(orderData, "razorpayOrderId"), NotAvailable]
  {
    OrElse([Get(payment, "razorpay_order_id"), Get(payment, "order_id"), Get(orderData, "razorpayOrderId")], NotAvailable)
  }

  function DisplayName(orderData: Value, checkout: Value): (r: Value)
    ensures Truthy(r)
    ensures Truthy(Get(Get(orderData, "shipping"), "fullName")) ==> r == Get(Get(orderData, "shipping"), "fullName")
  {
    OrElse([Get(Get(orderData, "shipping"), "fullName"), Get(Get(orderData, "shipping"), "name"),
            Get(checkout, "fullName"), Get(checkout, "name"), Get(orderData, "name")], NotAvailable)
  }

  function DisplayEmail(orderData: Value, checkout: Value): (r: Value)
    ensures Truthy(r)
    ensures Truthy(Recipient(orderData, checkout)) ==> r == Recipient(orderData, checkout)
  {
    var vs := [Get(Get(orderData, "shipping"), "email"), Get(checkout, "email"), Get(orderData, "email")];
    assert !Truthy(vs[0]) && Truthy(vs[1]) ==> forall j :: 0 <= j < 1 ==> !Truthy(vs[j]);
    OrElse(vs, NotAvailable)
  }

  function DisplayAddress(orderData: Value, checkout: Value): (r: Value)
    ensures Truthy(r)
    ensures Truthy(Get(orderData, "address")) ==> r == Get(orderData, "address")
  {
    OrElse([Get(orderData, "address"), Get(Get(orderData, "shipping"), "address"), Get(checkout, "address")], NotAvailable)
  }
}
