/**
 * The order list (src/components/OrdersPage.jsx): one row per order with its
 * amount, payment badge, status and first product name.
 */
module OrdersPage {
  import opened JsValue
  import OrderDetails

  /** `formatAmount(raw)` on this page: numbers are shown as rupees, with no paise rule. */
  function FormatAmount(raw: Value): (r: OrderDetails.AmountText)
    ensures r.NotAvailable? <==> Nullish(raw)
    ensures raw.Num? || raw.NaN? ==> r == OrderDetails.TwoDecimals(raw)
    ensures !Nullish(raw) && !raw.Num? && !raw.NaN? ==> r == OrderDetails.AsText(ToStr(raw))
  {
    if Nullish(raw) then OrderDetails.NotAvailable
    else if raw.Num? || raw.NaN? then OrderDetails.TwoDecimals(raw)
    else OrderDetails.AsText(ToStr(raw))
  }

  /** The amount a row shows: `formatAmount(o.total || o.amount)`. */
  function RowAmount(o: Value): OrderDetails.AmountText {
    FormatAmount(Or(Get(o, "total"), Get(o, "amount")))
  }

  /** The list and the order page agree on amounts up to 1000 and differ by a factor of 100 above. */
  lemma PagesAgreeUpToAThousand(x: real)
    ensures x <= 1000.0 ==> FormatAmount(Num(x)) == OrderDetails.FormatAmount(Num(x))
    ensures x > 1000.0 ==> FormatAmount(Num(x)).rupees.n == 100.0 * OrderDetails.FormatAmount(Num(x)).rupees.n
  {
  }

  /** 'Success' when any payment id field is set, else 'Pending'. */
  function PaymentBadge(o: Value): (r: string)
    ensures r == "Success" <==> OrderDetails.HasPaymentId(o)
    ensures r == "Success" || r == "Pending"
  {
    var id := Or(Or(Or(Get(o, "razorpayPaymentId"), Get(o, "razorpay_payment_id")), Get(o, "paymentId")), Get(o, "payment_id"));
    if Truthy(id) then "Success" else "Pending"
  }

  /** The row's status: the same rule as the order page, so never 'Completed'. */
  function RowStatus(o: Value): (r: Value)
    ensures r == OrderDetails.DisplayStatus(OrderDetails.StatusRaw(o))
    ensures Truthy(r)
  {
    var s := Or(Or(Get(o, "status"), Get(o, "paymentStatus")), Str(""));
    OrderDetails.DisplayStatus(s)
  }

  /** The first element of a non-empty items array, the first character of a non-empty items string, else null. */
  function FirstItem(o: Value): (r: Value)
    ensures Get(o, "items").Arr? && Get(o, "items").elems != [] ==> r == Get(o, "items").elems[0]
    ensures Get(o, "items").Str? && Get(o, "items").s != "" ==> r == Str([Get(o, "items").s[0]])
    ensures (!(Get(o, "items").Arr? && Get(o, "items").elems != []) &&
             !(Get(o, "items").Str? && Get(o, "items").s != "")) ==> r == Null
  {
    var items := Get(o, "items");
    if items.Arr? && items.elems != [] then items.elems[0]
    else if items.Str? && items.s != "" then Str([items.s[0]])
    else Null
  }

  /** The name an order row shows: the first item's name or product name, 'Product', or 'Order' without an item. */
  function FirstProductName(o: Value): (r: Value)
    ensures Truthy(r)
    ensures !Truthy(FirstItem(o)) ==> r == Str("Order")
    ensures Truthy(FirstItem(o)) ==>
      r == OrElse([Get(FirstItem(o), "name"), Get(FirstItem(o), "productName")], Str("Product"))
  {
    var first := FirstItem(o);
    if Truthy(first) then OrElse([Get(first, "name"), Get(first, "productName")], Str("Product"))
    else Str("Order")
  }

  /** An order without items is labelled 'Order'; a first item with neither name field, 'Product'. */
  lemma FirstNameFallbacks(o: Value)
    ensures ((!Get(o, "items").Arr? || Get(o, "items").elems == []) && (!Get(o, "items").Str? || Get(o, "items").s == "")) ==>
      FirstProductName(o) == Str("Order")
    ensures Get(o, "items").Str? && Get(o, "items").s != "" ==> FirstProductName(o) == Str("Product")
    ensures Truthy(FirstItem(o)) && !Truthy(Get(FirstItem(o), "name")) && !Truthy(Get(FirstItem(o), "productName")) ==>
      FirstProductName(o) == Str("Product")
  {
  }
}
