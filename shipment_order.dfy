/**
 * The second `createShiprocketOrder` of the cloud functions, the one that is
 * served: it is assigned to the same export after the first one, so it
 * replaces it.  It refuses the request (`{ success: false, message }`) unless
 * every required field is truthy, every line has a name, sku, units and price,
 * the order date reads `YYYY-MM-DD HH:MM` and the pickup location is `Home`;
 * only then is the payload built with `||` fallbacks and sent to the carrier.
 */
module ShipmentOrder {
  import opened Text
  import opened Wrappers
  import opened JsValue
  import opened CarrierCall
  import opened ShipmentSanitizer

  /** `data.orderData || {}`, for a `data` that is not null or undefined. */
  function OrderOf(data: Value): Value {
    Or(Get(data, "orderData"), Obj(map[]))
  }

  // ---------------------------------------------------------------- required fields

  /** The fields checked, in the order they are checked. */
  const RequiredFields: seq<string> := [
    "order_id", "order_date", "pickup_location",
    "billing_customer_name", "billing_address", "billing_city", "billing_pincode",
    "billing_state", "billing_country", "billing_email", "billing_phone",
    "order_items", "payment_method", "sub_total"]

  /** `!v || (Array.isArray(v) && !v.length)` */
  predicate FieldMissing(v: Value) {
    !Truthy(v) || (v.Arr? && v.elems == [])
  }

  /** The first of `fields` that the order lacks. */
  function FirstMissing(order: Value, fields: seq<string>): (r: Option<string>)
    ensures r.None? <==> forall i :: 0 <= i < |fields| ==> !FieldMissing(Get(order, fields[i]))
    ensures r.Some? ==> exists i :: 0 <= i < |fields| && fields[i] == r.value && FieldMissing(Get(order, r.value))
                                   && (forall j :: 0 <= j < i ==> !FieldMissing(Get(order, fields[j])))
  {
    if fields == [] then None
    else if FieldMissing(Get(order, fields[0])) then Some(fields[0])
    else
      var r := FirstMissing(order, fields[1..]);
      assert forall i :: 1 <= i < |fields| ==> fields[i] == fields[1..][i - 1];
      if r.Some? then
        var i :| 0 <= i < |fields| - 1 && fields[1..][i] == r.value && FieldMissing(Get(order, r.value))
          && forall j :: 0 <= j < i ==> !FieldMissing(Get(order, fields[1..][j]));
        assert fields[i + 1] == r.value;
        r
      else r
  }

  /** The `for ... of requiredFields` loop, which returns at the first missing field. */
  method FindMissingField(order: Value) returns (missing: Option<string>)
    ensures missing == FirstMissing(order, RequiredFields)
  {
    var fields := RequiredFields;
    var i := 0;
    while i < |fields|
      invariant 0 <= i <= |fields|
      invariant FirstMissing(order, fields) == FirstMissing(order, fields[i..])
    {
      var field := fields[i];
      FirstMissingFrom(order, fields, i);
      if FieldMissing(Get(order, field)) {
        return Some(field);
      }
      i := i + 1;
    }
    return None;
  }

  /** The scan from position `i` stops there when that field is missing, and goes on to the next one otherwise. */
  lemma FirstMissingFrom(order: Value, fields: seq<string>, i: nat)
    requires i < |fields|
    ensures FieldMissing(Get(order, fields[i])) ==> FirstMissing(order, fields[i..]) == Some(fields[i])
    ensures !FieldMissing(Get(order, fields[i])) ==> FirstMissing(order, fields[i..]) == FirstMissing(order, fields[i + 1..])
  {
    assert fields[i..][0] == fields[i];
    assert fields[i..][1..] == fields[i + 1..];
  }

  // ---------------------------------------------------------------- lines

  /** An incomplete line: one without a name, SKU, units or selling price. */
  predicate Incomplete(item: Value) {
    !Truthy(Get(item, "name")) || !Truthy(Get(item, "sku")) || !Truthy(Get(item, "units")) || !Truthy(Get(item, "selling_price"))
  }

  /** How the loop over the lines ends. */
  datatype LinesVerdict =
    | AllComplete
    | SomeIncomplete
    | Crash(error: Failure)   // a null line, or lines that cannot be iterated

  /** What `for ... of` visits: an array's elements, a string's characters; anything else throws. */
  function Iterated(v: Value): Option<seq<Value>> {
    match v
    case Arr(e) => Some(e)
    case Str(s) => Some(seq(|s|, i requires 0 <= i < |s| => Str([s[i]])))
    case _ => None
  }

  /** The verdict on the lines, scanning from the first. */
  function LinesCheck(items: seq<Value>): (r: LinesVerdict)
    ensures r == AllComplete <==> forall i :: 0 <= i < |items| ==> !Nullish(items[i]) && !Incomplete(items[i])
    ensures r.Crash? ==> exists i :: 0 <= i < |items| && Nullish(items[i]) && r.error == ReadError(items[i], "name")
  {
    if items == [] then AllComplete
    else if Nullish(items[0]) then Crash(ReadError(items[0], "name"))
    else if Incomplete(items[0]) then SomeIncomplete
    else
      var r := LinesCheck(items[1..]);
      assert forall i :: 1 <= i < |items| ==> items[i] == items[1..][i - 1];
      r
  }

  /** The `for (const item of order.order_items)` loop, which returns at the first incomplete line. */
  method CheckLines(items: seq<Value>) returns (v: LinesVerdict)
    ensures v == LinesCheck(items)
  {
    var i := 0;
    while i < |items|
      invariant 0 <= i <= |items|
      invariant LinesCheck(items) == LinesCheck(items[i..])
    {
      var item := items[i];
      if Nullish(item) {
        return Crash(ReadError(item, "name"));
      }
      if Incomplete(item) {
        return SomeIncomplete;
      }
      assert items[i..][1..] == items[i + 1..];
      i := i + 1;
    }
    return AllComplete;
  }

  // ---------------------------------------------------------------- the date and the pickup

  /** `/^\d{4}-\d{2}-\d{2} \d{2}:\d{2}$/` */
  predicate DateShaped(s: string) {
    |s| == 16
    && IsDigit(s[0]) && IsDigit(s[1]) && IsDigit(s[2]) && IsDigit(s[3]) && s[4] == '-'
    && IsDigit(s[5]) && IsDigit(s[6]) && s[7] == '-'
    && IsDigit(s[8]) && IsDigit(s[9]) && s[10] == ' '
    && IsDigit(s[11]) && IsDigit(s[12]) && s[13] == ':'
    && IsDigit(s[14]) && IsDigit(s[15])
  }

  /** A calendar date `YYYY-MM-DD` at noon, the date the first handler defaults to, has the required shape. */
  lemma NoonDateShaped(d: string)
    requires |d| == 10 && d[4] == '-' && d[7] == '-'
    requires forall i :: 0 <= i < 10 && i != 4 && i != 7 ==> IsDigit(d[i])
    ensures DateShaped(d + " 12:00")
  {
    var s := d + " 12:00";
    assert forall i :: 0 <= i < 10 ==> s[i] == d[i];
  }

  /** The only pickup nickname accepted. */
  const AllowedPickups: seq<Value> := [Str("Home")]

  /** The pickup location is one of the allowed ones. */
  predicate PickupAllowed(v: Value) {
    exists i :: 0 <= i < |AllowedPickups| && StrictEq(AllowedPickups[i], v)
  }

  lemma PickupAllowedIffHome(v: Value)
    ensures PickupAllowed(v) <==> v == Str("Home")
  {
    if v == Str("Home") {
      assert StrictEq(AllowedPickups[0], v);
    }
  }

  // ---------------------------------------------------------------- validation

  /** The verdict of the loop over the lines, or `None` when they cannot be iterated. */
  function LinesVerdictOf(order: Value): Option<LinesVerdict> {
    match Iterated(Get(order, "order_items"))
    case None => None
    case Some(items) => Some(LinesCheck(items))
  }

  const IncompleteLineMessage := "Each order item must have name, sku, units, selling_price"
  const DateMessage := "order_date must be in YYYY-MM-DD HH:MM format"
  const PickupMessage := "pickup_location must be a known nickname (e.g. \"Home\")"

  /** Where validation stops. */
  datatype Verdict =
    | Pass
    | Refused(message: string)
    | Fault(error: Failure)   // thrown outside the `try`

  /** The four checks, in order. */
  function Validation(order: Value): (v: Verdict)
    ensures v == Pass ==> FirstMissing(order, RequiredFields).None?
    ensures v == Pass ==> Get(order, "order_items").Arr? && LinesCheck(Get(order, "order_items").elems) == AllComplete
    ensures v == Pass ==> DateShaped(ToStr(Get(order, "order_date"))) && Get(order, "pickup_location") == Str("Home")
    ensures FirstMissing(order, RequiredFields).Some? ==> v == Refused("Missing required field: " + FirstMissing(order, RequiredFields).value)
    ensures (FirstMissing(order, RequiredFields).None? && Get(order, "order_items").Arr? &&
             LinesCheck(Get(order, "order_items").elems) == AllComplete &&
             DateShaped(ToStr(Get(order, "order_date"))) && Get(order, "pickup_location") == Str("Home")) ==> v == Pass
    ensures FirstMissing(order, RequiredFields).None? && LinesVerdictOf(order) == Some(SomeIncomplete) ==>
      v == Refused(IncompleteLineMessage)
    ensures (FirstMissing(order, RequiredFields).None? && LinesVerdictOf(order) == Some(AllComplete) &&
             !DateShaped(ToStr(Get(order, "order_date")))) ==> v == Refused(DateMessage)
    ensures (FirstMissing(order, RequiredFields).None? && LinesVerdictOf(order) == Some(AllComplete) &&
             DateShaped(ToStr(Get(order, "order_date"))) && Get(order, "pickup_location") != Str("Home")) ==>
      v == Refused(PickupMessage)
    ensures v.Fault? <==>
      FirstMissing(order, RequiredFields).None? && (LinesVerdictOf(order).None? || LinesVerdictOf(order).value.Crash?)
  {
    var fields := RequiredFields;
    assert fields[11] == "order_items";
    ChecksAfter(order, fields, FirstMissing(order, fields))
  }

  /** The three checks after the field check, for a field list that names the lines. */
  function ChecksAfter(order: Value, fields: seq<string>, missing: Option<string>): (v: Verdict)
    requires "order_items" in fields && missing == FirstMissing(order, fields)
    ensures v == Pass ==> missing.None?
    ensures v == Pass ==> Get(order, "order_items").Arr? && LinesCheck(Get(order, "order_items").elems) == AllComplete
    ensures v == Pass ==> DateShaped(ToStr(Get(order, "order_date"))) && Get(order, "pickup_location") == Str("Home")
    ensures missing.Some? ==> v == Refused("Missing required field: " + missing.value)
    ensures (missing.None? && Get(order, "order_items").Arr? &&
             LinesCheck(Get(order, "order_items").elems) == AllComplete &&
             DateShaped(ToStr(Get(order, "order_date"))) && Get(order, "pickup_location") == Str("Home")) ==> v == Pass
    ensures missing.None? && LinesVerdictOf(order) == Some(SomeIncomplete) ==>
      v == Refused(IncompleteLineMessage)
    ensures (missing.None? && LinesVerdictOf(order) == Some(AllComplete) &&
             !DateShaped(ToStr(Get(order, "order_date")))) ==> v == Refused(DateMessage)
    ensures (missing.None? && LinesVerdictOf(order) == Some(AllComplete) &&
             DateShaped(ToStr(Get(order, "order_date"))) && Get(order, "pickup_location") != Str("Home")) ==>
      v == Refused(PickupMessage)
    ensures v.Fault? <==>
      missing.None? && (LinesVerdictOf(order).None? || LinesVerdictOf(order).value.Crash?)
  {
    PickupAllowedIffHome(Get(order, "pickup_location"));
    match missing
    case Some(field) => Refused("Missing required field: " + field)
    case None =>
      match Iterated(Get(order, "order_items"))
      case None => Fault(PlainError("order.order_items is not iterable"))
      case Some(items) =>
        match LinesCheck(items)
        case Crash(e) => Fault(e)
        case SomeIncomplete => Refused(IncompleteLineMessage)
        case AllComplete =>
          if !DateShaped(ToStr(Get(order, "order_date"))) then Refused(DateMessage)
          else if !PickupAllowed(Get(order, "pickup_location")) then Refused(PickupMessage)
          else
            LinesOfPassingOrder(order, items);
            Pass
  }

  /** Lines that pass the check are an array: a non-empty string's first character has no name. */
  lemma LinesOfPassingOrder(order: Value, items: seq<Value>)
    requires !FieldMissing(Get(order, "order_items"))
    requires Iterated(Get(order, "order_items")) == Some(items) && LinesCheck(items) == AllComplete
    ensures Get(order, "order_items").Arr? && Get(order, "order_items").elems == items
  {
  }

  /** The checks as the handler runs them, each returning early. */
  method Validate(order: Value) returns (v: Verdict)
    ensures v == Validation(order)
  {
    var missing := FindMissingField(order);
    assert Validation(order) == ChecksAfter(order, RequiredFields, missing);
    if missing.Some? {
      return Refused("Missing required field: " + missing.value);
    }
    var lines := Iterated(Get(order, "order_items"));
    if lines.None? {
      return Fault(PlainError("order.order_items is not iterable"));
    }
    var verdict := CheckLines(lines.value);
    if verdict.Crash? {
      return Fault(verdict.error);
    }
    if verdict == SomeIncomplete {
      return Refused(IncompleteLineMessage);
    }
    if !DateShaped(ToStr(Get(order, "order_date"))) {
      return Refused(DateMessage);
    }
    if !PickupAllowed(Get(order, "pickup_location")) {
      return Refused(PickupMessage);
    }
    return Pass;
  }

  // ---------------------------------------------------------------- the payload

  /** One line of the payload. */
  datatype LinePayload = LinePayload(name: Value, sku: Value, units: Value, sellingPrice: Value,
                                     discount: Value, tax: Value, hsn: Value)

  /** The payload sent to the carrier. */
  datatype Payload = Payload(
    orderId: Value, orderDate: Value, pickup: Value, channelId: Value, comment: Value,
    billing: PartyInput, shippingIsBilling: bool, shipping: PartyInput,
    items: seq<LinePayload>, paymentMethod: Value,
    shippingCharges: Value, giftwrapCharges: Value, transactionCharges: Value, totalDiscount: Value, subTotal: Value,
    length: Value, breadth: Value, height: Value, weight: Value)

  /** The billing fields as sent: as given, the last name and second line defaulting to ''. */
  function BillingPayload(order: Value): (b: PartyInput)
    ensures forall f :: f != LastName && f != Address2 ==> InputOf(b, f) == Get(order, Key(Billing, f))
  {
    var given := ReadParty(order, Billing);
    given.(lastName := Or(given.lastName, Str("")), address2 := Or(given.address2, Str("")))
  }

  /** The shipping fields as sent: each falls back to the billing field (`order.shipping_city || order.billing_city`). */
  function ShippingPayload(order: Value): PartyInput {
    var s := ReadParty(order, Shipping);
    var b := ReadParty(order, Billing);
    PartyInput(Or(s.name, b.name), Or(s.lastName, Str("")), Or(s.address, b.address), Or(s.address2, Str("")),
               Or(s.city, b.city), Or(s.pincode, b.pincode), Or(s.state, b.state), Or(s.country, b.country),
               Or(s.email, b.email), Or(s.phone, b.phone))
  }

  /** A shipping field is the request's when that is truthy, and the billing field otherwise. */
  lemma ShippingFallsBack(order: Value, f: PartyField)
    requires f != LastName && f != Address2
    ensures InputOf(ShippingPayload(order), f) ==
      (if Truthy(Get(order, Key(Shipping, f))) then Get(order, Key(Shipping, f)) else Get(order, Key(Billing, f)))
  {
  }

  /** The second line and last name default to '' on both sides. */
  lemma OptionalFieldsDefault(order: Value, side: Side, f: PartyField)
    requires f == LastName || f == Address2
    ensures var p := if side == Billing then BillingPayload(order) else ShippingPayload(order);
      InputOf(p, f) == Or(Get(order, Key(side, f)), Str(""))
  {
  }

  /** The request's lines, each rebuilt from its fields. */
  function LineOf(item: Value): LinePayload {
    LinePayload(Get(item, "name"), Get(item, "sku"), Get(item, "units"), Get(item, "selling_price"),
                Or(Get(item, "discount"), Num(0.0)), Or(Get(item, "tax"), Num(0.0)), Or(Get(item, "hsn"), Num(0.0)))
  }

  function LinesOf(items: seq<Value>): (r: seq<LinePayload>)
    ensures |r| == |items| && forall i :: 0 <= i < |items| ==> r[i] == LineOf(items[i])
  {
    seq(|items|, i requires 0 <= i < |items| => LineOf(items[i]))
  }

  /** The payload, for an order that passed validation. */
  function BuildPayload(order: Value): (p: Payload)
    requires Get(order, "order_items").Arr?
    ensures |p.items| == |Get(order, "order_items").elems|
    ensures p.shippingIsBilling <==> Get(order, "shipping_is_billing") != Bool(false)
  {
    Payload(
      Get(order, "order_id"), Get(order, "order_date"), Get(order, "pickup_location"),
      Or(Get(order, "channel_id"), Str("")), Or(Get(order, "comment"), Str("Order from Bold & Brew")),
      BillingPayload(order), Get(order, "shipping_is_billing") != Bool(false), ShippingPayload(order),
      LinesOf(Get(order, "order_items").elems), Get(order, "payment_method"),
      Or(Get(order, "shipping_charges"), Num(0.0)), Or(Get(order, "giftwrap_charges"), Num(0.0)),
      Or(Get(order, "transaction_charges"), Num(0.0)), Or(Get(order, "total_discount"), Num(0.0)),
      Get(order, "sub_total"),
      Or(Get(order, "length"), Num(15.0)), Or(Get(order, "breadth"), Num(15.0)),
      Or(Get(order, "height"), Num(15.0)), Or(Get(order, "weight"), Num(0.5)))
  }

  /** Package dimensions and weight: the request's when truthy, else 15 x 15 x 15 and 0.5. */
  lemma PackageDefaults(order: Value)
    requires Get(order, "order_items").Arr?
    ensures var p := BuildPayload(order);
      p.length == Or(Get(order, "length"), Num(15.0)) && p.breadth == Or(Get(order, "breadth"), Num(15.0))
      && p.height == Or(Get(order, "height"), Num(15.0)) && p.weight == Or(Get(order, "weight"), Num(0.5))
    ensures !Truthy(Get(order, "weight")) ==> BuildPayload(order).weight == Num(0.5)
  {
  }

  // ---------------------------------------------------------------- the reply

  const CreateFallback := "Failed to create Shiprocket order"

  /** The success reply: the carrier's ids and status, overlaid by the carrier's whole reply. */
  function SuccessReply(sr: Value): (r: Value)
    ensures r.Obj?
    ensures sr.Obj? ==> Get(r, "order_id") == Get(sr, "order_id") && Get(r, "shipment_id") == Get(sr, "shipment_id")
    ensures sr.Obj? && "success" !in sr.fields ==> Get(r, "success") == Bool(true)
  {
    Obj(map["success" := Bool(true), "order_id" := Get(sr, "order_id"), "shipment_id" := Get(sr, "shipment_id"),
            "status" := Get(sr, "status")] + Spread(sr))
  }

  /** The failure reply: not a success, the carrier's message, the error's or the fallback, overlaid by the carrier's error body. */
  function FailureReply(f: Failure): (r: Value)
    ensures r.Obj?
    ensures !Truthy(f.responseData) ==> Get(r, "success") == Bool(false)
  {
    var sr := Or(f.responseData, Obj(map[]));
    Obj(map["success" := Bool(false), "message" := Or(Or(Get(sr, "message"), f.message), Str(CreateFallback))] + Spread(sr))
  }

  /** The `try` after validation: the token, the carrier call and the reply. */
  function CarrierReply(token: Result<Value, Failure>, carrier: Result<Value, Failure>): (r: Value)
    ensures token.Err? ==> r == FailureReply(token.error)
    ensures token.Ok? && !Truthy(token.value) ==> r == Refusal("Shiprocket token error.")
    ensures token.Ok? && Truthy(token.value) && carrier.Err? ==> r == FailureReply(carrier.error)
    ensures token.Ok? && Truthy(token.value) && carrier.Ok? && !Nullish(carrier.value) ==> r == SuccessReply(carrier.value)
  {
    match token
    case Err(e) => FailureReply(e)
    case Ok(t) =>
      if !Truthy(t) then Refusal("Shiprocket token error.")
      else
        match carrier
        case Err(e) => FailureReply(e)
        case Ok(sr) => if Nullish(sr) then FailureReply(ReadError(sr, "order_id")) else SuccessReply(sr)
  }

  /** The carrier's error body is spread over the reply, so an error body saying `success: true` is reported as a success. */
  lemma ErrorBodyCanClaimSuccess(token: Value, message: Value)
    requires Truthy(token)
    ensures var body := Obj(map["success" := Bool(true)]);
      Get(CarrierReply(Ok(token), Err(Failure(message, body, Num(400.0)))), "success") == Bool(true)
  {
  }

  // ---------------------------------------------------------------- the handler

  /** Whether the request gets past every check. */
  predicate Accepted(order: Value) {
    Validation(order) == Pass
  }

  /**
   * The live `createShiprocketOrder`.  `token` is what `getShiprocketToken`
   * gives and `carrier` what the order-creation call answers; `sent` is the
   * payload the carrier receives, if it is called.
   */
  method CreateShiprocketOrder(authed: bool, data: Value, token: Result<Value, Failure>, carrier: Result<Value, Failure>)
    returns (sent: Option<Payload>, out: Outcome)
    ensures !authed ==> sent.None? && out == Returned(Refusal("Auth required."))
    ensures authed && Nullish(data) ==> sent.None? && out == Uncaught
    ensures authed && !Nullish(data) && Validation(OrderOf(data)).Refused? ==>
      sent.None? && out == Returned(Refusal(Validation(OrderOf(data)).message))
    ensures authed && !Nullish(data) && Validation(OrderOf(data)).Fault? ==> sent.None? && out == Uncaught
    ensures sent.Some? <==> authed && !Nullish(data) && Accepted(OrderOf(data)) && token.Ok? && Truthy(token.value)
    ensures sent.Some? ==> Get(OrderOf(data), "order_items").Arr? && sent.value == BuildPayload(OrderOf(data))
    ensures authed && !Nullish(data) && Accepted(OrderOf(data)) ==> out == Returned(CarrierReply(token, carrier))
  {
    sent := None;
    if !authed {
      return sent, Returned(Refusal("Auth required."));
    }
    if Nullish(data) {
      return sent, Uncaught;
    }
    var order := OrderOf(data);
    var verdict := Validate(order);
    match verdict {
      case Refused(message) =>
        return sent, Returned(Refusal(message));
      case Fault(_) =>
        return sent, Uncaught;
      case Pass =>
    }
    var payload := BuildPayload(order);
    if token.Ok? && Truthy(token.value) {
      sent := Some(payload);
    }
    out := Returned(CarrierReply(token, carrier));
  }
}
