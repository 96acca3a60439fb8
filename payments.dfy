/**
 * The payment endpoints of the cloud functions: creating a gateway order for
 * an amount, and verifying a completed payment's signature before the order
 * is recorded.  The HMAC-SHA256 hex digest is a parameter (`hmac(key, text)`),
 * and so is the clock.
 */
module Payments {
  import opened Text
  import opened Wrappers
  import opened JsValue
  import opened Firestore

  /** An HTTP reply: its status code and JSON body. */
  datatype Response = Response(status: nat, body: Value)

  function Json(status: nat, fields: map<string, Value>): Response {
    Response(status, Obj(fields))
  }

  /** What the handler asks the gateway to create. */
  datatype GatewayOrderRequest = GatewayOrderRequest(amount: real, currency: Value, receipt: string)

  /** The amount guard: `!amount || typeof amount !== 'number' || amount <= 0` rejects. */
  predicate AmountRejected(amount: Value) {
    !Truthy(amount) || TypeOf(amount) != "number" || Le(amount, Num(0.0))
  }

  /** The guard lets through exactly the positive numbers. */
  lemma AmountGuard(amount: Value)
    ensures !AmountRejected(amount) <==> amount.Num? && amount.n > 0.0
  {
  }

  /** The gateway client exists only when the configuration has both keys. */
  predicate RazorpayConfigured(cfg: Value) {
    Truthy(cfg) && Truthy(Get(cfg, "key_id")) && Truthy(Get(cfg, "key_secret"))
  }

  /**
   * `createRazorpayOrder`: the gateway request it makes, if any, and its reply;
   * `gateway` is what the gateway answers (an order, or the error it threw).
   */
  function CreateRazorpayOrder(verb: string, body: Value, cfg: Value, now: int, gateway: Result<Value, Value>)
    : (r: (Option<GatewayOrderRequest>, Response))
    ensures r.0.Some? <==> verb == "POST" && Get(body, "amount").Num? && Get(body, "amount").n > 0.0 && RazorpayConfigured(cfg)
    ensures r.0.Some? ==> r.0.value.amount == 100.0 * Get(body, "amount").n && r.0.value.amount > 0.0
    ensures r.0.Some? ==> r.0.value.currency == (if Get(body, "currency").Undefined? then Str("INR") else Get(body, "currency"))
    ensures verb != "POST" ==> r.1.status == 405
    ensures verb == "POST" && !(Get(body, "amount").Num? && Get(body, "amount").n > 0.0) ==>
      r.1 == Json(400, map["error" := Str("Invalid amount.")])
    ensures r.1.status == 200 <==> r.0.Some? && gateway.Ok?
    ensures r.1.status == 200 ==> r.1.body == gateway.value
  {
    var amount := Get(body, "amount");
    var currency := if Get(body, "currency").Undefined? then Str("INR") else Get(body, "currency");
    AmountGuard(amount);
    if verb != "POST" then (None, Response(405, Str("Method Not Allowed")))
    else if AmountRejected(amount) then (None, Json(400, map["error" := Str("Invalid amount.")]))
    else if !RazorpayConfigured(cfg) then (None, Json(500, map["error" := Str("Razorpay keys not configured")]))
    else
      var request := GatewayOrderRequest(amount.n * 100.0, currency, "receipt_" + IntToDecimal(now));
      match gateway
      case Ok(order) => (Some(request), Response(200, order))
      case Err(_) => (Some(request), Json(500, map["error" := Str("Failed to create order on payment gateway.")]))
  }

  // ---------------------------------------------------------------- verification

  /** What verification decides before anything is written. */
  datatype Verdict =
    | Reject(response: Response)
    | Accept(order: map<string, Value>)
    | Crash   // the HMAC call throws (a key that is not a string): the handler answers 500

  /** `key_secret`: read from the gateway configuration, null when it is absent. */
  function KeySecret(cfg: Value): Value {
    if Truthy(cfg) then Get(cfg, "key_secret") else Null
  }

  /** The text that is signed: `orderId + "|" + paymentId`. */
  function SignedText(body: Value): string {
    ToStr(Add(Add(Get(body, "orderId"), Str("|")), Get(body, "paymentId")))
  }

  /** The order document a verified payment records. */
  function VerifiedOrder(body: Value, now: int): map<string, Value> {
    map[
      "userId" := Get(body, "userId"),
      "items" := Get(body, "cartItems"),
      "date" := Stamp(now),
      "total" := Get(body, "total"),
      "status" := Str("In Process"),
      "shipping" := Get(body, "shippingForm"),
      "razorpayPaymentId" := Get(body, "paymentId"),
      "razorpayOrderId" := Get(body, "orderId"),
      "razorpaySignature" := Get(body, "signature")
    ]
  }

  predicate DetailsPresent(body: Value, cfg: Value) {
    Truthy(Get(body, "orderId")) && Truthy(Get(body, "paymentId")) && Truthy(Get(body, "signature"))
    && Truthy(KeySecret(cfg)) && Truthy(Get(body, "userId"))
  }

  /** `verifyRazorpayPayment` up to the first write: which reply, or which order to record. */
  function VerifyDecision(verb: string, body: Value, cfg: Value, now: int, hmac: (string, string) -> string): (v: Verdict)
    ensures verb != "POST" ==> v.Reject? && v.response.status == 405
    ensures verb == "POST" && !DetailsPresent(body, cfg) ==>
      v == Reject(Json(400, map["status" := Str("failure"), "message" := Str("Missing required details.")]))
    ensures v.Accept? ==> verb == "POST" && DetailsPresent(body, cfg) && KeySecret(cfg).Str?
    ensures v.Accept? ==> Get(body, "signature") == Str(hmac(KeySecret(cfg).s, SignedText(body)))
    ensures v.Accept? ==> v.order == VerifiedOrder(body, now)
    ensures verb == "POST" && DetailsPresent(body, cfg) && !KeySecret(cfg).Str? ==> v == Crash
    ensures verb == "POST" && DetailsPresent(body, cfg) && KeySecret(cfg).Str? &&
            Get(body, "signature") != Str(hmac(KeySecret(cfg).s, SignedText(body))) ==>
      v == Reject(Json(400, map["status" := Str("failure"),
                                "message" := Str("Payment verification failed (Signature Mismatch).")]))
  {
    if verb != "POST" then Reject(Response(405, Str("Method Not Allowed")))
    else if !DetailsPresent(body, cfg) then
      Reject(Json(400, map["status" := Str("failure"), "message" := Str("Missing required details.")]))
    else if !KeySecret(cfg).Str? then Crash
    else
      var expected := hmac(KeySecret(cfg).s, SignedText(body));
      if StrictEq(Str(expected), Get(body, "signature")) then Accept(VerifiedOrder(body, now))
      else Reject(Json(400, map["status" := Str("failure"), "message" := Str("Payment verification failed (Signature Mismatch).")]))
  }

  /** With every detail present and a string key, a payment is accepted exactly when its signature is the HMAC of `orderId|paymentId`. */
  lemma AcceptIffSignatureMatches(body: Value, cfg: Value, now: int, hmac: (string, string) -> string)
    requires DetailsPresent(body, cfg) && KeySecret(cfg).Str?
    ensures VerifyDecision("POST", body, cfg, now, hmac).Accept?
      <==> Get(body, "signature") == Str(hmac(KeySecret(cfg).s, SignedText(body)))
  {
  }

  /** A recorded order is in process and carries the payment's three gateway values. */
  lemma VerifiedOrderShape(body: Value, now: int)
    ensures VerifiedOrder(body, now)["status"] == Str("In Process")
    ensures VerifiedOrder(body, now)["razorpayPaymentId"] == Get(body, "paymentId")
    ensures VerifiedOrder(body, now)["razorpayOrderId"] == Get(body, "orderId")
    ensures VerifiedOrder(body, now)["razorpaySignature"] == Get(body, "signature")
    ensures VerifiedOrder(body, now)["userId"] == Get(body, "userId")
  {
  }

  /**
   * An accepted order can be written exactly when the body carries `cartItems`, `total` and
   * `shippingForm`: the other fields are truthy details or the server time.
   */
  lemma VerifiedOrderWritable(body: Value, cfg: Value, now: int)
    requires DetailsPresent(body, cfg)
    ensures NoUndefinedField(VerifiedOrder(body, now)) <==>
      !Get(body, "cartItems").Undefined? && !Get(body, "total").Undefined? && !Get(body, "shippingForm").Undefined?
  {
    var order := VerifiedOrder(body, now);
    assert order["items"] == Get(body, "cartItems") && order["total"] == Get(body, "total");
    assert order["shipping"] == Get(body, "shippingForm");
  }

  /** The catch-all reply of the verification handler. */
  const InternalError := Json(500, map["status" := Str("failure"), "message" := Str("Internal server error.")])

  /** The reply after every write went through. */
  const Success := Json(200, map["status" := Str("success")])

  /** The verified order is accepted and the database takes it. */
  predicate OrderWritten(verb: string, body: Value, cfg: Value, now: int, hmac: (string, string) -> string) {
    VerifyDecision(verb, body, cfg, now, hmac).Accept? && NoUndefinedField(VerifiedOrder(body, now))
  }

  /** What the verification handler does: the order it records, the address it saves under a user id, and its reply. */
  datatype Handled = Handled(order: Option<map<string, Value>>, address: Option<(string, Value)>, reply: Response)

  /**
   * The effect of `verifyRazorpayPayment`.  The order write throws on a body without
   * `cartItems`, `total` or `shippingForm`, and the address write on a user id that is
   * not a string; the catch then answers 500.
   */
  function Handling(verb: string, body: Value, cfg: Value, now: int, hmac: (string, string) -> string): (h: Handled)
    ensures h.order.Some? <==> OrderWritten(verb, body, cfg, now, hmac)
    ensures h.order.Some? ==> h.order.value == VerifiedOrder(body, now)
    ensures VerifyDecision(verb, body, cfg, now, hmac).Reject? ==> h.reply == VerifyDecision(verb, body, cfg, now, hmac).response
    ensures VerifyDecision(verb, body, cfg, now, hmac).Crash? ==> h.reply == InternalError
    ensures VerifyDecision(verb, body, cfg, now, hmac).Accept? && !NoUndefinedField(VerifiedOrder(body, now)) ==> h.reply == InternalError
    ensures h.address.Some? <==> OrderWritten(verb, body, cfg, now, hmac) && Truthy(Get(body, "saveForFuture")) && Get(body, "userId").Str?
    ensures h.address.Some? ==> h.address.value == (Get(body, "userId").s, Get(body, "shippingForm"))
    ensures h.reply.status == 200 <==> OrderWritten(verb, body, cfg, now, hmac) && (!Truthy(Get(body, "saveForFuture")) || Get(body, "userId").Str?)
    ensures h.reply.status == 200 ==> h.reply == Success
  {
    match VerifyDecision(verb, body, cfg, now, hmac)
    case Reject(r) => Handled(None, None, r)
    case Crash => Handled(None, None, InternalError)
    case Accept(order) =>
      var userId := Get(body, "userId");
      if !NoUndefinedField(order) then Handled(None, None, InternalError)
      else if !Truthy(Get(body, "saveForFuture")) then Handled(Some(order), None, Success)
      else if userId.Str? then Handled(Some(order), Some((userId.s, Get(body, "shippingForm"))), Success)
      else Handled(Some(order), None, InternalError)
  }

  /**
   * `verifyRazorpayPayment`: checks the request and the signature, records the
   * order under the fresh id `newId`, and, when asked, saves the shipping form
   * as the user's address; the writes and the reply are those of `Handling`.
   */
  method VerifyRazorpayPayment(verb: string, body: Value, cfg: Value, now: int, hmac: (string, string) -> string,
                               newId: string, orders: Collection, users: Collection)
    returns (res: Response)
    requires orders.Valid() && users.Valid() && orders != users && !orders.Has(newId)
    modifies orders, users
    ensures orders.Valid() && users.Valid()
    ensures var h := Handling(verb, body, cfg, now, hmac);
      orders.docs == old(orders.docs) + (if h.order.Some? then [Doc(newId, h.order.value)] else []) &&
      users.docs == (if h.address.Some? then Merged(old(users.docs), h.address.value.0, map["address" := h.address.value.1])
                     else old(users.docs)) &&
      res == h.reply
  {
    var verdict := VerifyDecision(verb, body, cfg, now, hmac);
    ghost var h := Handling(verb, body, cfg, now, hmac);
    match verdict {
      case Reject(r) =>
        assert h == Handled(None, None, r);
        res := r;
      case Crash =>
        assert h == Handled(None, None, InternalError);
        res := InternalError;
      case Accept(order) =>
        if !NoUndefinedField(order) {
          assert h == Handled(None, None, InternalError);
          res := InternalError;
          return;
        }
        orders.Add(newId, order);
        var userId := Get(body, "userId");
        if Truthy(Get(body, "saveForFuture")) {
          if userId.Str? {
            assert h == Handled(Some(order), Some((userId.s, Get(body, "shippingForm"))), Success);
            users.SetMerge(userId.s, map["address" := Get(body, "shippingForm")]);
            res := Success;
          } else {
            assert h == Handled(Some(order), None, InternalError);
            res := InternalError;
          }
        } else {
          assert h == Handled(Some(order), None, Success);
          res := Success;
        }
    }
  }
}
