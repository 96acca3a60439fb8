/**
 * The smaller courier handlers of the cloud functions: listing the pickup
 * addresses (and choosing the pickup nickname), asking for shipment rates,
 * and assigning an airway bill.  The token lookup and the carrier's answers
 * are parameters.
 */
module ShiprocketAux {
  import opened Text
  import opened Wrappers
  import opened JsValue
  import opened CarrierCall
  import opened Seqs

  // ---------------------------------------------------------------- pickup addresses

  /** `addresses.filter(a => ['Home'].includes(a.name))`; reading `name` of a null entry throws. */
  function HomeAddresses(addresses: seq<Value>): (r: Result<seq<Value>, Failure>)
    ensures r.Ok? <==> forall i :: 0 <= i < |addresses| ==> !Nullish(addresses[i])
    ensures r.Ok? ==> forall a :: a in r.value <==> a in addresses && Get(a, "name") == Str("Home")
    ensures r.Ok? ==> |r.value| <= |addresses|
    ensures r.Ok? ==> Subseq(r.value, addresses)
  {
    if addresses == [] then Ok([])
    else if Nullish(addresses[0]) then Err(ReadError(addresses[0], "name"))
    else
      var rest := HomeAddresses(addresses[1..]);
      assert forall i :: 1 <= i < |addresses| ==> addresses[i] == addresses[1..][i - 1];
      if rest.Err? then rest
      else
        assert ([addresses[0]] + rest.value)[1..] == rest.value;
        if Get(addresses[0], "name") == Str("Home") then Ok([addresses[0]] + rest.value)
        else rest
  }

  /** The addresses a listing reports and the pickup nickname it proposes. */
  datatype PickupChoice = PickupChoice(listed: seq<Value>, configured: Value)

  predicate SomeHome(addresses: seq<Value>) {
    exists a :: a in addresses && Get(a, "name") == Str("Home")
  }

  /**
   * The Home addresses and `Home` when there are any; otherwise every address,
   * with the first one's name (or `Home`) proposed.  Anything but an array has
   * no `filter` and throws.
   */
  function ChoosePickup(addresses: Value): (r: Result<PickupChoice, Failure>)
    ensures r.Ok? <==> addresses.Arr? && forall i :: 0 <= i < |addresses.elems| ==> !Nullish(addresses.elems[i])
    ensures r.Ok? ==> Truthy(r.value.configured)
    ensures r.Ok? && SomeHome(addresses.elems) ==>
      && r.value.configured == Str("Home")
      && r.value.listed != []
      && forall a :: a in r.value.listed <==> a in addresses.elems && Get(a, "name") == Str("Home")
    ensures r.Ok? && !SomeHome(addresses.elems) ==>
      && r.value.listed == addresses.elems
      && r.value.configured == Or(if addresses.elems == [] then Undefined else Get(addresses.elems[0], "name"), Str("Home"))
  {
    if !addresses.Arr? then Err(PlainError("addresses.filter is not a function"))
    else
      match HomeAddresses(addresses.elems)
      case Err(e) => Err(e)
      case Ok(filtered) =>
        if filtered != [] then
          assert filtered[0] in filtered;
          Ok(PickupChoice(filtered, Get(filtered[0], "name")))
        else
          var first := if addresses.elems == [] then Undefined else Get(addresses.elems[0], "name");
          Ok(PickupChoice(addresses.elems, Or(first, Str("Home"))))
  }

  /** `response.data?.data || []`, from the body of the carrier's answer. */
  function AddressesOf(body: Value): Value {
    Or(Get(body, "data"), Arr([]))
  }

  /** The refusal carrying `err.response?.data?.message || err.message || fallback`. */
  function ListingFailure(f: Failure): (r: Value)
    ensures Get(r, "success") == Bool(false) && Truthy(Get(r, "message"))
  {
    Obj(map["success" := Bool(false), "message" := ReportedMessage(f, "Failed to retrieve pickup addresses.")])
  }

  /**
   * `listPickupAddresses`: `token` is what the token lookup yields and `response`
   * what the carrier answers to the listing request.
   */
  function ListPickupAddresses(authed: bool, token: Result<Value, Failure>, response: Result<Value, Failure>): (r: Value)
    ensures !authed ==> r == Refusal("Auth required.")
    ensures authed && token.Ok? && !Truthy(token.value) ==> r == Refusal("Shiprocket token error.")
    ensures Get(r, "success") == Bool(true) <==>
      authed && token.Ok? && Truthy(token.value) && response.Ok? && ChoosePickup(AddressesOf(response.value)).Ok?
    ensures Get(r, "success") == Bool(true) ==>
      && Get(r, "addresses") == Arr(ChoosePickup(AddressesOf(response.value)).value.listed)
      && Truthy(Get(r, "configuredPickup"))
    ensures Get(r, "success") != Bool(true) ==> Get(r, "success") == Bool(false) && Truthy(Get(r, "message"))
  {
    if !authed then Refusal("Auth required.")
    else if token.Err? then ListingFailure(token.error)
    else if !Truthy(token.value) then Refusal("Shiprocket token error.")
    else if response.Err? then ListingFailure(response.error)
    else
      match ChoosePickup(AddressesOf(response.value))
      case Err(e) => ListingFailure(e)
      case Ok(c) =>
        Obj(map["success" := Bool(true), "addresses" := Arr(c.listed), "configuredPickup" := c.configured])
  }

  /** When the account has a Home address, the listing proposes `Home` and lists only Home addresses. */
  lemma HomeAddressWins(token: Value, body: Value)
    requires Truthy(token)
    requires AddressesOf(body).Arr? && SomeHome(AddressesOf(body).elems)
    requires forall i :: 0 <= i < |AddressesOf(body).elems| ==> !Nullish(AddressesOf(body).elems[i])
    ensures Get(ListPickupAddresses(true, Ok(token), Ok(body)), "configuredPickup") == Str("Home")
    ensures forall a :: a in Get(ListPickupAddresses(true, Ok(token), Ok(body)), "addresses").elems ==>
      Get(a, "name") == Str("Home")
  {
  }

  // ---------------------------------------------------------------- rates

  /** The serviceability query a rates call sends. */
  datatype RatesQuery = RatesQuery(pickup: string, delivery: string, weight: Value, cod: int)

  /**
   * `parseFloat(data.weight || 0.5) || 0.5`, `String(data.delivery_pincode ||
   * data.pincode || '').trim()`, `String(data.pickup_pincode || '110019')` and
   * `data.cod ? 1 : 0`.
   */
  function RatesQueryOf(data: Value): (q: RatesQuery)
    ensures q.weight.Num? && q.weight.n != 0.0
    ensures !Truthy(Get(data, "weight")) ==> q.weight == Num(0.5)
    ensures Trim(q.delivery) == q.delivery
    ensures Get(data, "delivery_pincode").Str? && Truthy(Get(data, "delivery_pincode")) ==>
      q.delivery == Trim(Get(data, "delivery_pincode").s)
    ensures !Truthy(Get(data, "pickup_pincode")) ==> q.pickup == "110019"
    ensures q.cod == (if Truthy(Get(data, "cod")) then 1 else 0)
  {
    RatesQuery(PickupPincode(Get(data, "pickup_pincode")),
               DeliveryPincode(Get(data, "delivery_pincode"), Get(data, "pincode")),
               Weight(Get(data, "weight")),
               if Truthy(Get(data, "cod")) then 1 else 0)
  }

  /** `parseFloat(w || 0.5) || 0.5` */
  function Weight(w: Value): (r: Value)
    ensures r.Num? && r.n != 0.0
    ensures !Truthy(w) ==> r == Num(0.5)
  {
    var parsed := ParseFloat(Or(w, Num(0.5)));
    assert !Truthy(w) ==> parsed == Num(0.5) by {
      if !Truthy(w) {
        assert Or(w, Num(0.5)) == Num(0.5);
        ParseFloatOfHalf();
      }
    }
    Or(parsed, Num(0.5))
  }

  /** The delivery pincode, else the pincode, as trimmed text. */
  function DeliveryPincode(delivery: Value, pincode: Value): (r: string)
    ensures Trim(r) == r
    ensures delivery.Str? && delivery.s != "" ==> r == Trim(delivery.s)
  {
    var text := ToStr(Or(Or(delivery, pincode), Str("")));
    assert delivery.Str? && delivery.s != "" ==> text == delivery.s;
    TrimIdempotent(text);
    Trim(text)
  }

  /** `String(pickup || '110019')` */
  function PickupPincode(pickup: Value): (r: string)
    ensures !Truthy(pickup) ==> r == "110019"
  {
    ToStr(Or(pickup, Str("110019")))
  }

  lemma ParseFloatOfHalf()
    ensures ParseFloat(Num(0.5)) == Num(0.5)
  {
    HalfText();
    HalfPrefix();
    assert TrimStart("0.5") == "0.5" by {
      assert !IsSpace('0');
    }
  }

  lemma HalfText()
    ensures ToStr(Num(0.5)) == "0.5"
  {
    assert (0.5).Floor == 0;
    assert NatToDecimal(0) == "0";
    assert (0.5 * 10.0).Floor == 5;
    assert FracDigits(0.0, 19) == "";
    assert FracDigits(0.5, 20) == "5";
  }

  lemma HalfPrefix()
    ensures DecimalPrefix("0.5") == Some((0.5, 3))
  {
    var s := "0.5";
    assert LeadingDigits(s) == 1 by {
      assert LeadingDigits(s[1..]) == 0;
    }
    assert s[2..] == "5" && LeadingDigits("5") == 1 by {
      assert LeadingDigits("5"[1..]) == 0;
    }
    assert s[..1] == "0" && DigitsValue("0") == 0;
    assert "5"[..1] == "5" && FracValue("5") == 0.5 by {
      assert FracValue("5"[1..]) == 0.0;
    }
    assert UnsignedDecimalPrefix(s) == Some((0.5, 3));
  }

  /** A whole-number weight is sent as that number. */
  lemma IntegerWeightKept(data: Value, k: int)
    requires Get(data, "weight") == Num(k as real) && k != 0
    ensures RatesQueryOf(data).weight == Num(k as real)
  {
    assert RatesQueryOf(data).weight == Weight(Num(k as real));
    WeightOfInteger(k);
  }

  lemma WeightOfInteger(k: int)
    requires k != 0
    ensures Weight(Num(k as real)) == Num(k as real)
  {
    assert Or(Num(k as real), Num(0.5)) == Num(k as real);
    ParseFloatOfInteger(k);
  }

  /** The delivery pincode check: non-empty and six characters long (its digits are not checked). */
  predicate DeliveryValid(delivery: string) {
    delivery != "" && |delivery| == 6
  }

  lemma LowerNotSpace(c: char)
    requires IsLower(c)
    ensures !IsSpace(c)
  {
  }

  /** For a string pincode the check tests only the length of the trimmed text. */
  lemma PincodeCheckIsLength(data: Value, code: string)
    requires Get(data, "delivery_pincode") == Str(code) && code != ""
    ensures DeliveryValid(RatesQueryOf(data).delivery) <==> |Trim(code)| == 6
  {
    assert Truthy(Str(code));
  }

  /** Six letters pass the pincode check. */
  lemma LettersPassPincodeCheck(data: Value, letters: string)
    requires |letters| == 6 && forall i :: 0 <= i < 6 ==> IsLower(letters[i])
    requires Get(data, "delivery_pincode") == Str(letters)
    ensures DeliveryValid(RatesQueryOf(data).delivery)
  {
    LowerNotSpace(letters[0]);
    LowerNotSpace(letters[5]);
    TrimOfTrimmed(letters);
    PincodeCheckIsLength(data, letters);
  }

  /** A pincode without surrounding space fails the check whenever it is not six characters long. */
  lemma WrongLengthFailsCheck(data: Value, code: string)
    requires code != "" && !IsSpace(code[0]) && !IsSpace(code[|code| - 1]) && |code| != 6
    requires Get(data, "delivery_pincode") == Str(code)
    ensures !DeliveryValid(RatesQueryOf(data).delivery)
  {
    TrimOfTrimmed(code);
    PincodeCheckIsLength(data, code);
  }

  /** The serviceability URL, with the pickup and delivery pincodes, the weight and the COD flag as query parameters. */
  function RatesUrl(q: RatesQuery): string {
    "https://apiv2.shiprocket.in/v1/external/courier/serviceability/?pickup_postcode=" + q.pickup
      + "&delivery_postcode=" + q.delivery + "&weight=" + ToStr(q.weight) + "&cod=" + IntToDecimal(q.cod)
  }

  /** A request the handler sent (`None` when it sent none) and what the caller sees. */
  datatype Exchange<R> = Exchange(request: Option<R>, out: Outcome)

  /** The catch of the rates and AWB handlers: `internal`, the fixed text, and `error.response?.data || { message }`. */
  function Caught(f: Failure, text: string): (o: Outcome)
    ensures o.Thrown? && o.code == "internal" && o.message == Str(text) && Truthy(o.details)
    ensures Truthy(f.responseData) ==> o.details == f.responseData
  {
    Thrown("internal", Str(text), Or(f.responseData, Obj(map["message" := f.message])))
  }

  const Unauthenticated: Outcome := Thrown("unauthenticated", Str("Auth required."), Undefined)
  const RatesFailed: string := "Failed to fetch rates"
  const AwbFailed: string := "Failed to assign AWB"
  const BadPincode: string := "Valid delivery_pincode (6 digits) is required"

  /** The rates reply: the query echoed and `resp.data?.data?.available_courier_companies || []`. */
  function RatesReply(q: RatesQuery, body: Value): (r: Value)
    ensures Get(r, "success") == Bool(true) && Get(r, "delivery_postcode") == Str(q.delivery)
    ensures Get(r, "pickup_postcode") == Str(q.pickup) && Get(r, "weight") == q.weight
    ensures Truthy(Get(r, "couriers")) || Get(r, "couriers") == Arr([])
  {
    Obj(map["success" := Bool(true), "pickup_postcode" := Str(q.pickup), "delivery_postcode" := Str(q.delivery),
            "weight" := q.weight, "cod" := Num(q.cod as real),
            "couriers" := Or(Get(Get(body, "data"), "available_courier_companies"), Arr([]))])
  }

  /**
   * `getShipmentRates` as written: the pincode check throws its
   * `invalid-argument` error inside the `try`, whose `catch` replaces it with
   * an `internal` one.
   */
  function GetShipmentRates(authed: bool, data: Value, token: Result<Value, Failure>, carrier: Result<Value, Failure>)
    : (r: Exchange<string>)
    ensures !authed ==> r == Exchange(None, Unauthenticated)
    ensures authed && token.Err? ==> r == Exchange(None, Caught(token.error, RatesFailed))
    ensures authed && token.Ok? && !Nullish(data) ==> r == RatesRequest(RatesQueryOf(data), carrier)
    ensures authed && token.Ok? && Nullish(data) ==> r == Exchange(None, Caught(ReadError(data, "weight"), RatesFailed))
    ensures authed && r.out.Thrown? ==> r.out.code == "internal" && r.out.message == Str(RatesFailed)
  {
    if !authed then Exchange(None, Unauthenticated)
    else if token.Err? then Exchange(None, Caught(token.error, RatesFailed))
    else if Nullish(data) then Exchange(None, Caught(ReadError(data, "weight"), RatesFailed))
    else RatesRequest(RatesQueryOf(data), carrier)
  }

  /** The `try` block once the token is at hand and the query read: the pincode check, then the request. */
  function RatesRequest(q: RatesQuery, carrier: Result<Value, Failure>): (r: Exchange<string>)
    ensures r.request.Some? <==> DeliveryValid(q.delivery)
    ensures r.request.Some? ==> r.request.value == RatesUrl(q)
    ensures r.out.Returned? <==> r.request.Some? && carrier.Ok?
    ensures r.out.Returned? ==> r.out.value == RatesReply(q, carrier.value)
    ensures r.out.Thrown? ==> r.out.code == "internal" && r.out.message == Str(RatesFailed)
    ensures !DeliveryValid(q.delivery) ==> r.out == Caught(PlainError(BadPincode), RatesFailed)
  {
    if !DeliveryValid(q.delivery) then Exchange(None, Caught(PlainError(BadPincode), RatesFailed))
    else
      match carrier
      case Err(e) => Exchange(Some(RatesUrl(q)), Caught(e, RatesFailed))
      case Ok(body) => Exchange(Some(RatesUrl(q)), Returned(RatesReply(q, body)))
  }

  /** The `try` block as its pincode check means it: a bad pincode reaches the caller as `invalid-argument`. */
  function RatesRequestIntended(q: RatesQuery, carrier: Result<Value, Failure>): (r: Exchange<string>)
    ensures !DeliveryValid(q.delivery) ==> r == Exchange(None, Thrown("invalid-argument", Str(BadPincode), Undefined))
    ensures DeliveryValid(q.delivery) ==> r == RatesRequest(q, carrier)
  {
    if !DeliveryValid(q.delivery) then Exchange(None, Thrown("invalid-argument", Str(BadPincode), Undefined))
    else RatesRequest(q, carrier)
  }

  /** `getShipmentRates` with the intended `try` block; everything before it is unchanged. */
  function GetShipmentRatesIntended(authed: bool, data: Value, token: Result<Value, Failure>, carrier: Result<Value, Failure>)
    : (r: Exchange<string>)
    ensures authed && token.Ok? && !Nullish(data) ==> r == RatesRequestIntended(RatesQueryOf(data), carrier)
    ensures !(authed && token.Ok? && !Nullish(data)) ==> r == GetShipmentRates(authed, data, token, carrier)
  {
    if authed && token.Ok? && !Nullish(data) then RatesRequestIntended(RatesQueryOf(data), carrier)
    else GetShipmentRates(authed, data, token, carrier)
  }

  /**
   * Whenever the pincode check fails, the caller sees the catch's `internal`
   * error with the check's text in its details, where the intended handler
   * reports `invalid-argument`.
   */
  lemma BadPincodeReportedAsInternal(q: RatesQuery, carrier: Result<Value, Failure>)
    requires !DeliveryValid(q.delivery)
    ensures RatesRequest(q, carrier)
      == Exchange(None, Thrown("internal", Str(RatesFailed), Obj(map["message" := Str(BadPincode)])))
    ensures RatesRequestIntended(q, carrier).out.code == "invalid-argument"
  {
  }

  // ---------------------------------------------------------------- airway bill

  /** `data.shipment_id || data.shipmentId` and `data.courier_id || data.courierId`. */
  function AwbIds(data: Value): (Value, Value) {
    (Or(Get(data, "shipment_id"), Get(data, "shipmentId")), Or(Get(data, "courier_id"), Get(data, "courierId")))
  }

  /**
   * `assignAWB`: the argument check runs before the `try`, so a missing id is
   * an `invalid-argument` error; token and carrier errors become `internal`.
   * The request is the shipment and courier ids sent.
   */
  function AssignAwb(authed: bool, data: Value, token: Result<Value, Failure>, carrier: Result<Value, Failure>)
    : (r: Exchange<(Value, Value)>)
    ensures !authed ==> r == Exchange(None, Unauthenticated)
    ensures authed && Nullish(data) ==> r == Exchange(None, Uncaught)
    ensures authed && !Nullish(data) && !(Truthy(AwbIds(data).0) && Truthy(AwbIds(data).1)) ==>
      r == Exchange(None, Thrown("invalid-argument", Str("shipment_id and courier_id are required"), Undefined))
    ensures r.request.Some? <==> authed && !Nullish(data) && Truthy(AwbIds(data).0) && Truthy(AwbIds(data).1) && token.Ok?
    ensures r.request.Some? ==> r.request.value == AwbIds(data)
    ensures r.out.Returned? <==> r.request.Some? && carrier.Ok?
    ensures r.out.Returned? ==> r.out.value == Obj(map["success" := Bool(true), "data" := carrier.value])
    ensures r.request.Some? && carrier.Err? ==> r.out == Caught(carrier.error, AwbFailed)
  {
    if !authed then Exchange(None, Unauthenticated)
    else if Nullish(data) then Exchange(None, Uncaught)
    else
      var ids := AwbIds(data);
      if !Truthy(ids.0) || !Truthy(ids.1) then
        Exchange(None, Thrown("invalid-argument", Str("shipment_id and courier_id are required"), Undefined))
      else if token.Err? then Exchange(None, Caught(token.error, AwbFailed))
      else
        match carrier
        case Err(e) => Exchange(Some(ids), Caught(e, AwbFailed))
        case Ok(body) => Exchange(Some(ids), Returned(Obj(map["success" := Bool(true), "data" := body])))
  }

  /** The camel-case ids are used only when the snake-case ones are falsy. */
  lemma SnakeCaseIdsPreferred(data: Value)
    requires Truthy(Get(data, "shipment_id")) && Truthy(Get(data, "courier_id"))
    ensures AwbIds(data) == (Get(data, "shipment_id"), Get(data, "courier_id"))
  {
  }
}
