/**
 * The admin orders page: the shipment booking heuristics that turn a stored
 * order into a courier payload (address coalescing and defaults, recovery of
 * pincode, city and state from free text, phone and pincode cleaning), the
 * status editor with its pending changes, and the per-order package
 * dimensions.
 */
module AdminOrders {
  import opened Text
  import opened Wrappers
  import opened JsValue
  import opened CarrierCall
  import opened Firestore
  import ShipmentSanitizer

  // ---------------------------------------------------------------- address sources

  /** `sanitize(val, fallback)`: the same helper the cloud function declares. */
  function Sanitize(v: Value, fallback: string): (r: string)
    ensures Nullish(v) ==> r == fallback
    ensures v == Str("") ==> r == fallback
    ensures !AllSpace(fallback) ==> !AllSpace(r)
    ensures v.Str? && Trim(v.s) != "" ==> r == Trim(v.s)
  {
    ShipmentSanitizer.Sanitize(v, fallback)
  }

  /** The raw shipping address: the first truthy of the six address fields, else an empty object. */
  function ShippingRaw(order: Value): (r: Value)
    ensures Truthy(r)
  {
    var chain := [Get(order, "shippingAddress"), Get(order, "shipping"), Get(order, "checkout"), Get(order, "Address"),
                  Get(order, "address"), Get(order, "delivery"), Obj(map[])];
    assert Truthy(chain[6]);
    OrChain(chain)
  }

  /** `users[order.userId]`: the loaded user document of the order's user, if any. */
  function UserOf(users: map<string, Value>, order: Value): Value {
    var uid := Get(order, "userId");
    if uid.Str? && uid.s in users then users[uid.s] else Undefined
  }

  /** The set address lines, joined with a comma and a space. */
  function Joined(line1: Value, line2: Value): (r: string)
    ensures !Truthy(line1) && !Truthy(line2) ==> r == ""
    ensures line1.Str? && line2.Str? && Truthy(line1) && Truthy(line2) ==> r == line1.s + ", " + line2.s
  {
    if Truthy(line1) && Truthy(line2) then ToStr(line1) + ", " + ToStr(line2)
    else if Truthy(line1) then ToStr(line1)
    else if Truthy(line2) then ToStr(line2)
    else ""
  }

  /** `shipping.addressLine1` and `shipping.addressLine2`, each the first set key of the raw address. */
  function Line1(raw: Value): Value {
    OrChain([Get(raw, "line1"), Get(raw, "address_line1"), Get(raw, "address1"), Get(raw, "address"), Str("")])
  }

  function Line2(raw: Value): Value {
    OrChain([Get(raw, "line2"), Get(raw, "address_line2"), Get(raw, "address2"), Str("")])
  }

  /** `joinedAddress || shippingRaw.address || order.address`: the value the billing address is sanitised from. */
  function AddressSource(order: Value): (r: Value)
    ensures Joined(Line1(ShippingRaw(order)), Line2(ShippingRaw(order))) != "" ==>
      r == Str(Joined(Line1(ShippingRaw(order)), Line2(ShippingRaw(order))))
    ensures Joined(Line1(ShippingRaw(order)), Line2(ShippingRaw(order))) == "" && !Truthy(Get(ShippingRaw(order), "address")) ==>
      r == Get(order, "address")
  {
    var joined := Joined(Line1(ShippingRaw(order)), Line2(ShippingRaw(order)));
    Or(Or(Str(joined), Get(ShippingRaw(order), "address")), Get(order, "address"))
  }

  /**
   * The billing address: the set address lines joined with `, `, else the raw
   * address's `address`, else the order's `address`, else `Sansad Marg`.
   */
  function BillingAddress(order: Value): (r: string)
    ensures !AllSpace(r)
    ensures AddressSource(order).Str? && Trim(AddressSource(order).s) != "" ==> r == Trim(AddressSource(order).s)
    ensures Nullish(AddressSource(order)) || AddressSource(order) == Str("") ==> r == "Sansad Marg"
  {
    assert !AllSpace("Sansad Marg") by { assert !IsSpace("Sansad Marg"[0]); }
    Sanitize(AddressSource(order), "Sansad Marg")
  }

  /** Two address lines, the first without leading and the second without trailing space, are joined as they are. */
  lemma AddressLinesJoined(order: Value, a: string, b: string)
    requires Line1(ShippingRaw(order)) == Str(a) && Line2(ShippingRaw(order)) == Str(b)
    requires a != "" && b != "" && !IsSpace(a[0]) && !IsSpace(b[|b| - 1])
    ensures BillingAddress(order) == a + ", " + b
  {
    var s := a + ", " + b;
    assert Joined(Str(a), Str(b)) == s;
    assert AddressSource(order) == Str(s);
    assert s[0] == a[0] && s[|s| - 1] == b[|b| - 1];
    TrimOfTrimmed(s);
  }

  const DefaultPincode: string := "110001"
  const DefaultPhone: string := "9999999999"

  /** The fields read from the order before any heuristic: each sanitised with its default. */
  datatype Draft = Draft(name: string, address: string, city: string, pincode: string, state: string,
                         country: string, email: string, phone: string)

  function DraftName(order: Value, user: Value): (r: string)
    ensures !AllSpace(r)
  {
    var raw := ShippingRaw(order);
    var fullName := OrChain([Get(raw, "fullName"), Get(raw, "name"), Get(order, "customerName"), Get(user, "displayName"), Str("")]);
    assert !AllSpace("Customer") by { assert !IsSpace("Customer"[0]); }
    Sanitize(OrChain([fullName, Get(user, "displayName"), Get(order, "customerName")]), "Customer")
  }

  function DraftCity(order: Value): (r: string)
    ensures !AllSpace(r)
  {
    assert !AllSpace("New Delhi") by { assert !IsSpace("New Delhi"[0]); }
    Sanitize(Or(Or(Get(ShippingRaw(order), "city"), Str("")), Get(order, "city")), "New Delhi")
  }

  function DraftPincode(order: Value): (r: string)
    ensures !AllSpace(r)
  {
    var raw := ShippingRaw(order);
    assert !AllSpace(DefaultPincode) by { assert !IsSpace(DefaultPincode[0]); }
    Sanitize(Or(OrChain([Get(raw, "pincode"), Get(raw, "zip"), Get(raw, "postalCode"), Get(raw, "postcode"), Str("")]),
                Get(order, "pincode")), DefaultPincode)
  }

  function DraftState(order: Value): (r: string)
    ensures !AllSpace(r)
  {
    assert !AllSpace("Delhi") by { assert !IsSpace("Delhi"[0]); }
    Sanitize(Or(Or(Get(ShippingRaw(order), "state"), Str("")), Get(order, "state")), "Delhi")
  }

  /** `shipping.country` defaults to `India` itself, so the order's own country is never consulted. */
  function DraftCountry(order: Value): (r: string)
    ensures !AllSpace(r)
  {
    assert !AllSpace("India") by { assert !IsSpace("India"[0]); }
    Sanitize(Or(Or(Get(ShippingRaw(order), "country"), Str("India")), Get(order, "country")), "India")
  }

  function DraftEmail(order: Value, user: Value): (r: string)
    ensures !AllSpace(r)
  {
    var email := OrChain([Get(ShippingRaw(order), "email"), Get(user, "email"), Get(order, "email"), Str("")]);
    assert !AllSpace("no-reply@boldandbrew.in") by { assert !IsSpace("no-reply@boldandbrew.in"[0]); }
    Sanitize(OrChain([email, Get(user, "email"), Get(order, "email")]), "no-reply@boldandbrew.in")
  }

  function DraftPhone(order: Value): (r: string)
    ensures !AllSpace(r)
  {
    var raw := ShippingRaw(order);
    var phone := OrChain([Get(raw, "phone"), Get(raw, "phoneNumber"), Get(raw, "phone_number"), Get(order, "phone"), Str("")]);
    assert !AllSpace(DefaultPhone) by { assert !IsSpace(DefaultPhone[0]); }
    Sanitize(Or(phone, Get(order, "phone")), DefaultPhone)
  }

  /** The sanitised fields of an order: none is blank. */
  function DraftOf(order: Value, user: Value): (d: Draft)
    ensures !AllSpace(d.name) && !AllSpace(d.address) && !AllSpace(d.city) && !AllSpace(d.pincode)
    ensures !AllSpace(d.state) && !AllSpace(d.country) && !AllSpace(d.email) && !AllSpace(d.phone)
  {
    Draft(DraftName(order, user), BillingAddress(order), DraftCity(order), DraftPincode(order), DraftState(order),
          DraftCountry(order), DraftEmail(order, user), DraftPhone(order))
  }

  // ---------------------------------------------------------------- pincode in free text

  /** `/\b\d{6}\b/` matches at `i`: six digits with no word character right before or after. */
  predicate PinAt(s: string, i: int) {
    && 0 <= i && i + 6 <= |s| && AllDigits(s[i..i + 6])
    && (i == 0 || !IsWordChar(s[i - 1]))
    && (i + 6 == |s| || !IsWordChar(s[i + 6]))
  }

  /** The leftmost match at or after `from`. */
  function FirstPin(s: string, from: nat): (r: Option<nat>)
    decreases |s| - from
    ensures r.Some? ==> from <= r.value && PinAt(s, r.value)
    ensures r.Some? ==> forall j :: from <= j < r.value ==> !PinAt(s, j)
    ensures r.None? ==> forall j :: from <= j ==> !PinAt(s, j)
  {
    if from + 6 > |s| then None
    else if PinAt(s, from) then Some(from)
    else FirstPin(s, from + 1)
  }

  /** The pincode after recovery: a missing or default one is replaced by the first standalone six-digit token of the address. */
  function DerivedPincode(pincode: string, address: string): (r: string)
    ensures pincode != "" && pincode != DefaultPincode ==> r == pincode
    ensures r != pincode ==> exists k :: PinAt(address, k) && r == address[k..k + 6]
    ensures r != pincode ==> |r| == 6 && AllDigits(r)
    ensures (pincode == "" || pincode == DefaultPincode) && (exists k :: PinAt(address, k)) ==> |r| == 6 && AllDigits(r)
  {
    if pincode == "" || pincode == DefaultPincode then
      match FirstPin(address, 0)
      case Some(k) => address[k..k + 6]
      case None => pincode
    else pincode
  }

  /** The recovered token is the leftmost one. */
  lemma RecoveredPinIsLeftmost(pincode: string, address: string, k: nat)
    requires pincode == "" || pincode == DefaultPincode
    requires PinAt(address, k) && forall j :: 0 <= j < k ==> !PinAt(address, j)
    ensures DerivedPincode(pincode, address) == address[k..k + 6]
  {
    var m := FirstPin(address, 0);
    assert m.Some? && m.value == k;
  }

  // ---------------------------------------------------------------- city in free text

  /** `.map(p => p.trim()).filter(Boolean)` */
  function TrimmedNonEmpty(parts: seq<string>): (r: seq<string>)
    ensures |r| <= |parts|
    ensures forall i :: 0 <= i < |r| ==> r[i] != "" && Trim(r[i]) == r[i]
  {
    if parts == [] then []
    else
      var rest := TrimmedNonEmpty(parts[1..]);
      var t := Trim(parts[0]);
      if t == "" then rest
      else
        TrimIdempotent(parts[0]);
        [t] + rest
  }

  /** The non-empty comma-separated segments of an address, trimmed. */
  function Segments(address: string): (r: seq<string>)
    ensures forall i :: 0 <= i < |r| ==> r[i] != "" && Trim(r[i]) == r[i]
  {
    TrimmedNonEmpty(Split(address, ','))
  }

  /** The city after recovery: a missing or default city becomes the next-to-last segment when there are two or more. */
  function DerivedCity(city: string, address: string): (r: string)
    ensures r != city ==> |Segments(address)| >= 2 && r == Segments(address)[|Segments(address)| - 2]
    ensures (city == "" || city == "New Delhi") && |Segments(address)| >= 2 ==> r == Segments(address)[|Segments(address)| - 2]
    ensures r == city || (r != "" && Trim(r) == r)
    ensures city != "" && city != "New Delhi" ==> r == city
  {
    var parts := Segments(address);
    if (city == "" || city == "New Delhi") && |parts| >= 2 then NextToLast(parts)
    else city
  }

  /** `parts[parts.length - 2]` */
  function NextToLast(parts: seq<string>): string
    requires |parts| >= 2
  {
    parts[|parts| - 2]
  }

  // ---------------------------------------------------------------- state in free text

  const States: seq<string> :=
    ["Delhi", "Karnataka", "Maharashtra", "Tamil Nadu", "Uttar Pradesh", "Haryana", "Punjab", "Gujarat",
     "Rajasthan", "Kerala", "West Bengal"]

  /** `new RegExp('\\b' + w + '\\b', 'i')` matches at `i`, for a word that starts and ends with a letter. */
  predicate WordAt(s: string, w: string, i: int) {
    && 0 <= i && i + |w| <= |s| && EqualsIgnoreCase(s[i..i + |w|], w)
    && (i == 0 || !IsWordChar(s[i - 1]))
    && (i + |w| == |s| || !IsWordChar(s[i + |w|]))
  }

  predicate HasWord(s: string, w: string) {
    exists i :: 0 <= i <= |s| && WordAt(s, w, i)
  }

  /** `STATES.find(...)`, as an index: `|states|` when none occurs. */
  function FirstState(states: seq<string>, address: string): (i: nat)
    ensures i <= |states|
    ensures i < |states| ==> HasWord(address, states[i])
    ensures forall j :: 0 <= j < i ==> !HasWord(address, states[j])
  {
    if states == [] then 0
    else if HasWord(address, states[0]) then 0
    else 1 + FirstState(states[1..], address)
  }

  /** The state after recovery: a missing or default state becomes the first listed state named in the address. */
  function DerivedState(state: string, address: string): (r: string)
    ensures r != state ==> r in States && HasWord(address, r)
    ensures r != state ==> forall j :: 0 <= j < |States| && States[j] != r && HasWord(address, States[j]) ==>
      exists k :: 0 <= k < j && States[k] == r
    ensures state != "" && state != "Delhi" ==> r == state
    ensures (state == "" || state == "Delhi") && FirstState(States, address) < |States| ==>
      r == States[FirstState(States, address)]
    ensures FirstState(States, address) == |States| ==> r == state
  {
    Recovered(States, state, address)
  }

  /** `DerivedState` over any list of states. */
  function Recovered(states: seq<string>, state: string, address: string): (r: string)
    ensures r != state ==> r in states && HasWord(address, r)
    ensures r != state ==> forall j :: 0 <= j < |states| && states[j] != r && HasWord(address, states[j]) ==>
      exists k :: 0 <= k < j && states[k] == r
    ensures state != "" && state != "Delhi" ==> r == state
    ensures (state == "" || state == "Delhi") && FirstState(states, address) < |states| ==>
      r == states[FirstState(states, address)]
    ensures FirstState(states, address) == |states| ==> r == state
  {
    if state == "" || state == "Delhi" then
      var i := FirstState(states, address);
      if i < |states| then
        assert forall j :: 0 <= j < |states| && HasWord(address, states[j]) ==> i <= j;
        states[i]
      else state
    else state
  }

  /** `Delhi` is listed first, so an address naming Delhi keeps the default state. */
  lemma DelhiNamedKeepsDelhi(address: string)
    requires HasWord(address, "Delhi")
    ensures DerivedState("Delhi", address) == "Delhi"
  {
  }

  // ---------------------------------------------------------------- phone and pincode cleaning

  /** The digits of `s`, replaced by the fallback unless exactly `len` of them remain. */
  function CleanDigits(s: string, len: nat, fallback: string): (r: string)
    ensures r == fallback || (|r| == len && AllDigits(r))
    ensures |DigitsOnly(s)| == len ==> r == DigitsOnly(s)
    ensures |DigitsOnly(s)| != len ==> r == fallback
  {
    var digits := DigitsOnly(s);
    if |digits| == len then digits else fallback
  }

  /** The address sent to the courier, for billing and shipping alike. */
  datatype Address = Address(name: string, address: string, city: string, pincode: string, state: string,
                             country: string, email: string, phone: string)

  /** `derivedPincode || billingPincode`, cleaned: always six digits. */
  function BookingPincode(d: Draft): (r: string)
    ensures |r| == 6 && AllDigits(r)
    ensures r == CleanDigits(DerivedPincode(d.pincode, d.address), 6, DefaultPincode)
  {
    var pincode := DerivedPincode(d.pincode, d.address);
    CleanDigits(if pincode != "" then pincode else d.pincode, 6, DefaultPincode)
  }

  /** `derivedCity || billingCity`: the derived city, which is empty only when the sanitised one was. */
  function BookingCity(d: Draft): (r: string)
    ensures r == DerivedCity(d.city, d.address)
  {
    var city := DerivedCity(d.city, d.address);
    if city != "" then city else d.city
  }

  /** `derivedState || billingState`, likewise. */
  function BookingState(d: Draft): (r: string)
    ensures r == DerivedState(d.state, d.address)
  {
    var state := DerivedState(d.state, d.address);
    if state != "" then state else d.state
  }

  /** The heuristics applied to the sanitised fields: recovery first, then cleaning. */
  function BookingAddress(d: Draft): (a: Address)
    ensures |a.pincode| == 6 && AllDigits(a.pincode)
    ensures |a.phone| == 10 && AllDigits(a.phone)
    ensures a.name == d.name && a.address == d.address && a.country == d.country && a.email == d.email
    ensures |DigitsOnly(d.phone)| == 10 ==> a.phone == DigitsOnly(d.phone)
    ensures a.city == DerivedCity(d.city, d.address) && a.state == DerivedState(d.state, d.address)
  {
    DefaultPhoneDigits();
    Address(d.name, d.address, BookingCity(d), BookingPincode(d), BookingState(d), d.country, d.email,
            CleanDigits(d.phone, 10, DefaultPhone))
  }

  lemma DefaultPhoneDigits()
    ensures |DefaultPhone| == 10 && AllDigits(DefaultPhone)
  {
    forall i | 0 <= i < 10
      ensures IsDigit(DefaultPhone[i])
    {
    }
  }

  /** The billing pincode, replaced by the first six-digit token of the address when it is missing or the default. */
  method DerivePincode(pincode: string, address: string) returns (derivedPincode: string)
    ensures derivedPincode == DerivedPincode(pincode, address)
  {
    derivedPincode := pincode;
    if derivedPincode == "" || derivedPincode == DefaultPincode {
      var pinMatch := FirstPin(address, 0);
      if pinMatch.Some? {
        derivedPincode := address[pinMatch.value..pinMatch.value + 6];
      }
    }
  }

  /** The billing city, replaced by the next-to-last address segment when it is missing or the default. */
  method DeriveCity(city: string, address: string) returns (derivedCity: string)
    ensures derivedCity == DerivedCity(city, address)
  {
    derivedCity := city;
    if derivedCity == "" || derivedCity == "New Delhi" {
      var parts := Segments(address);
      if |parts| >= 2 {
        derivedCity := NextToLast(parts);
      }
    }
  }

  /** The billing state, replaced by the first state named in the address when it is missing or the default. */
  method DeriveState(state: string, address: string) returns (derivedState: string)
    ensures derivedState == DerivedState(state, address)
  {
    derivedState := state;
    if derivedState == "" || derivedState == "Delhi" {
      var found := FirstState(States, address);
      if found < |States| {
        derivedState := States[found];
      }
    }
  }

  /** The digits of the raw text, replaced by the default unless there are `len` of them. */
  method Clean(raw: string, len: nat, fallback: string) returns (clean: string)
    ensures clean == CleanDigits(raw, len, fallback)
  {
    clean := DigitsOnly(raw);
    if |clean| != len {
      clean := fallback;
    }
  }

  /** The derivation of `bookShiprocketOrder`, step by step. */
  method DeriveAddress(d: Draft) returns (a: Address)
    ensures a == BookingAddress(d)
  {
    var derivedPincode := DerivePincode(d.pincode, d.address);
    var derivedCity := DeriveCity(d.city, d.address);
    var derivedState := DeriveState(d.state, d.address);
    var cleanPhone := Clean(d.phone, 10, DefaultPhone);
    var cleanPincode := Clean(if derivedPincode != "" then derivedPincode else d.pincode, 6, DefaultPincode);
    a := Address(d.name, d.address, if derivedCity != "" then derivedCity else d.city, cleanPincode,
                 if derivedState != "" then derivedState else d.state, d.country, d.email, cleanPhone);
  }

  // ---------------------------------------------------------------- order items and totals

  /**
   * One line of `order_items`: its name and SKU, and the values its `units`
   * and `selling_price` are parsed from (see `Units` and `SellingPrice`);
   * discount and tax are sent empty and the HSN code is 446.
   */
  datatype BookedItem = BookedItem(name: string, sku: string, quantity: Value, price: Value)

  /** `Math.round(parseFloat(v))`: an integer, or NaN when `v` does not start with a number. */
  function RoundedNumber(v: Value): (r: Value)
    ensures r.Num? <==> ParseFloat(v).Num?
    ensures r.Num? ==> r.n == r.n.Floor as real && ParseFloat(v).n - 0.5 < r.n <= ParseFloat(v).n + 0.5
  {
    var x := ParseFloat(v);
    if x.Num? then Num(Round(x.n)) else NaN
  }

  /** An item's name, else its product name, else 'Product'. */
  function ItemNameValue(item: Value): (r: Value)
    ensures Truthy(r)
  {
    var chain := [Get(item, "name"), Get(item, "productName"), Str("Product")];
    assert Truthy(chain[2]);
    OrChain(chain)
  }

  /** An item's SKU, else its id, else 'SKU' and the current time, as text. */
  function ItemSku(item: Value, now: int): string {
    ToStr(OrChain([Get(item, "sku"), Get(item, "id"), Str("SKU" + IntToDecimal(now))]))
  }

  /** `item.quantity || item.qty || 1` */
  function QuantityOf(item: Value): Value {
    Or(Or(Get(item, "quantity"), Get(item, "qty")), Num(1.0))
  }

  /** `item.price || item.unitPrice || 0` */
  function PriceOf(item: Value): Value {
    Or(Or(Get(item, "price"), Get(item, "unitPrice")), Num(0.0))
  }

  /** `units`: `parseInt` of the chosen quantity, an integer or NaN. */
  function Units(b: BookedItem): (r: Value)
    ensures r.NaN? || (r.Num? && r.n == r.n.Floor as real)
  {
    ParseInt(b.quantity)
  }

  /** `selling_price`: the chosen price, parsed and rounded to an integer, or NaN. */
  function SellingPrice(b: BookedItem): (r: Value)
    ensures r.NaN? || (r.Num? && r.n == r.n.Floor as real)
    ensures r.Num? <==> ParseFloat(b.price).Num?
  {
    RoundedNumber(b.price)
  }

  /** Whether booking the item does not throw: it is an object and its chosen name a string. */
  predicate Bookable(item: Value) {
    !Nullish(item) && ItemNameValue(item).Str?
  }

  /**
   * The item as booked: its name (at most 50 characters; `substring` throws
   * unless the chosen name is a string), its SKU, `parseInt` of its quantity
   * and the rounded price. Reading a field of a null or undefined item throws.
   */
  function BookedItemOf(item: Value, now: int): (r: Result<BookedItem, Failure>)
    ensures Nullish(item) ==> r == Err(ReadError(item, "name"))
    ensures r.Ok? <==> Bookable(item)
    ensures r.Ok? ==> 0 < |r.value.name| <= 50 && StartsWith(ItemNameValue(item).s, r.value.name)
    ensures r.Ok? ==> r.value.quantity == QuantityOf(item) && r.value.price == PriceOf(item)
  {
    if Nullish(item) then Err(ReadError(item, "name"))
    else
      var name := ItemNameValue(item);
      if !name.Str? then Err(PlainError("(item.name || item.productName || \"Product\").substring is not a function"))
      else Ok(BookedItem(ShipmentSanitizer.Prefix(name.s, 50), ItemSku(item, now), QuantityOf(item), PriceOf(item)))
  }

  /** An item without quantity is booked as one unit. */
  lemma UnitsDefaultToOne(item: Value, now: int)
    requires Bookable(item) && !Truthy(Get(item, "quantity")) && !Truthy(Get(item, "qty"))
    ensures Units(BookedItemOf(item, now).value) == Num(1.0)
  {
    assert QuantityOf(item) == Num(1.0);
    ParseIntOfInteger(1);
  }

  /** An item with a non-zero integer quantity is booked with that many units. */
  lemma IntegerQuantityKept(item: Value, now: int, k: int)
    requires Bookable(item) && Get(item, "quantity") == Num(k as real) && k != 0
    ensures Units(BookedItemOf(item, now).value) == Num(k as real)
  {
    assert QuantityOf(item) == Num(k as real);
    ParseIntOfInteger(k);
  }

  /** An item without a price is booked at 0, and one with an integer price at that price. */
  lemma IntegerPriceKept(item: Value, now: int, k: int)
    requires Bookable(item) && ((Get(item, "price") == Num(k as real) && k != 0) || (!Truthy(Get(item, "price")) && !Truthy(Get(item, "unitPrice")) && k == 0))
    ensures SellingPrice(BookedItemOf(item, now).value) == Num(k as real)
  {
    var b := BookedItemOf(item, now).value;
    assert b.price == Num(k as real);
    ParseFloatOfInteger(k);
    assert Round(k as real) == k as real by { assert (k as real + 0.5).Floor == k; }
  }

  /** The index of the first item that cannot be booked, or the length when there is none. */
  function FirstUnbookable(items: seq<Value>): (k: nat)
    ensures k <= |items|
    ensures forall i :: 0 <= i < k ==> Bookable(items[i])
    ensures k < |items| ==> !Bookable(items[k])
  {
    if items == [] then 0
    else if !Bookable(items[0]) then 0
    else 1 + FirstUnbookable(items[1..])
  }

  /** `items.map(...)`: every item booked in order, failing at the first item that throws. */
  function BookedList(items: seq<Value>, now: int): (r: Result<seq<BookedItem>, Failure>)
    ensures r.Ok? <==> forall i :: 0 <= i < |items| ==> Bookable(items[i])
    ensures r.Ok? ==> |r.value| == |items| && forall i :: 0 <= i < |items| ==> r.value[i] == BookedItemOf(items[i], now).value
  {
    var k := FirstUnbookable(items);
    if k < |items| then Err(BookedItemOf(items[k], now).error)
    else Ok(seq(|items|, i requires 0 <= i < |items| => BookedItemOf(items[i], now).value))
  }

  /** `(order.items || []).map(...)`: a truthy value other than an array there throws. */
  function BookedItems(order: Value, now: int): (r: Result<seq<BookedItem>, Failure>)
    ensures !Truthy(Get(order, "items")) ==> r == Ok([])
    ensures Truthy(Get(order, "items")) && !Get(order, "items").Arr? ==> r.Err?
    ensures Get(order, "items").Arr? ==> r == BookedList(Get(order, "items").elems, now)
  {
    var items := Get(order, "items");
    if !Truthy(items) then Ok([])
    else if items.Arr? then BookedList(items.elems, now)
    else Err(PlainError("(order.items || []).map is not a function"))
  }

  /** `sub_total`: the rounded `order.total || order.amount || 0`. */
  function SubTotal(order: Value): (r: Value)
    ensures !Truthy(Get(order, "total")) && !Truthy(Get(order, "amount")) ==> r == Num(0.0)
    ensures r.Num? ==> r.n == r.n.Floor as real
  {
    var total := Or(Or(Get(order, "total"), Get(order, "amount")), Num(0.0));
    assert RoundedNumber(Num(0.0)) == Num(0.0) by { ParseFloatOfInteger(0); }
    RoundedNumber(total)
  }

  // ---------------------------------------------------------------- package dimensions

  /** The package size (cm) and weight (kg) sent with a booking. */
  datatype Dims = Dims(length: real, breadth: real, height: real, weight: real)

  const DefaultDims: Dims := Dims(15.0, 15.0, 15.0, 0.5)

  datatype DimField = Length | Breadth | Height | Weight

  /** `parseFloat(value) || 0` */
  function DimValue(v: Value): (x: real)
    ensures ParseFloat(v).Num? ==> x == ParseFloat(v).n
    ensures ParseFloat(v).NaN? ==> x == 0.0
  {
    var n := ParseFloat(v);
    if n.Num? then n.n else 0.0
  }

  /** `{ ...dims, [field]: x }` */
  function SetDim(d: Dims, f: DimField, x: real): (r: Dims)
    ensures Dim(r, f) == x
    ensures forall g :: g != f ==> Dim(r, g) == Dim(d, g)
  {
    match f
    case Length => d.(length := x)
    case Breadth => d.(breadth := x)
    case Height => d.(height := x)
    case Weight => d.(weight := x)
  }

  function Dim(d: Dims, f: DimField): real {
    match f
    case Length => d.length
    case Breadth => d.breadth
    case Height => d.height
    case Weight => d.weight
  }

  // ---------------------------------------------------------------- the booking payload

  /** The courier payload `bookShiprocketOrder` builds; the shipping address is the billing address. */
  datatype Booking = Booking(orderId: string, orderDate: string, pickup: Value, billing: Address, shipping: Address,
                             shippingIsBilling: bool, items: seq<BookedItem>, subTotal: Value, dims: Dims)

  /**
   * `order_date`: the order's timestamp rendered by `formatDate` (date and
   * `HH:MM`), else today's date at `12:00`.
   */
  function OrderDate(order: Value, today: string, formatDate: int -> string): (r: string)
    ensures Get(order, "date").Stamp? ==> r == formatDate(Get(order, "date").millis)
    ensures !Get(order, "date").Stamp? ==> r == today + " 12:00"
  {
    var date := Get(order, "date");
    if date.Stamp? then formatDate(date.millis) else today + " 12:00"
  }

  /** The payload for `order` with the given user documents, pickup choice and package dimensions. */
  function BookingPayload(order: Value, users: map<string, Value>, selectedPickup: Value, dims: Dims,
                          now: int, today: string, formatDate: int -> string): (r: Result<Booking, Failure>)
    ensures r.Ok? <==> BookedItems(order, now).Ok?
    ensures r.Ok? ==> r.value.shipping == r.value.billing && r.value.shippingIsBilling
    ensures r.Ok? ==> r.value.billing == BookingAddress(DraftOf(order, UserOf(users, order)))
    ensures r.Ok? ==> r.value.items == BookedItems(order, now).value && r.value.dims == dims
    ensures r.Ok? ==> Truthy(r.value.pickup) && (Truthy(selectedPickup) ==> r.value.pickup == selectedPickup)
    ensures r.Ok? ==> r.value.orderId == ToStr(Get(order, "id"))
    ensures r.Ok? ==> r.value.orderDate == OrderDate(order, today, formatDate) && r.value.subTotal == SubTotal(order)
    ensures r.Ok? && !Truthy(selectedPickup) ==> r.value.pickup == Str("Home")
  {
    var a := BookingAddress(DraftOf(order, UserOf(users, order)));
    match BookedItems(order, now)
    case Err(e) => Err(e)
    case Ok(items) =>
      Ok(Booking(ToStr(Get(order, "id")), OrderDate(order, today, formatDate), Or(selectedPickup, Str("Home")),
                 a, a, true, items, SubTotal(order), dims))
  }

  /** The payload assembled step by step, as `bookShiprocketOrder` does. */
  method BuildPayload(order: Value, users: map<string, Value>, selectedPickup: Value, dims: Dims,
                      now: int, today: string, formatDate: int -> string) returns (r: Result<Booking, Failure>)
    ensures r == BookingPayload(order, users, selectedPickup, dims, now, today, formatDate)
  {
    var address := DeriveAddress(DraftOf(order, UserOf(users, order)));
    var items := BookedItems(order, now);
    if items.Err? {
      return Err(items.error);
    }
    var pickupLocation := Or(selectedPickup, Str("Home"));
    r := Ok(Booking(ToStr(Get(order, "id")), OrderDate(order, today, formatDate), pickupLocation,
                    address, address, true, items.value, SubTotal(order), dims));
  }

  // ---------------------------------------------------------------- after a booking

  /** `result.data && result.data.success`: whether the callable reported a created order. */
  predicate Booked(result: Result<Value, Failure>) {
    result.Ok? && Truthy(result.value) && Truthy(Get(result.value, "success"))
  }

  /**
   * The fields written to the stored order: status `Shipped` and each returned
   * id that is not undefined, with a falsy id stored as null.
   */
  function ShipmentUpdate(data: Value): (r: map<string, Value>)
    ensures "status" in r && r["status"] == Str("Shipped")
    ensures "shiprocketOrderId" in r <==> Get(data, "order_id") != Undefined
    ensures "shiprocketShipmentId" in r <==> Get(data, "shipment_id") != Undefined
    ensures "shiprocketOrderId" in r ==> r["shiprocketOrderId"] == (if Truthy(Get(data, "order_id")) then Get(data, "order_id") else Null)
    ensures "shiprocketShipmentId" in r ==> r["shiprocketShipmentId"] == (if Truthy(Get(data, "shipment_id")) then Get(data, "shipment_id") else Null)
    ensures r.Keys <= {"status", "shiprocketOrderId", "shiprocketShipmentId"}
  {
    var orderId := Get(data, "order_id");
    var shipmentId := Get(data, "shipment_id");
    var withOrder := if orderId != Undefined then map["status" := Str("Shipped"), "shiprocketOrderId" := Or(orderId, Null)]
                     else map["status" := Str("Shipped")];
    if shipmentId != Undefined then withOrder["shiprocketShipmentId" := Or(shipmentId, Null)] else withOrder
  }

  /** The fields the page patches into its own copy of the order: the returned ids as they are. */
  function ShippedFields(data: Value): (r: map<string, Value>)
    ensures r.Keys == {"status", "shiprocketOrderId", "shiprocketShipmentId"}
    ensures r["status"] == Str("Shipped")
    ensures r["shiprocketOrderId"] == Get(data, "order_id") && r["shiprocketShipmentId"] == Get(data, "shipment_id")
  {
    map["status" := Str("Shipped"), "shiprocketOrderId" := Get(data, "order_id"), "shiprocketShipmentId" := Get(data, "shipment_id")]
  }

  /**
   * The stored and the displayed ids agree when the courier returned truthy
   * ids; a missing id is dropped from the store but shown as undefined, and a
   * falsy one is stored as null.
   */
  lemma StoredAndShownIdsAgreeWhenTruthy(data: Value)
    ensures Truthy(Get(data, "order_id")) && Truthy(Get(data, "shipment_id")) ==> ShipmentUpdate(data) == ShippedFields(data)
    ensures Get(data, "order_id") == Undefined ==> ShipmentUpdate(data) != ShippedFields(data)
  {
    if Truthy(Get(data, "order_id")) && Truthy(Get(data, "shipment_id")) {
      assert ShipmentUpdate(data).Keys == ShippedFields(data).Keys;
    }
    if Get(data, "order_id") == Undefined {
      assert "shiprocketOrderId" !in ShipmentUpdate(data);
    }
  }

  /** The order list with the fields spread over every order with the given id. */
  function Patched(orders: seq<Value>, id: Value, fields: map<string, Value>): (r: seq<Value>)
    ensures |r| == |orders|
    ensures forall i :: 0 <= i < |orders| && !StrictEq(Get(orders[i], "id"), id) ==> r[i] == orders[i]
    ensures forall i :: 0 <= i < |orders| && StrictEq(Get(orders[i], "id"), id) ==>
      r[i].Obj? && (forall k :: k in fields ==> Get(r[i], k) == fields[k]) &&
      (orders[i].Obj? ==> forall k :: k !in fields ==> Get(r[i], k) == Get(orders[i], k))
  {
    seq(|orders|, i requires 0 <= i < |orders| => PatchedOne(orders[i], id, fields))
  }

  /** One order of `Patched`: `{ ...o, ...fields }` when its id matches, else the order itself. */
  function PatchedOne(o: Value, id: Value, fields: map<string, Value>): (r: Value)
    ensures !StrictEq(Get(o, "id"), id) ==> r == o
    ensures StrictEq(Get(o, "id"), id) ==>
      r.Obj? && (forall k :: k in fields ==> Get(r, k) == fields[k]) &&
      (o.Obj? ==> forall k :: k !in fields ==> Get(r, k) == Get(o, k))
  {
    if StrictEq(Get(o, "id"), id) then Obj(Spread(o) + fields) else o
  }

  // ---------------------------------------------------------------- pickup locations

  const PickupLoadFailed: string := "Failed to load pickup addresses"

  /** What the page keeps from `listPickupAddresses`: the listed addresses, the selected pickup, an error. */
  datatype PickupView = PickupView(addresses: seq<Value>, selected: Value, error: Value)

  /**
   * The page's pickup state after the call answered `res` (a returned value,
   * or the error it threw), starting from `addresses` and `selected`: on success the listed
   * addresses and the configured pickup, else the first address's name or id;
   * otherwise the reported error.
   */
  function PickupLoaded(res: Result<Value, Failure>, addresses: seq<Value>, selected: Value): (v: PickupView)
    ensures res.Err? ==> v == PickupView(addresses, selected, Or(res.error.message, Str(PickupLoadFailed)))
    ensures !Booked(res) ==> Truthy(v.error) && v.addresses == addresses && v.selected == selected
    ensures Booked(res) && Get(res.value, "addresses").Arr? ==> v.addresses == Get(res.value, "addresses").elems
    ensures Booked(res) && !Get(res.value, "addresses").Arr? ==> v.addresses == []
    ensures Booked(res) && Truthy(Get(res.value, "configuredPickup")) ==>
      v.selected == Get(res.value, "configuredPickup") && v.error == Null
    ensures Booked(res) && v.addresses == [] && !Truthy(Get(res.value, "configuredPickup")) ==> v.selected == selected && v.error == Null
    ensures Booked(res) && v.addresses != [] && !Nullish(v.addresses[0]) && !Truthy(Get(res.value, "configuredPickup")) ==>
      v.selected == Or(Or(Get(v.addresses[0], "name"), Str(ToStr(Get(v.addresses[0], "id")))), Str("")) && v.error == Null
    ensures Booked(res) && v.addresses != [] && Nullish(v.addresses[0]) && !Truthy(Get(res.value, "configuredPickup")) ==>
      v.selected == selected && Truthy(v.error)
  {
    if res.Err? then PickupView(addresses, selected, Or(res.error.message, Str(PickupLoadFailed)))
    else if !Booked(res) then PickupView(addresses, selected, Or(Get(res.value, "message"), Str(PickupLoadFailed)))
    else
      var listed := Get(res.value, "addresses");
      var list := if listed.Arr? then listed.elems else [];
      var configured := Get(res.value, "configuredPickup");
      if Truthy(configured) then PickupView(list, configured, Null)
      else if list == [] then PickupView(list, selected, Null)
      else if Nullish(list[0]) then PickupView(list, selected, ReadError(list[0], "name").message)
      else PickupView(list, Or(Or(Get(list[0], "name"), Str(ToStr(Get(list[0], "id")))), Str("")), Null)
  }

  /**
   * The state of the admin orders page: the loaded orders and user documents,
   * the unsaved status changes, the edited package dimensions, the order being
   * booked (null when none) and the pickup locations.
   */
  class AdminOrdersPage {
    var orders: seq<Value>
    var users: map<string, Value>
    var pendingChanges: map<string, Value>
    var packageDimensions: map<string, Dims>
    var shippingOrder: Value
    var pickupAddresses: seq<Value>
    var selectedPickup: Value
    var pickupError: Value

    /** The page once its orders and their users are loaded. */
    constructor (orders: seq<Value>, users: map<string, Value>)
      ensures this.orders == orders && this.users == users
      ensures pendingChanges == map[] && packageDimensions == map[] && shippingOrder == Null
      ensures pickupAddresses == [] && selectedPickup == Str("") && pickupError == Null
    {
      this.orders := orders;
      this.users := users;
      pendingChanges := map[];
      packageDimensions := map[];
      shippingOrder := Null;
      pickupAddresses := [];
      selectedPickup := Str("");
      pickupError := Null;
    }

    /** `getPackageDimensions(orderId)`: the edited dimensions, else 15 x 15 x 15 cm and 0.5 kg. */
    function PackageDimensions(orderId: string): (d: Dims)
      reads this
      ensures orderId !in packageDimensions ==> d == DefaultDims
      ensures orderId in packageDimensions ==> d == packageDimensions[orderId]
    {
      if orderId in packageDimensions then packageDimensions[orderId] else DefaultDims
    }

    /** `updatePackageDimension`: one field of one order's dimensions set to `parseFloat(value) || 0`. */
    method UpdatePackageDimension(orderId: string, field: DimField, value: Value)
      modifies this`packageDimensions
      ensures packageDimensions == old(packageDimensions)[orderId := SetDim(old(PackageDimensions(orderId)), field, DimValue(value))]
    {
      packageDimensions := packageDimensions[orderId := SetDim(PackageDimensions(orderId), field, DimValue(value))];
    }

    /** `handleStatusChange`: the chosen status recorded as pending for the order. */
    method HandleStatusChange(orderId: string, newStatus: Value)
      modifies this`pendingChanges
      ensures pendingChanges == old(pendingChanges)[orderId := newStatus]
    {
      pendingChanges := pendingChanges[orderId := newStatus];
    }

    /**
     * `saveStatus`: a truthy pending status is written to the stored order;
     * when that succeeds (the order exists) the page's copy is patched and the
     * pending change dropped, otherwise nothing changes.
     */
    method SaveStatus(orderId: string, store: Collection) returns (saved: bool)
      requires store.Valid()
      modifies this, store
      ensures store.Valid()
      ensures saved <==> orderId in old(pendingChanges) && Truthy(old(pendingChanges)[orderId]) && old(store.Has(orderId))
      ensures saved ==> store.docs == Updated(old(store.docs), orderId, map["status" := old(pendingChanges)[orderId]])
      ensures saved ==> orders == Patched(old(orders), Str(orderId), map["status" := old(pendingChanges)[orderId]])
      ensures saved ==> pendingChanges == old(pendingChanges) - {orderId}
      ensures !saved ==> store.docs == old(store.docs) && orders == old(orders) && pendingChanges == old(pendingChanges)
      ensures users == old(users) && packageDimensions == old(packageDimensions) && shippingOrder == old(shippingOrder)
      ensures pickupAddresses == old(pickupAddresses) && selectedPickup == old(selectedPickup) && pickupError == old(pickupError)
    {
      if orderId !in pendingChanges || !Truthy(pendingChanges[orderId]) {
        return false;
      }
      var newStatus := pendingChanges[orderId];
      saved := store.Update(orderId, map["status" := newStatus]);
      if saved {
        orders := Patched(orders, Str(orderId), map["status" := newStatus]);
        pendingChanges := pendingChanges - {orderId};
      }
    }

    /** The pickup effect: the page's pickup state after `listPickupAddresses` answered `res`. */
    method LoadPickup(res: Result<Value, Failure>)
      modifies this
      ensures PickupView(pickupAddresses, selectedPickup, pickupError) == PickupLoaded(res, old(pickupAddresses), old(selectedPickup))
      ensures orders == old(orders) && users == old(users) && pendingChanges == old(pendingChanges)
      ensures packageDimensions == old(packageDimensions) && shippingOrder == old(shippingOrder)
    {
      pickupError := Null;
      if res.Err? {
        pickupError := Or(res.error.message, Str(PickupLoadFailed));
        return;
      }
      var data := res.value;
      if !(Truthy(data) && Truthy(Get(data, "success"))) {
        pickupError := Or(Get(data, "message"), Str(PickupLoadFailed));
        return;
      }
      var listed := Get(data, "addresses");
      var addresses := if listed.Arr? then listed.elems else [];
      pickupAddresses := addresses;
      var configured := Get(data, "configuredPickup");
      if Truthy(configured) {
        selectedPickup := configured;
      } else if |addresses| > 0 {
        if Nullish(addresses[0]) {
          pickupError := ReadError(addresses[0], "name").message;
        } else {
          selectedPickup := Or(Or(Get(addresses[0], "name"), Str(ToStr(Get(addresses[0], "id")))), Str(""));
        }
      }
    }

    /**
     * The start of `bookShiprocketOrder`: ignored when there is no order or it
     * is already being booked, otherwise the order is marked as being booked.
     * The payload is then built by `BuildPayload` from the page's users,
     * selected pickup and `PackageDimensions`, and `FinishBooking` ends the
     * booking with the call's answer or the error building it threw.
     */
    method BeginBooking(order: Value) returns (proceed: bool)
      modifies this
      ensures proceed <==> Truthy(order) && !StrictEq(old(shippingOrder), Get(order, "id"))
      ensures shippingOrder == if proceed then Get(order, "id") else old(shippingOrder)
      ensures orders == old(orders) && users == old(users) && pendingChanges == old(pendingChanges) && packageDimensions == old(packageDimensions)
      ensures pickupAddresses == old(pickupAddresses) && selectedPickup == old(selectedPickup) && pickupError == old(pickupError)
    {
      if !Truthy(order) || StrictEq(shippingOrder, Get(order, "id")) {
        return false;
      }
      shippingOrder := Get(order, "id");
      proceed := true;
    }

    /**
     * The end of `bookShiprocketOrder`: when the call reported success the
     * stored order is marked shipped with the returned ids and the page's copy
     * patched; after an error (a failed call, or a throw while building the
     * payload) nothing is written. In every case the booking mark is cleared.
     */
    method FinishBooking(order: Value, result: Result<Value, Failure>, store: Collection) returns (shipped: bool)
      requires store.Valid()
      modifies this`orders, this`shippingOrder, store
      ensures store.Valid() && shippingOrder == Null
      ensures shipped <==> Booked(result) && Get(order, "id").Str? && old(store.Has(Get(order, "id").s))
      ensures shipped ==> store.docs == Updated(old(store.docs), Get(order, "id").s, ShipmentUpdate(result.value))
      ensures shipped ==> orders == Patched(old(orders), Get(order, "id"), ShippedFields(result.value))
      ensures !shipped ==> store.docs == old(store.docs) && orders == old(orders)
    {
      shipped := RecordShipment(order, result, store);
      if shipped {
        orders := Patched(orders, Get(order, "id"), ShippedFields(result.value));
      }
      shippingOrder := Null;
    }
  }

  /** The store write after a booking: the shipped status and ids on a reported success, nothing otherwise. */
  method RecordShipment(order: Value, result: Result<Value, Failure>, store: Collection) returns (shipped: bool)
    requires store.Valid()
    modifies store
    ensures store.Valid()
    ensures shipped <==> Booked(result) && Get(order, "id").Str? && old(store.Has(Get(order, "id").s))
    ensures shipped ==> store.docs == Updated(old(store.docs), Get(order, "id").s, ShipmentUpdate(result.value))
    ensures !shipped ==> store.docs == old(store.docs)
  {
    shipped := false;
    if Booked(result) && Get(order, "id").Str? {
      shipped := store.Update(Get(order, "id").s, ShipmentUpdate(result.value));
    }
  }
}
