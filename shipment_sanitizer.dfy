/**
 * The first `createShiprocketOrder` of the cloud functions: every address
 * field is trimmed or defaulted, pincode and phone are reduced to digits and
 * replaced when they have the wrong length, shipping fields fall back to the
 * billing ones, items are normalised, and the carrier is called only when no
 * required field is blank.  A later assignment to the same export replaces this
 * handler when the module loads (see `ShipmentOrder`), so it is never served.
 */
module ShipmentSanitizer {
  import opened Text
  import opened Wrappers
  import opened JsValue
  import opened CarrierCall

  /** The trimmed text of a value, the empty string for undefined or null. */
  function SanitizedText(v: Value): (t: string)
    ensures Trim(t) == t
    ensures t == "" || !IsSpace(t[0])
  {
    TrimIdempotent(ToStr(v));
    if Nullish(v) then "" else Trim(ToStr(v))
  }

  /** `sanitize(val, fallback)`: the sanitised text, or the fallback when that is empty. */
  function Sanitize(v: Value, fallback: string): (r: string)
    ensures Nullish(v) ==> r == fallback
    ensures r != fallback ==> r == SanitizedText(v) && r != ""
    ensures SanitizedText(v) != "" ==> r == SanitizedText(v)
    ensures !AllSpace(fallback) ==> !AllSpace(r)
  {
    var t := SanitizedText(v);
    if t != "" then t else fallback
  }

  /** A value that is undefined, null or blank text. */
  predicate Blank(v: Value) {
    Nullish(v) || Trim(ToStr(v)) == ""
  }

  /** A string value's sanitised text is its trim. */
  lemma SanitizedTextOfString(s: string)
    ensures SanitizedText(Str(s)) == Trim(s)
  {
  }

  /** Non-blank text is not blank as a value. */
  lemma NonBlankText(s: string)
    requires !AllSpace(s)
    ensures !Blank(Str(s))
  {
    TrimEmptyIffBlank(s);
  }

  /** Text already sanitised with a trimmed fallback sanitises to itself. */
  lemma SanitizeIdempotent(v: Value, fallback: string)
    requires Trim(fallback) == fallback
    ensures Sanitize(Str(Sanitize(v, fallback)), fallback) == Sanitize(v, fallback)
  {
    var r := Sanitize(v, fallback);
    SanitizedTextOfString(r);
    if SanitizedText(v) != "" {
      assert r == SanitizedText(v) && Trim(r) == r;
    } else {
      assert r == fallback && SanitizedText(Str(r)) == fallback;
    }
  }

  /** A character that is not white space keeps a text non-blank. */
  lemma NonBlankWith(s: string, i: nat)
    requires i < |s| && !IsSpace(s[i])
    ensures !AllSpace(s)
  {
  }

  predicate IsPincode(s: string) { |s| == 6 && AllDigits(s) }

  predicate IsPhone(s: string) { |s| == 10 && AllDigits(s) }

  /** Digit strings are non-blank as soon as they are non-empty. */
  lemma DigitsNonBlank(s: string)
    requires s != [] && AllDigits(s)
    ensures !AllSpace(s)
  {
    NonBlankWith(s, 0);
  }

  // ---------------------------------------------------------------- addresses

  datatype Side = Billing | Shipping

  /** The address fields a party has. */
  datatype PartyField = CustomerName | LastName | Address | Address2 | City | Pincode | State | Country | Email | Phone

  function PartyFieldName(f: PartyField): string {
    match f
    case CustomerName => "customer_name"
    case LastName => "last_name"
    case Address => "address"
    case Address2 => "address_2"
    case City => "city"
    case Pincode => "pincode"
    case State => "state"
    case Country => "country"
    case Email => "email"
    case Phone => "phone"
  }

  /** The name of a party's field in the request and in the payload: `billing_city`, `shipping_phone`. */
  function Key(side: Side, f: PartyField): string {
    (if side == Billing then "billing_" else "shipping_") + PartyFieldName(f)
  }

  /** The address fields of the billing or the shipping party. */
  datatype Party = Party(name: string, lastName: string, address: string, address2: string, city: string,
                         pincode: string, state: string, country: string, email: string, phone: string)

  function FieldOf(p: Party, f: PartyField): string {
    match f
    case CustomerName => p.name
    case LastName => p.lastName
    case Address => p.address
    case Address2 => p.address2
    case City => p.city
    case Pincode => p.pincode
    case State => p.state
    case Country => p.country
    case Email => p.email
    case Phone => p.phone
  }

  /** The server-side defaults (`DEFAULTS`). */
  const Defaults: Party :=
    Party("Customer", "", "Sansad Marg", "", "New Delhi", "110001", "Delhi", "India", "no-reply@boldandbrew.in", "9999999999")

  /** The defaults are non-blank, and the default pincode and phone have the right shapes. */
  lemma DefaultsWellFormed()
    ensures PartyWellFormed(Defaults)
  {
    NonBlankWith(Defaults.name, 0);
    NonBlankWith(Defaults.address, 0);
    NonBlankWith(Defaults.city, 0);
    NonBlankWith(Defaults.state, 0);
    NonBlankWith(Defaults.country, 0);
    NonBlankWith(Defaults.email, 0);
    DigitsNonBlank(Defaults.pincode);
    DigitsNonBlank(Defaults.phone);
  }

  /** The digits of the sanitised text, replaced by the fallback unless there are exactly `len` of them. */
  function CleanCode(raw: Value, len: nat, fallback: string): (code: string)
    ensures code == fallback || (|code| == len && AllDigits(code))
    ensures |fallback| == len && AllDigits(fallback) ==> |code| == len && AllDigits(code)
  {
    var digits := DigitsOnly(Sanitize(raw, fallback));
    if |digits| == len then digits else fallback
  }

  /** A code that already has the right digits and no surrounding space is kept as it is. */
  lemma CleanCodeKeepsGoodCode(code: string, len: nat, fallback: string)
    requires |code| == len && AllDigits(code) && len > 0
    ensures CleanCode(Str(code), len, fallback) == code
  {
    DigitsNonBlank(code);
    TrimOfTrimmed(code);
    SanitizedTextOfString(code);
  }

  /** The parties this handler accepts: every required field non-blank, a 6-digit pincode and a 10-digit phone. */
  predicate PartyWellFormed(p: Party) {
    !AllSpace(p.name) && !AllSpace(p.address) && !AllSpace(p.city) && !AllSpace(p.state)
    && !AllSpace(p.country) && !AllSpace(p.email) && IsPincode(p.pincode) && IsPhone(p.phone)
  }

  /** A party's fields as the request holds them (`incoming.billing_city`, ...). */
  datatype PartyInput = PartyInput(name: Value, lastName: Value, address: Value, address2: Value, city: Value,
                                   pincode: Value, state: Value, country: Value, email: Value, phone: Value)

  function InputOf(raw: PartyInput, f: PartyField): Value {
    match f
    case CustomerName => raw.name
    case LastName => raw.lastName
    case Address => raw.address
    case Address2 => raw.address2
    case City => raw.city
    case Pincode => raw.pincode
    case State => raw.state
    case Country => raw.country
    case Email => raw.email
    case Phone => raw.phone
  }

  /** The request's fields of the billing or the shipping party. */
  function ReadParty(incoming: Value, side: Side): (raw: PartyInput)
    ensures forall f :: InputOf(raw, f) == Get(incoming, Key(side, f))
  {
    PartyInput(Get(incoming, Key(side, CustomerName)), Get(incoming, Key(side, LastName)),
               Get(incoming, Key(side, Address)), Get(incoming, Key(side, Address2)),
               Get(incoming, Key(side, City)), Get(incoming, Key(side, Pincode)),
               Get(incoming, Key(side, State)), Get(incoming, Key(side, Country)),
               Get(incoming, Key(side, Email)), Get(incoming, Key(side, Phone)))
  }

  /**
   * The billing block (with `DEFAULTS` as `fb`) or the shipping block (with the
   * sanitised billing party as `fb`): each field sanitised with the matching
   * field of `fb` as its fallback (the last name and second address line fall
   * back to ''), and pincode and phone reduced to digits and replaced by the
   * fallback's when they have the wrong number of digits.
   */
  function SanitizedParty(raw: PartyInput, fb: Party): (p: Party)
    ensures PartyWellFormed(fb) ==> PartyWellFormed(p)
  {
    Party(Sanitize(raw.name, fb.name), Sanitize(raw.lastName, ""), Sanitize(raw.address, fb.address),
          Sanitize(raw.address2, ""), Sanitize(raw.city, fb.city), CleanCode(raw.pincode, 6, fb.pincode),
          Sanitize(raw.state, fb.state), Sanitize(raw.country, fb.country), Sanitize(raw.email, fb.email),
          CleanCode(raw.phone, 10, fb.phone))
  }

  /** The block itself: the `let` pincode and phone are reassigned when they have the wrong number of digits. */
  method SanitizeParty(raw: PartyInput, fb: Party) returns (p: Party)
    ensures p == SanitizedParty(raw, fb)
  {
    var name := Sanitize(raw.name, fb.name);
    var address := Sanitize(raw.address, fb.address);
    var address2 := Sanitize(raw.address2, "");
    var pincode := DigitsOnly(Sanitize(raw.pincode, fb.pincode));
    if |pincode| != 6 {
      pincode := fb.pincode;
    }
    var city := Sanitize(raw.city, fb.city);
    var state := Sanitize(raw.state, fb.state);
    var country := Sanitize(raw.country, fb.country);
    var email := Sanitize(raw.email, fb.email);
    var phone := DigitsOnly(Sanitize(raw.phone, fb.phone));
    if |phone| != 10 {
      phone := fb.phone;
    }
    p := Party(name, Sanitize(raw.lastName, ""), address, address2, city, pincode, state, country, email, phone);
  }

  /** Whatever the request says, both parties are well formed: in particular 6-digit pincodes and 10-digit phones. */
  lemma SanitizedPartiesWellFormed(incoming: Value)
    ensures PartyWellFormed(SanitizedParty(ReadParty(incoming, Billing), Defaults))
    ensures PartyWellFormed(SanitizedParty(ReadParty(incoming, Shipping), SanitizedParty(ReadParty(incoming, Billing), Defaults)))
  {
    DefaultsWellFormed();
  }

  /** A field the request leaves out takes the fallback party's value (the last name and second line excepted, which fall back to ''). */
  lemma MissingFieldFallsBack(raw: PartyInput, fb: Party, f: PartyField)
    requires IsPincode(fb.pincode) && IsPhone(fb.phone)
    requires Nullish(InputOf(raw, f))
    ensures FieldOf(SanitizedParty(raw, fb), f) == (if f == LastName || f == Address2 then "" else FieldOf(fb, f))
  {
    FieldsFallBack(raw, fb);
    PickField(raw, fb, SanitizedParty(raw, fb), f);
  }

  /** Every field of `p` that the request leaves out holds the fallback's value (or '' for the last name and second line). */
  predicate FallsBackWhereMissing(raw: PartyInput, fb: Party, p: Party) {
    (Nullish(raw.name) ==> p.name == fb.name) &&
    (Nullish(raw.lastName) ==> p.lastName == "") &&
    (Nullish(raw.address) ==> p.address == fb.address) &&
    (Nullish(raw.address2) ==> p.address2 == "") &&
    (Nullish(raw.city) ==> p.city == fb.city) &&
    (Nullish(raw.pincode) ==> p.pincode == fb.pincode) &&
    (Nullish(raw.state) ==> p.state == fb.state) &&
    (Nullish(raw.country) ==> p.country == fb.country) &&
    (Nullish(raw.email) ==> p.email == fb.email) &&
    (Nullish(raw.phone) ==> p.phone == fb.phone)
  }

  /** The sanitised party falls back field by field. */
  lemma FieldsFallBack(raw: PartyInput, fb: Party)
    requires IsPincode(fb.pincode) && IsPhone(fb.phone)
    ensures FallsBackWhereMissing(raw, fb, SanitizedParty(raw, fb))
  {
    if Nullish(raw.pincode) {
      CodeFallsBack(raw.pincode, 6, fb.pincode);
    }
    if Nullish(raw.phone) {
      CodeFallsBack(raw.phone, 10, fb.phone);
    }
  }

  lemma PickField(raw: PartyInput, fb: Party, p: Party, f: PartyField)
    requires Nullish(InputOf(raw, f)) && FallsBackWhereMissing(raw, fb, p)
    ensures FieldOf(p, f) == (if f == LastName || f == Address2 then "" else FieldOf(fb, f))
  {
  }

  /** A missing pincode or phone takes the fallback's, which has the right digits already. */
  lemma CodeFallsBack(v: Value, len: nat, fallback: string)
    requires Nullish(v) && |fallback| == len && AllDigits(fallback)
    ensures CleanCode(v, len, fallback) == fallback
  {
  }

  /** So a shipping field the request leaves out is the billing field. */
  lemma ShippingFallsBackToBilling(incoming: Value, f: PartyField)
    requires f != LastName && f != Address2
    requires Nullish(Get(incoming, Key(Shipping, f)))
    ensures var billing := SanitizedParty(ReadParty(incoming, Billing), Defaults);
      FieldOf(SanitizedParty(ReadParty(incoming, Shipping), billing), f) == FieldOf(billing, f)
  {
    SanitizedPartiesWellFormed(incoming);
    MissingFieldFallsBack(ReadParty(incoming, Shipping), SanitizedParty(ReadParty(incoming, Billing), Defaults), f);
  }

  /** A field the request gives in a non-blank form is kept, trimmed. */
  lemma GivenTextKept(raw: PartyInput, fb: Party, f: PartyField, s: string)
    requires f != Pincode && f != Phone
    requires InputOf(raw, f) == Str(s) && Trim(s) != ""
    ensures FieldOf(SanitizedParty(raw, fb), f) == Trim(s)
  {
    SanitizedTextOfString(s);
  }

  // ---------------------------------------------------------------- items

  /** One normalised order line. */
  datatype Item = Item(name: string, sku: string, units: real, sellingPrice: real, discount: string, tax: string, hsn: Value)

  /** What every normalised line satisfies: a short non-empty name, a sku, a whole positive unit count, a whole price. */
  predicate ItemGood(x: Item) {
    0 < |x.name| <= 50 && x.sku != [] && x.units >= 1.0 && x.units == x.units.Floor as real
    && x.sellingPrice == x.sellingPrice.Floor as real
  }

  /** `numeric(val, fallback)`: `parseFloat(val)`, or the fallback for undefined, null, '' and NaN. */
  function Numeric(v: Value, fallback: real): (r: real)
    ensures Nullish(v) || StrictEq(v, Str("")) ==> r == fallback
    ensures r == fallback || ParseFloat(v) == Num(r)
  {
    if Nullish(v) || StrictEq(v, Str("")) then fallback
    else
      var n := ParseFloat(v);
      if n.NaN? then fallback else n.n
  }

  /** An integer amount passes through `numeric` unchanged. */
  lemma NumericOfInteger(k: int, fallback: real)
    ensures Numeric(Num(k as real), fallback) == k as real
  {
    ParseFloatOfInteger(k);
  }

  /** The first `n` characters, as `substring(0, n)` takes them. */
  function Prefix(s: string, n: nat): (r: string)
    ensures |r| <= n && StartsWith(s, r)
    ensures |s| <= n ==> r == s
    ensures s != [] && n > 0 ==> r != []
  {
    if |s| <= n then s else s[..n]
  }

  /** A line's name, sanitised against 'Product', cut to 50 characters. */
  function ItemName(it: Value): (r: string)
    ensures 0 < |r| <= 50
  {
    Prefix(Sanitize(Get(it, "name"), "Product"), 50)
  }

  /** A line's SKU or id, sanitised against 'SKU' and the current time. */
  function ItemSku(it: Value, now: int): (r: string)
    ensures r != []
  {
    var fallback := "SKU" + IntToDecimal(now);
    NonBlankWith(fallback, 0);
    Sanitize(Or(Get(it, "sku"), Get(it, "id")), fallback)
  }

  /** `parseInt(it.units || it.quantity || 1, 10)`, and 1 unless that is positive. */
  function Units(it: Value): (u: real)
    ensures u >= 1.0 && u == u.Floor as real
  {
    var units := ParseInt(Or(Or(Get(it, "units"), Get(it, "quantity")), Num(1.0)));
    if units.Num? && units.n > 0.0 then units.n else 1.0
  }

  /** The selling price: 0 when missing or unreadable, otherwise `Math.round(parseFloat(price))`. */
  function SellingPrice(it: Value): (p: real)
    ensures p == p.Floor as real
  {
    var sp := Get(it, "selling_price");
    var sp' := if Nullish(sp) || StrictEq(sp, Str("")) then Num(0.0) else sp;
    var price := Or(ParseFloat(sp'), Num(0.0));
    Round(if price.Num? then price.n else 0.0)
  }

  /** The callback of `order_items.map`: reading a field of a null or undefined line throws. */
  function NormaliseItem(it: Value, now: int): (r: Result<Item, Failure>)
    ensures r.Err? <==> Nullish(it)
    ensures r.Err? ==> r.error == ReadError(it, "name")
    ensures r.Ok? ==> ItemGood(r.value)
  {
    if Nullish(it) then Err(ReadError(it, "name"))
    else
      Ok(Item(ItemName(it), ItemSku(it, now), Units(it), SellingPrice(it),
              Sanitize(Get(it, "discount"), ""), Sanitize(Get(it, "tax"), ""), Or(Get(it, "hsn"), Num(446.0))))
  }

  /** The lines `map` can normalise: none of them is null or undefined. */
  predicate NoNullLine(lines: seq<Value>) {
    forall i :: 0 <= i < |lines| ==> !Nullish(lines[i])
  }

  /** The first null or undefined line. */
  function FirstNull(lines: seq<Value>): (i: nat)
    requires !NoNullLine(lines)
    ensures i < |lines| && Nullish(lines[i]) && NoNullLine(lines[..i])
  {
    if Nullish(lines[0]) then 0
    else
      var i := FirstNull(lines[1..]) + 1;
      assert lines[..i] == [lines[0]] + lines[1..][..i - 1];
      i
  }

  /** `order_items.map(...)`: every line normalised, or the error the first null or undefined line throws. */
  function NormaliseItems(lines: seq<Value>, now: int): (r: Result<seq<Item>, Failure>)
    ensures r.Ok? <==> NoNullLine(lines)
    ensures r.Ok? ==> |r.value| == |lines|
    ensures r.Ok? ==> forall i :: 0 <= i < |lines| ==> NormaliseItem(lines[i], now) == Ok(r.value[i])
    ensures r.Err? ==> r.error == ReadError(lines[FirstNull(lines)], "name")
  {
    if NoNullLine(lines) then
      Ok(seq(|lines|, i requires 0 <= i < |lines| => NormaliseItem(lines[i], now).value))
    else
      Err(ReadError(lines[FirstNull(lines)], "name"))
  }

  /** The sum over the lines of selling price times units. */
  function ItemsTotal(items: seq<Item>): real {
    if items == [] then 0.0 else ItemsTotal(items[..|items| - 1]) + items[|items| - 1].sellingPrice * items[|items| - 1].units
  }

  /** Lines with non-negative prices give a non-negative total. */
  lemma {:induction false} ItemsTotalNonNegative(items: seq<Item>)
    requires forall i :: 0 <= i < |items| ==> items[i].sellingPrice >= 0.0 && items[i].units >= 1.0
    ensures ItemsTotal(items) >= 0.0
  {
    if items != [] {
      ItemsTotalNonNegative(items[..|items| - 1]);
      var last := items[|items| - 1];
      assert last.sellingPrice * last.units >= 0.0;
    }
  }

  /** The request's lines when they form an array, else none. */
  function RawLines(incoming: Value): seq<Value> {
    var v := Get(incoming, "order_items");
    if v.Arr? then v.elems else []
  }

  /** The lines are accepted: there is at least one, and none of them is null or undefined. */
  predicate LinesAccepted(incoming: Value) {
    RawLines(incoming) != [] && NoNullLine(RawLines(incoming))
  }

  // ---------------------------------------------------------------- the order

  /** The sanitised order sent to the carrier. */
  datatype Sanitized = Sanitized(
    orderId: string, orderDate: string, pickup: string, channelId: string, comment: string,
    billing: Party, shippingIsBilling: bool, shipping: Party,
    items: seq<Item>, paymentMethod: string,
    shippingCharges: real, giftwrapCharges: real, transactionCharges: real, totalDiscount: real, subTotal: real,
    length: real, breadth: real, height: real, weight: real)

  /** `functions.config().shiprocket.pickup_name`, trimmed, when it is configured and that is not empty. */
  function ConfiguredPickup(cfg: Value): (r: Option<string>)
    ensures r.Some? ==> !AllSpace(r.value) && Trim(r.value) == r.value
    ensures r.Some? ==> Truthy(cfg) && Truthy(Get(cfg, "pickup_name"))
    ensures !Truthy(cfg) || !Truthy(Get(cfg, "pickup_name")) ==> r.None?
  {
    var name := Get(cfg, "pickup_name");
    var t := SanitizedText(name);
    if Truthy(cfg) && Truthy(name) && t != "" then
      NonBlankWith(t, 0);
      Some(t)
    else None
  }

  /** A configured pickup name that is a string with something other than white space is used, trimmed. */
  lemma ConfiguredPickupOfString(cfg: Value, s: string)
    requires Truthy(cfg) && Get(cfg, "pickup_name") == Str(s) && Trim(s) != ""
    ensures ConfiguredPickup(cfg) == Some(Trim(s))
  {
    SanitizedTextOfString(s);
  }

  /** `new Date().toISOString().split('T')[0] + ' 12:00'`: the date part of the current time, at noon. */
  function DefaultOrderDate(isoNow: string): (r: string)
    ensures !AllSpace(r)
  {
    var r := Split(isoNow, 'T')[0] + " 12:00";
    NonBlankWith(r, |r| - 1);
    r
  }

  /** The order id, sanitised against the current time. */
  function OrderIdOf(incoming: Value, now: int): (r: string)
    ensures !AllSpace(r)
    ensures Nullish(Get(incoming, "order_id")) ==> r == IntToDecimal(now)
  {
    IntTextUntrimmed(now);
    NonBlankWith(IntToDecimal(now), 0);
    Sanitize(Get(incoming, "order_id"), IntToDecimal(now))
  }

  /** The pickup location, sanitised against the default one. */
  function PickupOf(incoming: Value): (r: string)
    ensures !AllSpace(r)
    ensures Nullish(Get(incoming, "pickup_location")) ==> r == "Primary"
  {
    NonBlankWith("Primary", 0);
    Sanitize(Get(incoming, "pickup_location"), "Primary")
  }

  /** The sanitised billing and shipping parties. */
  function PartiesOf(incoming: Value): (r: (Party, Party))
    ensures PartyWellFormed(r.0) && PartyWellFormed(r.1)
  {
    SanitizedPartiesWellFormed(incoming);
    var billing := SanitizedParty(ReadParty(incoming, Billing), Defaults);
    (billing, SanitizedParty(ReadParty(incoming, Shipping), billing))
  }

  /** `sanitizedOrder` as it is first assembled, for the sanitised parties and the normalised lines `items`. */
  function AssembleOrder(incoming: Value, now: int, isoNow: string, billing: Party, shipping: Party, items: seq<Item>): (o: Sanitized)
    ensures o.billing == billing && o.shipping == shipping && o.items == items
    ensures !AllSpace(o.pickup) && !AllSpace(o.orderId) && !AllSpace(o.orderDate)
  {
    Sanitized(
      OrderIdOf(incoming, now), Sanitize(Get(incoming, "order_date"), DefaultOrderDate(isoNow)), PickupOf(incoming),
      Sanitize(Get(incoming, "channel_id"), ""), Sanitize(Get(incoming, "comment"), "Order from Bold & Brew"),
      billing, Truthy(Get(incoming, "shipping_is_billing")), shipping, items,
      Sanitize(Get(incoming, "payment_method"), "Prepaid"),
      Numeric(Get(incoming, "shipping_charges"), 0.0), Numeric(Get(incoming, "giftwrap_charges"), 0.0),
      Numeric(Get(incoming, "transaction_charges"), 0.0), Numeric(Get(incoming, "total_discount"), 0.0),
      Numeric(Get(incoming, "sub_total"), ItemsTotal(items)),
      Numeric(Get(incoming, "length"), 15.0), Numeric(Get(incoming, "breadth"), 15.0),
      Numeric(Get(incoming, "height"), 15.0), Numeric(Get(incoming, "weight"), 0.5))
  }

  /** What the missing-field check needs of an order: all its required text non-blank, and items. */
  predicate OrderWellFormed(o: Sanitized) {
    PartyWellFormed(o.billing) && PartyWellFormed(o.shipping)
    && !AllSpace(o.pickup) && !AllSpace(o.orderId) && !AllSpace(o.orderDate)
    && o.items != []
  }

  /** The order with the configured pickup name, when there is one, in place of the requested one. */
  function WithConfiguredPickup(o: Sanitized, cfg: Value): (r: Sanitized)
    ensures r == o.(pickup := r.pickup)
    ensures ConfiguredPickup(cfg).Some? ==> r.pickup == ConfiguredPickup(cfg).value
    ensures ConfiguredPickup(cfg).None? ==> r == o
  {
    match ConfiguredPickup(cfg)
    case Some(name) => o.(pickup := name)
    case None => o
  }

  /** The override block: `sanitizedOrder.pickup_location` is overwritten when a pickup name is configured. */
  method ApplyConfiguredPickup(o: Sanitized, cfg: Value) returns (r: Sanitized)
    ensures r == WithConfiguredPickup(o, cfg)
  {
    r := o;
    var configured := ConfiguredPickup(cfg);
    if configured.Some? {
      r := r.(pickup := configured.value);
    }
  }

  /**
   * `incoming` through the item check, and the pickup override.  The lines are
   * normalised before the item check, so a null line's error comes first; the
   * configured pickup name replaces the requested one after the order is assembled.
   */
  function SanitizedOrder(incoming: Value, now: int, isoNow: string, cfg: Value): (r: Result<Sanitized, Failure>)
    ensures r.Ok? <==> LinesAccepted(incoming)
    ensures r.Err? && RawLines(incoming) != [] ==> r.error == ReadError(RawLines(incoming)[FirstNull(RawLines(incoming))], "name")
    ensures r.Err? && RawLines(incoming) == [] ==> r.error == PlainError("order_items required")
    ensures r.Ok? ==> OrderWellFormed(r.value) && |r.value.items| == |RawLines(incoming)|
    ensures r.Ok? ==> r.value.pickup == (match ConfiguredPickup(cfg) case Some(name) => name case None => PickupOf(incoming))
  {
    var lines := NormaliseItems(RawLines(incoming), now);
    if lines.Err? then Err(lines.error)
    else if lines.value == [] then Err(PlainError("order_items required"))
    else
      var parties := PartiesOf(incoming);
      Ok(WithConfiguredPickup(AssembleOrder(incoming, now, isoNow, parties.0, parties.1, lines.value), cfg))
  }

  /** Dimensions and weight the request leaves out are 15 x 15 x 15 cm and 0.5 kg; a missing sub-total is the lines' total. */
  lemma AbsentPackageDefaults(incoming: Value, now: int, isoNow: string, billing: Party, shipping: Party, items: seq<Item>)
    requires Nullish(Get(incoming, "length")) && Nullish(Get(incoming, "breadth")) && Nullish(Get(incoming, "height"))
    requires Nullish(Get(incoming, "weight")) && Nullish(Get(incoming, "sub_total"))
    ensures var o := AssembleOrder(incoming, now, isoNow, billing, shipping, items);
      o.length == 15.0 && o.breadth == 15.0 && o.height == 15.0 && o.weight == 0.5 && o.subTotal == ItemsTotal(items)
  {
  }

  /** The billing block, then the shipping block falling back to the sanitised billing party. */
  method SanitizeParties(incoming: Value) returns (billing: Party, shipping: Party)
    ensures (billing, shipping) == PartiesOf(incoming)
  {
    billing := SanitizeParty(ReadParty(incoming, Billing), Defaults);
    shipping := SanitizeParty(ReadParty(incoming, Shipping), billing);
  }

  // ---------------------------------------------------------------- required fields

  /** The fields the check reads: a party's, or one of the order's own. */
  datatype OrderField = Of(side: Side, field: PartyField) | PickupLocation | OrderId | OrderDate

  /** `sanitizedOrder[f]` */
  function FieldValue(o: Sanitized, f: OrderField): Value {
    match f
    case Of(side, pf) => Str(FieldOf(if side == Billing then o.billing else o.shipping, pf))
    case PickupLocation => Str(o.pickup)
    case OrderId => Str(o.orderId)
    case OrderDate => Str(o.orderDate)
  }

  /** `requiredBilling` and `requiredShipping` */
  function RequiredOf(side: Side): seq<OrderField> {
    [Of(side, CustomerName), Of(side, Address), Of(side, City), Of(side, State),
     Of(side, Pincode), Of(side, Country), Of(side, Email), Of(side, Phone)]
  }

  /** The fields checked before the carrier is called, in the order they are checked. */
  const RequiredFields: seq<OrderField> := RequiredOf(Billing) + RequiredOf(Shipping) + [PickupLocation, OrderId, OrderDate]

  /** What the check reports: a blank field, or the item list being empty. */
  datatype MissingEntry = Field(f: OrderField) | OrderItems

  /** The blank fields among `fields`, in order. */
  function Missing(o: Sanitized, fields: seq<OrderField>): (r: seq<MissingEntry>)
    ensures forall f :: Field(f) in r <==> f in fields && Blank(FieldValue(o, f))
    ensures OrderItems !in r
  {
    if fields == [] then []
    else
      var last := fields[|fields| - 1];
      assert fields == fields[..|fields| - 1] + [last];
      Missing(o, fields[..|fields| - 1]) + (if Blank(FieldValue(o, last)) then [Field(last)] else [])
  }

  /** The `forEach` that collects the blank fields, then the `order_items` check. */
  method MissingFields(o: Sanitized, fields: seq<OrderField>) returns (missing: seq<MissingEntry>)
    ensures missing == Missing(o, fields) + (if o.items == [] then [OrderItems] else [])
  {
    missing := [];
    var i := 0;
    while i < |fields|
      invariant 0 <= i <= |fields|
      invariant missing == Missing(o, fields[..i])
    {
      if Blank(FieldValue(o, fields[i])) {
        missing := missing + [Field(fields[i])];
      }
      assert fields[..i + 1][..i] == fields[..i];
      i := i + 1;
    }
    assert fields[..|fields|] == fields;
    if o.items == [] {
      missing := missing + [OrderItems];
    }
  }

  /** The fields a well-formed order has in non-blank form: all but the last names and second address lines. */
  predicate Checked(f: OrderField) {
    match f
    case Of(_, pf) => pf != LastName && pf != Address2
    case _ => true
  }

  lemma RequiredFieldsChecked(f: OrderField)
    requires f in RequiredFields
    ensures Checked(f)
  {
    assert f in RequiredOf(Billing) || f in RequiredOf(Shipping) || f in [PickupLocation, OrderId, OrderDate];
  }

  /** A well-formed order's checked fields are not blank. */
  lemma CheckedFieldPresent(o: Sanitized, f: OrderField)
    requires OrderWellFormed(o) && Checked(f)
    ensures !Blank(FieldValue(o, f))
  {
    match f
    case Of(side, pf) =>
      var p := if side == Billing then o.billing else o.shipping;
      DigitsNonBlank(p.pincode);
      DigitsNonBlank(p.phone);
      NonBlankText(FieldOf(p, pf));
    case PickupLocation => NonBlankText(o.pickup);
    case OrderId => NonBlankText(o.orderId);
    case OrderDate => NonBlankText(o.orderDate);
  }

  /** With no blank field among them, nothing is reported. */
  lemma NothingMissing(o: Sanitized, fields: seq<OrderField>)
    requires forall f :: f in fields ==> !Blank(FieldValue(o, f))
    ensures Missing(o, fields) == []
  {
  }

  /** The check never blocks a well-formed order. */
  lemma WellFormedHasNothingMissing(o: Sanitized)
    requires OrderWellFormed(o)
    ensures Missing(o, RequiredFields) == []
  {
    forall f | f in RequiredFields
      ensures !Blank(FieldValue(o, f))
    {
      RequiredFieldsChecked(f);
      CheckedFieldPresent(o, f);
    }
    NothingMissing(o, RequiredFields);
  }

  // ---------------------------------------------------------------- the handler

  /** The message reported when the error carries none. */
  const CreateFallback := "Failed to create Shiprocket order"

  /** `data.orderData` exists and is an object. */
  predicate OrderDataPresent(data: Value) {
    !Nullish(data) && Truthy(Get(data, "orderData")) && TypeOf(Get(data, "orderData")) == "object"
  }

  /** The error thrown when it is not: reading a property of null, or the explicit check. */
  function OrderDataFailure(data: Value): Failure {
    if Nullish(data) then ReadError(data, "orderData") else PlainError("orderData is required")
  }

  /**
   * The first `createShiprocketOrder`: authentication, then (inside the
   * `try`) the token, the sanitising, the missing-field check and the carrier
   * call.  Every error inside the `try` is rethrown as `internal`.  `token` is
   * what `getShiprocketToken` gives, `carrier` what the order-creation call
   * answers; `sent` is the order the carrier receives, if it is called.
   */
  method CreateShiprocketOrder(authed: bool, data: Value, token: Result<Value, Failure>, now: int, isoNow: string,
                               cfg: Value, carrier: Result<Value, Failure>)
    returns (sent: Option<Sanitized>, out: Outcome)
    ensures !authed ==> sent == None && out == Thrown("unauthenticated", Str("User must be authenticated to create orders"), Undefined)
    ensures authed && token.Err? ==> sent == None && out == Internal(token.error, CreateFallback)
    ensures authed && token.Ok? && !OrderDataPresent(data) ==>
      sent == None && out == Internal(OrderDataFailure(data), CreateFallback)
    ensures authed && token.Ok? && OrderDataPresent(data) && SanitizedOrder(Get(data, "orderData"), now, isoNow, cfg).Err? ==>
      sent == None && out == Internal(SanitizedOrder(Get(data, "orderData"), now, isoNow, cfg).error, CreateFallback)
    ensures sent.Some? <==> authed && token.Ok? && OrderDataPresent(data) && LinesAccepted(Get(data, "orderData"))
    ensures sent.Some? ==> SanitizedOrder(Get(data, "orderData"), now, isoNow, cfg) == Ok(sent.value) && OrderWellFormed(sent.value)
    ensures sent.Some? && carrier.Ok? ==> out == Returned(Obj(map["success" := Bool(true), "data" := carrier.value]))
    ensures sent.Some? && carrier.Err? ==> out == Internal(carrier.error, CreateFallback)
  {
    sent := None;
    if !authed {
      out := Thrown("unauthenticated", Str("User must be authenticated to create orders"), Undefined);
      return;
    }
    if token.Err? {
      out := Internal(token.error, CreateFallback);
      return;
    }
    if !OrderDataPresent(data) {
      out := Internal(OrderDataFailure(data), CreateFallback);
      return;
    }
    var incoming := Get(data, "orderData");
    var order := SanitizedOrder(incoming, now, isoNow, cfg);
    if order.Err? {
      out := Internal(order.error, CreateFallback);
      return;
    }
    var o := order.value;
    var missing := MissingFields(o, RequiredFields);
    WellFormedHasNothingMissing(o);
    if missing != [] {
      out := Internal(PlainError("Missing required address fields"), CreateFallback);
      return;
    }
    sent := Some(o);
    match carrier {
      case Ok(d) =>
        out := Returned(Obj(map["success" := Bool(true), "data" := d]));
      case Err(f) =>
        out := Internal(f, CreateFallback);
    }
  }
}
