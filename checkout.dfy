/**
 * The shipping and payment page (src/components/Checkout.jsx): the saved
 * addresses and how one fills the form, the label and slug an address is saved
 * under, and the two ways a payment is launched (a server-created gateway order,
 * or the client-only fallback) with what each payment handler does afterwards.
 */
module Checkout {
  import opened Wrappers
  import opened JsValue
  import opened Text
  import opened Seqs
  import opened Firestore
  import Payments

  // ---------------------------------------------------------------- labels and slugs

  /** `effectiveLabel()`: 'Other' takes the trimmed custom label, anything else the chosen label. */
  function EffectiveLabel(addressLabel: string, customLabel: string): (r: string)
    ensures r != ""
    ensures addressLabel != "Other" && addressLabel != "" ==> r == addressLabel
    ensures addressLabel == "" ==> r == "Home"
    ensures addressLabel == "Other" && Trim(customLabel) != "" ==> r == Trim(customLabel)
    ensures addressLabel == "Other" && Trim(customLabel) == "" ==> r == "Other"
  {
    if addressLabel == "Other" then (if Trim(customLabel) != "" then Trim(customLabel) else "Other")
    else if addressLabel != "" then addressLabel else "Home"
  }

  /** `[a-z0-9]` */
  predicate SlugChar(c: char) { IsLower(c) || IsDigit(c) }

  /** Letters, digits and dashes, never two dashes in a row. */
  predicate SlugText(s: string) {
    (forall i :: 0 <= i < |s| ==> SlugChar(s[i]) || s[i] == '-') &&
    (forall i :: 0 <= i < |s| - 1 ==> s[i] == '-' ==> s[i + 1] != '-')
  }

  /** A non-empty slug text with no dash at either end. */
  predicate WellFormedSlug(s: string) {
    s != [] && s[0] != '-' && s[|s| - 1] != '-' && SlugText(s)
  }

  /**
   * `.replace(/[^a-z0-9]+/g, '-')`: every run of other characters becomes one
   * dash, and the letters and digits stay in order; `inRun` says the character
   * before `s` was already replaced.
   */
  function DashRuns(s: string, inRun: bool): (r: string)
    ensures SlugText(r)
    ensures inRun && r != [] ==> r[0] != '-'
    decreases |s|
  {
    if s == [] then []
    else
      var rest := DashRuns(s[1..], !SlugChar(s[0]));
      if SlugChar(s[0]) then [s[0]] + rest
      else if inRun then rest
      else "-" + rest
  }

  /** The dash replacement keeps exactly the letters and digits, in their order. */
  lemma {:induction false} DashRunsKeepsSlugChars(s: string, inRun: bool)
    ensures Filter(DashRuns(s, inRun), SlugChar) == Filter(s, SlugChar)
    decreases |s|
  {
    if s != [] {
      var rest := DashRuns(s[1..], !SlugChar(s[0]));
      DashRunsKeepsSlugChars(s[1..], !SlugChar(s[0]));
      if SlugChar(s[0]) {
        FilterCons(s[0], rest, SlugChar);
      } else if !inRun {
        FilterCons('-', rest, SlugChar);
      }
    }
  }

  /** Each character of `s` that is not a letter or digit replaced by a dash. */
  function Masked(s: string): string {
    seq(|s|, i requires 0 <= i < |s| => if SlugChar(s[i]) then s[i] else '-')
  }

  /** `t` with every dash that follows a dash dropped; `afterDash` says a dash came before `t`. */
  function Squeezed(t: string, afterDash: bool): string
    decreases |t|
  {
    if t == [] then []
    else if t[0] == '-' && afterDash then Squeezed(t[1..], true)
    else [t[0]] + Squeezed(t[1..], t[0] == '-')
  }

  /**
   * The dash replacement is the same as masking every other character with a dash and then
   * squeezing each run of dashes to one: one dash stands where each run of other characters stood.
   */
  lemma {:induction false} DashRunsSqueezes(s: string, inRun: bool)
    ensures DashRuns(s, inRun) == Squeezed(Masked(s), inRun)
    decreases |s|
  {
    if s != [] {
      assert Masked(s)[1..] == Masked(s[1..]);
      DashRunsSqueezes(s[1..], !SlugChar(s[0]));
    }
  }

  /** `n` dashes. */
  function Dashes(n: nat): string {
    seq(n, _ => '-')
  }

  /** `.replace(/^-+/, '')`: the result is the text after its leading dashes. */
  function DropLeadingDashes(s: string): (r: string)
    ensures r == [] || r[0] != '-'
    ensures |r| <= |s| && r == s[|s| - |r|..]
    ensures forall i :: 0 <= i < |s| - |r| ==> s[i] == '-'
    ensures SlugText(s) ==> SlugText(r)
    decreases |s|
  {
    if s != [] && s[0] == '-' then DropLeadingDashes(s[1..]) else s
  }

  /** `.replace(/-+$/, '')`: the result is the text before its trailing dashes. */
  function DropTrailingDashes(s: string): (r: string)
    ensures r == [] || r[|r| - 1] != '-'
    ensures |r| <= |s| && r == s[..|r|]
    ensures forall i :: |r| <= i < |s| ==> s[i] == '-'
    ensures SlugText(s) ==> SlugText(r)
    decreases |s|
  {
    if s != [] && s[|s| - 1] == '-' then DropTrailingDashes(s[..|s| - 1]) else s
  }

  /** The document id an address is saved under: the label lower-cased and dashed, or 'saved'. */
  function Slug(text: string): (r: string)
    ensures WellFormedSlug(r)
  {
    var dashed := DashRuns(ToLower(text), false);
    var t := DropTrailingDashes(DropLeadingDashes(dashed));
    TrimmedIsSlug(dashed);
    SavedIsSlug();
    if t == "" then "saved" else t
  }

  /**
   * A label with no letter or digit is saved as 'saved'; any other keeps exactly its
   * lower-cased letters and digits, in order.
   */
  lemma {:induction false} SlugKeepsLettersAndDigits(text: string)
    ensures Filter(ToLower(text), SlugChar) == [] ==> Slug(text) == "saved"
    ensures Filter(ToLower(text), SlugChar) != [] ==> Filter(Slug(text), SlugChar) == Filter(ToLower(text), SlugChar)
  {
    var dashed := DashRuns(ToLower(text), false);
    var t := DropTrailingDashes(DropLeadingDashes(dashed));
    TrimmedIsSlug(dashed);
    DashRunsKeepsSlugChars(ToLower(text), false);
    TrimKeepsSlugChars(dashed);
    if t != "" {
      assert t[0] in t && SlugChar(t[0]);
      assert t[0] in Filter(t, SlugChar);
    }
  }

  /** Dropping dashes at the ends keeps the letters and digits. */
  lemma {:induction false} TrimKeepsSlugChars(dashed: string)
    ensures Filter(DropTrailingDashes(DropLeadingDashes(dashed)), SlugChar) == Filter(dashed, SlugChar)
  {
    LeadingDashesAddNoSlugChars(dashed);
    TrailingDashesAddNoSlugChars(DropLeadingDashes(dashed));
  }

  lemma {:induction false} LeadingDashesAddNoSlugChars(s: string)
    ensures Filter(DropLeadingDashes(s), SlugChar) == Filter(s, SlugChar)
  {
    var r := DropLeadingDashes(s);
    assert s == Dashes(|s| - |r|) + r;
    DashesAddNoSlugChars(|s| - |r|, r);
  }

  lemma {:induction false} TrailingDashesAddNoSlugChars(s: string)
    ensures Filter(DropTrailingDashes(s), SlugChar) == Filter(s, SlugChar)
  {
    var r := DropTrailingDashes(s);
    assert s == r + Dashes(|s| - |r|);
    DashesAddNoSlugChars(|s| - |r|, r);
  }

  /** Dashes before or after a text add no letter or digit to it. */
  lemma {:induction false} DashesAddNoSlugChars(n: nat, x: string)
    ensures Filter(Dashes(n) + x, SlugChar) == Filter(x, SlugChar)
    ensures Filter(x + Dashes(n), SlugChar) == Filter(x, SlugChar)
  {
    FilterKeepsNone(Dashes(n), SlugChar);
    FilterAppend(Dashes(n), x, SlugChar);
    FilterAppend(x, Dashes(n), SlugChar);
  }

  lemma SavedIsSlug()
    ensures WellFormedSlug("saved")
  {
    assert forall i :: 0 <= i < |"saved"| ==> IsLower("saved"[i]);
  }

  /** Dropping the dashes at both ends of a slug text leaves a well-formed slug or nothing. */
  lemma TrimmedIsSlug(dashed: string)
    requires SlugText(dashed)
    ensures var t := DropTrailingDashes(DropLeadingDashes(dashed)); t != "" ==> WellFormedSlug(t)
  {
    var trimmed := DropLeadingDashes(dashed);
    var t := DropTrailingDashes(trimmed);
    if t != "" {
      assert t[0] == trimmed[0];
    }
  }

  /** A slug is its own slug: saving under the same label twice writes the same document. */
  lemma SlugIdempotent(text: string)
    ensures Slug(Slug(text)) == Slug(text)
  {
    var s := Slug(text);
    LowerKeepsSlug(s);
    DashRunsKeepsSlug(s, false);
  }

  /** A label of lower-case letters and digits is its own slug. */
  lemma PlainLabelIsSlug(text: string)
    requires text != [] && forall i :: 0 <= i < |text| ==> SlugChar(text[i])
    ensures Slug(text) == text
  {
    LowerKeepsSlug(text);
    DashRunsKeepsSlug(text, false);
  }

  lemma LowerKeepsSlug(s: string)
    requires forall i :: 0 <= i < |s| ==> SlugChar(s[i]) || s[i] == '-'
    ensures ToLower(s) == s
  {
  }

  lemma {:induction false} DashRunsKeepsSlug(s: string, inRun: bool)
    requires forall i :: 0 <= i < |s| ==> SlugChar(s[i]) || s[i] == '-'
    requires forall i :: 0 <= i < |s| - 1 ==> s[i] == '-' ==> s[i + 1] != '-'
    requires s != [] ==> s[|s| - 1] != '-'
    requires inRun && s != [] ==> s[0] != '-'
    ensures DashRuns(s, inRun) == s
    decreases |s|
  {
    if s != [] {
      var tail := s[1..];
      assert s == [s[0]] + tail;
      DashRunsKeepsSlug(tail, !SlugChar(s[0]));
      if SlugChar(s[0]) {
        assert DashRuns(s, inRun) == [s[0]] + DashRuns(tail, false);
      } else {
        assert s[0] == '-' && !inRun;
        assert DashRuns(s, inRun) == "-" + DashRuns(tail, true);
      }
    }
  }

  // ---------------------------------------------------------------- the form

  /** The seven address fields the form shares with a saved address. */
  const AddressFields: seq<string> := ["fullName", "address", "pincode", "city", "state", "email", "phone"]

  /** The form on the first render. */
  function InitialForm(): (f: map<string, Value>)
    ensures forall k :: k in AddressFields ==> k in f && f[k] == Str("")
    ensures "saveForFuture" in f && f["saveForFuture"] == Bool(false)
  {
    map["fullName" := Str(""), "address" := Str(""), "pincode" := Str(""), "city" := Str(""),
        "state" := Str(""), "email" := Str(""), "phone" := Str(""), "saveForFuture" := Bool(false)]
  }

  /** `{ ...f, k: addr.k || '' }` for every `k` of `keys`. */
  function CopyFields(f: map<string, Value>, addr: Value, keys: seq<string>): (r: map<string, Value>)
    ensures r.Keys == f.Keys + (set k | k in keys)
    ensures forall k :: k in keys ==> r[k] == Or(Get(addr, k), Str(""))
    ensures forall k :: k in f && k !in keys ==> r[k] == f[k]
    decreases |keys|
  {
    if keys == [] then f
    else
      var init := keys[..|keys| - 1];
      var last := keys[|keys| - 1];
      assert forall k :: k in keys <==> k in init || k == last;
      CopyFields(f, addr, init)[last := Or(Get(addr, last), Str(""))]
  }

  /** `keys` copied from `addr` as `CopyFields` does, then `flag` set to `v`. */
  function CopyFieldsThenSet(f: map<string, Value>, addr: Value, keys: seq<string>, flag: string, v: Value)
    : (r: map<string, Value>)
    requires flag !in keys
    ensures forall k :: k in keys ==> k in r && r[k] == Or(Get(addr, k), Str(""))
    ensures flag in r && r[flag] == v
    ensures forall k :: k in f && k !in keys && k != flag ==> k in r && r[k] == f[k]
    ensures r.Keys == f.Keys + (set k | k in keys) + {flag}
  {
    CopyFields(f, addr, keys)[flag := v]
  }

  /** The form after `applyAddressToForm(addr)` on a truthy `addr`. */
  function AddressApplied(f: map<string, Value>, addr: Value): (r: map<string, Value>)
    ensures forall k :: k in AddressFields ==> k in r && r[k] == Or(Get(addr, k), Str(""))
    ensures "saveForFuture" in r && r["saveForFuture"] == Bool(false)
    ensures forall k :: k in f && k !in AddressFields && k != "saveForFuture" ==> k in r && r[k] == f[k]
    ensures r.Keys == f.Keys + (set k | k in AddressFields) + {"saveForFuture"}
  {
    assert "saveForFuture" !in AddressFields;
    CopyFieldsThenSet(f, addr, AddressFields, "saveForFuture", Bool(false))
  }

  /** Applying the same address twice is applying it once. */
  lemma ApplyTwice(f: map<string, Value>, addr: Value)
    ensures AddressApplied(AddressApplied(f, addr), addr) == AddressApplied(f, addr)
  {
  }

  // ---------------------------------------------------------------- saved addresses

  /** `{ id: 'legacy', label: 'Default', ...data.address }` when the user document has an address. */
  function LegacyAddress(userData: Option<map<string, Value>>): (r: Option<Value>)
    ensures r.Some? <==> userData.Some? && Truthy(Get(Obj(userData.value), "address"))
    ensures r.Some? ==> r.value.Obj? && Truthy(r.value)
  {
    if userData.Some? && Truthy(Get(Obj(userData.value), "address")) then
      Some(Obj(map["id" := Str("legacy"), "label" := Str("Default")] + Spread(Get(Obj(userData.value), "address"))))
    else None
  }

  /** The entries of the `addresses` subcollection as the page reads them. */
  function AddressList(docs: seq<Doc>): (r: seq<Value>)
    ensures |r| == |docs| && forall i :: 0 <= i < |docs| ==> r[i] == AsObject(docs[i])
  {
    seq(|docs|, i requires 0 <= i < |docs| => AsObject(docs[i]))
  }

  /** The saved addresses: the subcollection when it has entries, else the legacy address alone, else none. */
  function Combined(userData: Option<map<string, Value>>, docs: seq<Doc>): (r: seq<Value>)
    ensures docs != [] ==> r == AddressList(docs)
    ensures docs == [] && LegacyAddress(userData).Some? ==> r == [LegacyAddress(userData).value]
    ensures docs == [] && LegacyAddress(userData).None? ==> r == []
    ensures r == [] <==> docs == [] && LegacyAddress(userData).None?
  {
    var list := AddressList(docs);
    if |list| > 0 then list
    else if LegacyAddress(userData).Some? then [LegacyAddress(userData).value]
    else []
  }

  /**
   * The `else if (legacyAddress && ...)` branch of `fetchSavedAddress` never
   * runs: whenever there is a legacy address the combined list is not empty.
   */
  lemma LegacyBranchUnreachable(userData: Option<map<string, Value>>, docs: seq<Doc>)
    ensures LegacyAddress(userData).Some? ==> Combined(userData, docs) != []
  {
  }

  /** The payload written for an address: `{ ...addressData, label, updatedAt }`. */
  function Payload(addressData: map<string, Value>, name: string, now: Value): (r: map<string, Value>)
    ensures r.Keys == addressData.Keys + {"label", "updatedAt"}
    ensures r["label"] == Str(name) && r["updatedAt"] == now
    ensures forall k :: k in addressData && k != "label" && k != "updatedAt" ==> r[k] == addressData[k]
  {
    addressData["label" := Str(name)]["updatedAt" := now]
  }

  predicate OtherSlug(slug: string, a: Value) { !StrictEq(Get(a, "id"), Str(slug)) }

  /** The saved address first, then every other address whose id differs from it. */
  function SavedAfterPersist(prev: seq<Value>, slug: string, payload: map<string, Value>): (r: seq<Value>)
    ensures r != [] && r[0] == Obj(map["id" := Str(slug)] + payload)
    ensures forall a :: a in r[1..] <==> a in prev && Get(a, "id") != Str(slug)
    ensures Subseq(r[1..], prev)
  {
    [Obj(map["id" := Str(slug)] + payload)] + Filter(prev, a => OtherSlug(slug, a))
  }

  /** After saving, the new address is first and no later entry has its slug. */
  lemma PersistedAddressUnique(prev: seq<Value>, slug: string, payload: map<string, Value>)
    ensures var r := SavedAfterPersist(prev, slug, payload);
      Get(r[0], "label") == Get(Obj(payload), "label") &&
      forall i :: 1 <= i < |r| ==> Get(r[i], "id") != Str(slug)
  {
    var r := SavedAfterPersist(prev, slug, payload);
    forall i | 1 <= i < |r|
      ensures Get(r[i], "id") != Str(slug)
    {
      assert r[i] == r[1..][i - 1];
    }
  }

  // ---------------------------------------------------------------- launching a payment

  /** The body sent to `createRazorpayOrder`: the total rounded to whole rupees. */
  function CreateOrderBody(total: real): (r: Value)
    ensures Get(r, "amount") == Num(Round(total)) && Get(r, "currency") == Str("INR")
  {
    Obj(map["amount" := Num(Round(total)), "currency" := Str("INR")])
  }

  /** How `handleSubmit` ends before the customer pays, given what the outside world does. */
  datatype Launch =
    | LoginRequired               // alert, then to /login
    | SdkMissing                  // alert
    | InitiateFailed              // creating the order failed: alert
    | ServerCheckout(orderId: Value, amount: Value, currency: Value)
    | ClientCheckout(paise: real)  // the client-only fallback
    | FallbackFailed              // the fallback widget could not start: alert

  /**
   * `created` is the parsed reply of `createRazorpayOrder` (`None` when the call
   * failed or was not ok); `serverOpens` and `clientOpens` say whether the
   * payment widget starts for the server order and for the fallback.
   */
  function SubmitLaunch(signedIn: bool, sdkLoaded: bool, created: Option<Value>, serverOpens: bool,
                        clientOpens: bool, total: real): (r: Launch)
    ensures !signedIn ==> r == LoginRequired
    ensures signedIn && !sdkLoaded ==> r == SdkMissing
    ensures r == InitiateFailed <==> signedIn && sdkLoaded && created.None?
    ensures r.ServerCheckout? <==>
      (signedIn && sdkLoaded && created.Some? && Truthy(created.value) && Truthy(Get(created.value, "id")) && serverOpens)
    ensures r.ServerCheckout? ==> r.orderId == Get(created.value, "id") && r.amount == Get(created.value, "amount")
    ensures r.ClientCheckout? ==> r.paise == Round(total * 100.0) && clientOpens
    ensures r.ClientCheckout? || r == FallbackFailed ==>
      (created.Some? && !(Truthy(created.value) && Truthy(Get(created.value, "id")) && serverOpens))
    ensures (signedIn && sdkLoaded && created.Some? &&
             !(Truthy(created.value) && Truthy(Get(created.value, "id")) && serverOpens)) ==>
      (r.ClientCheckout? <==> clientOpens) && (r == FallbackFailed <==> !clientOpens)
  {
    if !signedIn then LoginRequired
    else if !sdkLoaded then SdkMissing
    else if created.None? then InitiateFailed
    else
      var order := created.value;
      if Truthy(order) && Truthy(Get(order, "id")) && serverOpens then
        ServerCheckout(Get(order, "id"), Get(order, "amount"), Get(order, "currency"))
      else if clientOpens then ClientCheckout(Round(total * 100.0))
      else FallbackFailed
  }

  /** A total under half a rupee rounds to 0, which the order endpoint refuses with 400. */
  lemma TinyTotalRefused(total: real, cfg: Value, now: int, gateway: Result<Value, Value>)
    requires total < 0.5
    ensures Payments.CreateRazorpayOrder("POST", CreateOrderBody(total), cfg, now, gateway).1.status == 400
  {
  }

  /**
   * On the server path the gateway is asked for `Math.round(total)` rupees in
   * paise, while the confirmation records `Math.round(total * 100)` paise: the
   * two agree on whole-rupee totals.
   */
  lemma ChargedMatchesRecordedOnWholeRupees(k: int, cfg: Value, now: int, gateway: Result<Value, Value>)
    requires k > 0 && Payments.RazorpayConfigured(cfg)
    ensures var r := Payments.CreateRazorpayOrder("POST", CreateOrderBody(k as real), cfg, now, gateway);
      r.0.Some? && r.0.value.amount == Round(k as real * 100.0)
  {
    assert Round(k as real) == k as real by { assert (k as real + 0.5).Floor == k; }
    assert Round(k as real * 100.0) == k as real * 100.0 by { assert (k as real * 100.0 + 0.5).Floor == k * 100; }
  }

  /** ... and differ on a fractional total: 99.60 rupees is charged as 10000 paise but recorded as 9960. */
  lemma ChargedDiffersFromRecorded(cfg: Value, now: int, gateway: Result<Value, Value>)
    requires Payments.RazorpayConfigured(cfg)
    ensures var r := Payments.CreateRazorpayOrder("POST", CreateOrderBody(99.6), cfg, now, gateway);
      r.0.Some? && r.0.value.amount == 10000.0 && Round(99.6 * 100.0) == 9960.0
  {
    assert (99.6 + 0.5).Floor == 100;
    assert (99.6 * 100.0 + 0.5).Floor == 9960;
  }

  /** The order body with the total rounded to whole paise, as the recorded amount is. */
  function CreateOrderBodyIntended(total: real): (r: Value)
    ensures Get(r, "amount") == Num(Round(total * 100.0) / 100.0) && Get(r, "currency") == Str("INR")
  {
    Obj(map["amount" := Num(Round(total * 100.0) / 100.0), "currency" := Str("INR")])
  }

  /** With that body the gateway is asked for exactly the paise the confirmation records, for every payable total. */
  lemma ChargedMatchesRecordedIntended(total: real, cfg: Value, now: int, gateway: Result<Value, Value>)
    requires Round(total * 100.0) > 0.0 && Payments.RazorpayConfigured(cfg)
    ensures var r := Payments.CreateRazorpayOrder("POST", CreateOrderBodyIntended(total), cfg, now, gateway);
      r.0.Some? && r.0.value.amount == Round(total * 100.0)
  {
  }

  /** What a payment handler does once the gateway reports success. */
  datatype Effects = Effects(
    payment: Value,                          // the `payment` passed to the confirmation page
    verifyRequest: Option<Value>,            // the body posted to `verifyRazorpayPayment`
    orderWrite: Option<map<string, Value>>)  // the order the page itself adds

  /** The order the client-only fallback writes, unverified. */
  function FallbackOrder(uid: string, cartItems: Value, now: Value, total: real, form: map<string, Value>,
                         response: Value): (r: map<string, Value>)
    ensures "status" in r && "userId" in r && "total" in r && "razorpayPaymentId" in r
    ensures "razorpayOrderId" in r && "shipping" in r && "date" in r
    ensures r["status"] == Str("In Process") && r["userId"] == Str(uid) && r["total"] == Num(total)
    ensures r["razorpayPaymentId"] == Get(response, "razorpay_payment_id")
    ensures r["razorpayOrderId"] == Or(Get(response, "razorpay_order_id"), Null)
    ensures r["shipping"] == Obj(form) && r["date"] == now
  {
    map["userId" := Str(uid), "items" := cartItems, "date" := now, "total" := Num(total),
        "status" := Str("In Process"), "shipping" := Obj(form),
        "razorpayPaymentId" := Get(response, "razorpay_payment_id"),
        "razorpayOrderId" := Or(Get(response, "razorpay_order_id"), Null),
        "note" := Str("Saved from client-only checkout (no server verification)")]
  }

  /** The fallback order also records the cart lines and a note that the server did not verify it. */
  lemma FallbackOrderNoted(uid: string, cartItems: Value, now: Value, total: real, form: map<string, Value>,
                           response: Value)
    ensures var r := FallbackOrder(uid, cartItems, now, total, form, response);
      "items" in r && r["items"] == cartItems &&
      "note" in r && r["note"] == Str("Saved from client-only checkout (no server verification)")
  {
  }

  /** The body of the background verification request on the server path. */
  function VerifyBody(response: Value, cartItems: Value, total: real, form: map<string, Value>, uid: string): (r: Value)
    ensures Get(r, "orderId") == Get(response, "razorpay_order_id")
    ensures Get(r, "paymentId") == Get(response, "razorpay_payment_id")
    ensures Get(r, "signature") == Get(response, "razorpay_signature")
    ensures Get(r, "userId") == Str(uid) && Get(r, "shippingForm") == Obj(form)
    ensures Get(r, "saveForFuture") == Get(Obj(form), "saveForFuture")
    ensures Get(r, "cartItems") == cartItems && Get(r, "total") == Num(total)
    ensures Get(r, "paymentMode") == Str("Razorpay")
  {
    Obj(map["orderId" := Get(response, "razorpay_order_id"), "paymentId" := Get(response, "razorpay_payment_id"),
            "signature" := Get(response, "razorpay_signature"), "cartItems" := cartItems, "total" := Num(total),
            "shippingForm" := Obj(form), "userId" := Str(uid), "saveForFuture" := Get(Obj(form), "saveForFuture"),
            "paymentMode" := Str("Razorpay")])
  }

  /**
   * The body the page sends always carries a total and a shipping form, so once the
   * server accepts it the order write goes through unless the cart itself is undefined.
   */
  lemma VerifyBodyWritable(response: Value, cartItems: Value, total: real, form: map<string, Value>, uid: string,
                           cfg: Value, now: int)
    requires Payments.DetailsPresent(VerifyBody(response, cartItems, total, form, uid), cfg)
    ensures NoUndefinedField(Payments.VerifiedOrder(VerifyBody(response, cartItems, total, form, uid), now)) <==>
      !cartItems.Undefined?
  {
    Payments.VerifiedOrderWritable(VerifyBody(response, cartItems, total, form, uid), cfg, now);
  }

  /** The `payment` a handler passes on, with the amount in paise: the gateway's reply on the server path. */
  function ServerPayment(response: Value, total: real): (r: Value)
    ensures Get(r, "amount") == Num(Round(total * 100.0))
    ensures Get(r, "razorpay_payment_id") == Get(response, "razorpay_payment_id")
  {
    With(response, "amount", Num(Round(total * 100.0)))
  }

  /** ... and on the fallback only the two ids and the amount. */
  function ClientPayment(response: Value, total: real): (r: Value)
    ensures Get(r, "amount") == Num(Round(total * 100.0))
    ensures Get(r, "razorpay_payment_id") == Get(response, "razorpay_payment_id")
    ensures Get(r, "razorpay_order_id") == Get(response, "razorpay_order_id")
  {
    Obj(map["razorpay_payment_id" := Get(response, "razorpay_payment_id"),
            "razorpay_order_id" := Get(response, "razorpay_order_id"), "amount" := Num(Round(total * 100.0))])
  }

  /**
   * `options.handler` on the server path and `clientOptions.handler` on the
   * fallback: the server path asks the endpoint to verify and record the
   * order; the fallback records it itself and never asks for verification.
   */
  function Handler(serverPath: bool, response: Value, cartItems: Value, total: real, form: map<string, Value>,
                   uid: string, now: Value): (r: Effects)
    ensures r.verifyRequest.Some? <==> serverPath
    ensures r.orderWrite.Some? <==> !serverPath
    ensures serverPath ==> r.verifyRequest.value == VerifyBody(response, cartItems, total, form, uid)
    ensures !serverPath ==> r.orderWrite.value == FallbackOrder(uid, cartItems, now, total, form, response)
    ensures Get(r.payment, "amount") == Num(Round(total * 100.0))
    ensures Get(r.payment, "razorpay_payment_id") == Get(response, "razorpay_payment_id")
  {
    if serverPath then
      Effects(ServerPayment(response, total), Some(VerifyBody(response, cartItems, total, form, uid)), None)
    else
      Effects(ClientPayment(response, total), None, Some(FallbackOrder(uid, cartItems, now, total, form, response)))
  }

  /** Whatever the gateway answers, the fallback's order is recorded 'In Process' under the signed-in user. */
  lemma FallbackRecordsInProcess(response: Value, cartItems: Value, total: real, form: map<string, Value>,
                                 uid: string, now: Value)
    ensures var e := Handler(false, response, cartItems, total, form, uid, now);
      e.verifyRequest.None? && e.orderWrite.Some? &&
      "status" in e.orderWrite.value && e.orderWrite.value["status"] == Str("In Process") &&
      "userId" in e.orderWrite.value && e.orderWrite.value["userId"] == Str(uid)
  {
  }

  // ---------------------------------------------------------------- the page

  class CheckoutPage {
    var form: map<string, Value>
    var savedAddresses: seq<Value>
    var selectedAddressId: Value
    var addressLabel: string
    var customLabel: string

    constructor()
      ensures form == InitialForm() && savedAddresses == [] && selectedAddressId == Str("")
      ensures addressLabel == "Home" && customLabel == ""
    {
      form := InitialForm();
      savedAddresses := [];
      selectedAddressId := Str("");
      addressLabel := "Home";
      customLabel := "";
    }

    /** `applyAddressToForm(addr)`: nothing on a falsy address. */
    method ApplyAddressToForm(addr: Value)
      modifies this
      ensures !Truthy(addr) ==> form == old(form)
      ensures Truthy(addr) ==> form == AddressApplied(old(form), addr)
      ensures savedAddresses == old(savedAddresses) && selectedAddressId == old(selectedAddressId)
      ensures addressLabel == old(addressLabel) && customLabel == old(customLabel)
    {
      if !Truthy(addr) {
        return;
      }
      form := AddressApplied(form, addr);
    }

    /**
     * `fetchSavedAddress(user)` with the user document's data (`None` when it
     * does not exist) and the `addresses` subcollection. The effect's closure
     * sees the first render's form, whose `fullName` is empty, so the first
     * saved address always fills the form.
     */
    method LoadSaved(userData: Option<map<string, Value>>, docs: seq<Doc>)
      modifies this
      ensures savedAddresses == Combined(userData, docs)
      ensures savedAddresses != [] ==>
        (form == AddressApplied(old(form), savedAddresses[0]) &&
         selectedAddressId == Or(Get(savedAddresses[0], "id"), Str("")))
      ensures savedAddresses == [] ==> form == old(form) && selectedAddressId == old(selectedAddressId)
      ensures addressLabel == old(addressLabel) && customLabel == old(customLabel)
    {
      var combined := Combined(userData, docs);
      savedAddresses := combined;
      if |combined| > 0 && !Truthy(InitialForm()["fullName"]) {
        assert Truthy(combined[0]);
        ApplyAddressToForm(combined[0]);
        selectedAddressId := Or(Get(combined[0], "id"), Str(""));
      }
    }

    /** `handleSelectSaved`: the first saved address with that id fills the form. */
    method SelectSaved(id: Value)
      modifies this
      ensures selectedAddressId == id
      ensures var found := FindFirst(old(savedAddresses), a => StrictEq(Get(a, "id"), id));
        form == (if found.Some? && Truthy(old(savedAddresses)[found.value])
                 then AddressApplied(old(form), old(savedAddresses)[found.value]) else old(form))
      ensures savedAddresses == old(savedAddresses)
      ensures addressLabel == old(addressLabel) && customLabel == old(customLabel)
    {
      selectedAddressId := id;
      var found := FindFirst(savedAddresses, a => StrictEq(Get(a, "id"), id));
      if found.Some? {
        ApplyAddressToForm(savedAddresses[found.value]);
      }
    }

    /**
     * `persistSavedAddress(userId, addressData)`: the address is merged into the
     * user's `addresses` entry named by the label's slug, put first in the saved
     * list, and merged into the user document as its `address`.
     */
    method PersistSavedAddress(userId: string, addressData: map<string, Value>, now: Value,
                               addresses: Collection, users: Collection)
      requires addresses.Valid() && users.Valid() && addresses != users
      modifies this, addresses, users
      ensures addresses.Valid() && users.Valid()
      ensures var name := EffectiveLabel(old(addressLabel), old(customLabel));
        addresses.docs == Merged(old(addresses.docs), Slug(name), Payload(addressData, name, now)) &&
        savedAddresses == SavedAfterPersist(old(savedAddresses), Slug(name), Payload(addressData, name, now))
      ensures users.docs == Merged(old(users.docs), userId, map["address" := Obj(addressData)])
      ensures form == old(form) && selectedAddressId == old(selectedAddressId)
      ensures addressLabel == old(addressLabel) && customLabel == old(customLabel)
    {
      var name := EffectiveLabel(addressLabel, customLabel);
      var slug := Slug(name);
      var payload := Payload(addressData, name, now);
      addresses.SetMerge(slug, payload);
      savedAddresses := SavedAfterPersist(savedAddresses, slug, payload);
      users.SetMerge(userId, map["address" := Obj(addressData)]);
    }
  }
}
