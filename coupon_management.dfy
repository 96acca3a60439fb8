/**
 * The admin coupon page (src/components/CouponManagement.jsx): the coupon form,
 * the data it saves, the coupon list with its order, and the expiry label.
 */
module CouponManagement {
  import opened Wrappers
  import opened JsValue
  import opened Text
  import opened Seqs
  import opened Firestore
  import Storefront

  /** The form state; the input events put strings, `handleEdit` copies the coupon's own values. */
  datatype CouponForm = CouponForm(
    code: Value, description: Value, discountType: Value, discountValue: Value,
    minOrderValue: Value, maxDiscount: Value, usageLimit: Value, usedCount: Value,
    validFrom: Value, validUntil: Value, isActive: Value)

  /** The form after `resetForm`. */
  function EmptyCouponForm(): (f: CouponForm)
    ensures f.code == Str("") && f.discountValue == Str("") && f.discountType == Str("percentage")
    ensures f.usedCount == Num(0.0) && f.isActive == Bool(true)
  {
    CouponForm(Str(""), Str(""), Str("percentage"), Str(""), Str(""), Str(""), Str(""), Num(0.0),
               Str(""), Str(""), Bool(true))
  }

  /**
   * `handleEdit(coupon)`: the form filled from a coupon. `isoMinutes` stands for
   * `new Date(v).toISOString().slice(0, 16)`, which the model does not format.
   */
  function EditForm(coupon: Value, isoMinutes: Value -> Value): (f: CouponForm)
    ensures f.code == Or(Get(coupon, "code"), Str(""))
    ensures !Truthy(Get(coupon, "discountType")) ==> f.discountType == Str("percentage")
    ensures Get(coupon, "isActive").Undefined? ==> f.isActive == Bool(true)
    ensures !Get(coupon, "isActive").Undefined? ==> f.isActive == Get(coupon, "isActive")
    ensures !Truthy(Get(coupon, "validUntil")) ==> f.validUntil == Str("")
    ensures Truthy(Get(coupon, "validUntil")) ==> f.validUntil == isoMinutes(Get(coupon, "validUntil"))
  {
    var dateText := (v: Value) => if Truthy(v) then isoMinutes(v) else Str("");
    CouponForm(
      Or(Get(coupon, "code"), Str("")), Or(Get(coupon, "description"), Str("")),
      Or(Get(coupon, "discountType"), Str("percentage")), Or(Get(coupon, "discountValue"), Str("")),
      Or(Get(coupon, "minOrderValue"), Str("")), Or(Get(coupon, "maxDiscount"), Str("")),
      Or(Get(coupon, "usageLimit"), Str("")), Or(Get(coupon, "usedCount"), Num(0.0)),
      dateText(Get(coupon, "validFrom")), dateText(Get(coupon, "validUntil")),
      if Get(coupon, "isActive").Undefined? then Bool(true) else Get(coupon, "isActive"))
  }

  // ---------------------------------------------------------------- saving

  /** Submit is refused without a code or a discount value. */
  predicate Submittable(f: CouponForm) { Truthy(f.code) && Truthy(f.discountValue) }

  /** `Number(v) || 0` */
  function NumberOrZero(v: Value): (r: Value)
    ensures r.Num?
    ensures Truthy(ToNumber(v)) ==> r == ToNumber(v)
    ensures !Truthy(ToNumber(v)) ==> r == Num(0.0)
  {
    var n := ToNumber(v);
    if Truthy(n) then n else Num(0.0)
  }

  /** The values `handleSubmit` saves, once the code and description have been read. */
  datatype CouponRecord = CouponRecord(
    code: string, description: string, discountType: Value, discountValue: Value,
    minOrderValue: Value, maxDiscount: Value, usageLimit: Value, usedCount: Value,
    validFrom: Value, validUntil: Value, isActive: Value)

  /** A set form date becomes a Timestamp, an empty one null. */
  function StampOrNull(v: Value, toStamp: Value -> Value): Value {
    if Truthy(v) then toStamp(v) else Null
  }

  /**
   * `couponData` in `handleSubmit`, with `toStamp` standing for
   * `Timestamp.fromDate(new Date(v))`; `None` when the code or description is
   * not a string and reading it throws.
   */
  function CouponData(f: CouponForm, toStamp: Value -> Value): (r: Option<CouponRecord>)
    ensures r.Some? <==> f.code.Str? && f.description.Str?
    ensures r.Some? ==> r.value.code == Trim(ToUpper(f.code.s)) && r.value.description == Trim(f.description.s)
    ensures r.Some? ==> r.value.discountValue == ToNumber(f.discountValue)
    ensures r.Some? ==> r.value.minOrderValue.Num? && r.value.maxDiscount.Num? && r.value.usageLimit.Num?
    ensures r.Some? && !Truthy(ToNumber(f.minOrderValue)) ==> r.value.minOrderValue == Num(0.0)
    ensures r.Some? && Truthy(ToNumber(f.usageLimit)) ==> r.value.usageLimit == ToNumber(f.usageLimit)
    ensures r.Some? ==> r.value.usedCount == (if Truthy(f.usedCount) then f.usedCount else Num(0.0))
    ensures r.Some? ==> r.value.validUntil == (if Truthy(f.validUntil) then toStamp(f.validUntil) else Null)
    ensures r.Some? ==> r.value.isActive == f.isActive && r.value.discountType == f.discountType
  {
    if f.code.Str? && f.description.Str? then
      Some(CouponRecord(
        Trim(ToUpper(f.code.s)), Trim(f.description.s), f.discountType, ToNumber(f.discountValue),
        NumberOrZero(f.minOrderValue), NumberOrZero(f.maxDiscount), NumberOrZero(f.usageLimit),
        Or(f.usedCount, Num(0.0)), StampOrNull(f.validFrom, toStamp), StampOrNull(f.validUntil, toStamp),
        f.isActive))
    else None
  }

  /** The fields every save writes; a create adds `createdAt`. */
  const SavedKeys: set<string> := {"code", "description", "discountType", "discountValue", "minOrderValue",
                                   "maxDiscount", "usageLimit", "usedCount", "validFrom", "validUntil",
                                   "isActive", "updatedAt"}

  /** The document fields for a record, with `updatedAt` the time `Timestamp.now()` gives. */
  function Fields(c: CouponRecord, now: Value): (r: map<string, Value>)
    ensures r.Keys == SavedKeys
  {
    map["code" := Str(c.code), "description" := Str(c.description), "discountType" := c.discountType,
        "discountValue" := c.discountValue, "minOrderValue" := c.minOrderValue, "maxDiscount" := c.maxDiscount,
        "usageLimit" := c.usageLimit, "usedCount" := c.usedCount, "validFrom" := c.validFrom,
        "validUntil" := c.validUntil, "isActive" := c.isActive, "updatedAt" := now]
  }

  /** The stored code is the one the storefront looks up for the same typed text. */
  lemma SavedCodeIsLookupCode(f: CouponForm, toStamp: Value -> Value)
    requires CouponData(f, toStamp).Some?
    ensures CouponData(f, toStamp).value.code == ToUpper(Trim(f.code.s))
  {
    UpperTrimCommute(f.code.s);
  }

  lemma UpperTrimCommute(s: string)
    ensures Trim(ToUpper(s)) == ToUpper(Trim(s))
  {
    TrimUpperStart(s);
    TrimUpperEnd(TrimStart(s));
  }

  /** Upper-casing neither makes nor removes white space. */
  lemma UpperKeepsSpace(c: char)
    ensures IsSpace(UpperChar(c)) <==> IsSpace(c)
  {
  }

  lemma {:induction false} TrimUpperStart(s: string)
    ensures TrimStart(ToUpper(s)) == ToUpper(TrimStart(s))
    decreases |s|
  {
    if s != [] {
      UpperKeepsSpace(s[0]);
      assert ToUpper(s)[0] == UpperChar(s[0]);
      if IsSpace(s[0]) {
        assert ToUpper(s)[1..] == ToUpper(s[1..]);
        TrimUpperStart(s[1..]);
      }
    }
  }

  lemma {:induction false} TrimUpperEnd(s: string)
    ensures TrimEnd(ToUpper(s)) == ToUpper(TrimEnd(s))
    decreases |s|
  {
    if s != [] {
      UpperKeepsSpace(s[|s| - 1]);
      assert ToUpper(s)[|s| - 1] == UpperChar(s[|s| - 1]);
      if IsSpace(s[|s| - 1]) {
        assert ToUpper(s)[..|s| - 1] == ToUpper(s[..|s| - 1]);
        TrimUpperEnd(s[..|s| - 1]);
      }
    }
  }

  /**
   * The form writes `isActive`, never the `active` field the storefront's lookup
   * requires, so no coupon saved here is ever applied at the cart.
   */
  lemma AdminCouponsNeverApplied(coupons: seq<Doc>, code: string, currentSubtotal: int, now: int)
    requires code != ""
    requires forall d :: d in coupons ==> d.data.Keys <= SavedKeys + {"createdAt"}
    ensures Storefront.AppliedCoupon(code, currentSubtotal, coupons, now) ==
      Storefront.CouponState(Num(0.0), Storefront.InvalidCoupon)
  {
    Storefront.CouponWithoutActiveFlagNeverFound(code, currentSubtotal, coupons, now);
  }

  /** With the intended lookup, an active coupon saved here is found under the code typed at the cart. */
  lemma AdminCouponFoundIntended(f: CouponForm, toStamp: Value -> Value, now: Value, id: string, coupons: seq<Doc>,
                                 code: string)
    requires CouponData(f, toStamp).Some? && f.isActive == Bool(true)
    requires ToUpper(Trim(code)) == ToUpper(Trim(f.code.s))
    requires Doc(id, Fields(CouponData(f, toStamp).value, now)) in coupons
    ensures Doc(id, Fields(CouponData(f, toStamp).value, now)) in Storefront.CouponMatchesIntended(coupons, code)
  {
    SavedCodeIsLookupCode(f, toStamp);
    var data := Fields(CouponData(f, toStamp).value, now);
    FieldsCarry(CouponData(f, toStamp).value, now);
    assert data["code"] == Str(ToUpper(Trim(code))) && data["isActive"] == Bool(true);
  }

  /** The saved document holds the record's code and active flag. */
  lemma FieldsCarry(c: CouponRecord, now: Value)
    ensures "code" in Fields(c, now) && Fields(c, now)["code"] == Str(c.code)
    ensures "isActive" in Fields(c, now) && Fields(c, now)["isActive"] == c.isActive
  {
  }

  // ---------------------------------------------------------------- the list

  /** `v?.toDate?.() || null` */
  function DateOrNull(v: Value): (r: Value)
    ensures r.JsDate? || r.Null?
    ensures v.Stamp? ==> r == JsDate(v.millis)
  {
    if v.Stamp? then JsDate(v.millis) else Null
  }

  /** `{ id: doc.id, ...doc.data(), validFrom, validUntil }`: a stored `id` field wins over the document id. */
  function Loaded(d: Doc): (r: Value)
    ensures r.Obj?
    ensures Get(r, "validFrom") == DateOrNull(Get(Obj(d.data), "validFrom"))
    ensures Get(r, "validUntil") == DateOrNull(Get(Obj(d.data), "validUntil"))
    ensures Get(r, "id") == (if "id" in d.data then d.data["id"] else Str(d.id))
  {
    Obj((map["id" := Str(d.id)] + d.data)
      ["validFrom" := DateOrNull(Get(Obj(d.data), "validFrom"))]
      ["validUntil" := DateOrNull(Get(Obj(d.data), "validUntil"))])
  }

  /** `c.createdAt?.seconds` as the subtraction reads it. */
  function CreatedSeconds(c: Value): Value { ToNumber(Get(Get(c, "createdAt"), "seconds")) }

  /**
   * `(a, b) => b.createdAt?.seconds - a.createdAt?.seconds || 0` is negative, so
   * `a` goes first; a NaN difference counts as 0 and keeps the order.
   */
  predicate NewerFirst(a: Value, b: Value) {
    CreatedSeconds(a).Num? && CreatedSeconds(b).Num? && CreatedSeconds(b).n - CreatedSeconds(a).n < 0.0
  }

  /** Every document as `loadCoupons` reads it, before sorting. */
  function LoadedAll(docs: seq<Doc>): (r: seq<Value>)
    ensures |r| == |docs| && forall i :: 0 <= i < |docs| ==> r[i] == Loaded(docs[i])
  {
    seq(|docs|, i requires 0 <= i < |docs| => Loaded(docs[i]))
  }

  /** The coupons as `loadCoupons` lists them: every loaded document, reordered. */
  function CouponList(docs: seq<Doc>): (r: seq<Value>)
    ensures |r| == |docs|
    ensures multiset(r) == multiset(LoadedAll(docs))
  {
    SortBy(LoadedAll(docs), NewerFirst)
  }

  /** Creation times that never increase along the list. */
  predicate NewestToOldest(r: seq<Value>) {
    forall i, j :: 0 <= i < j < |r| ==>
      CreatedSeconds(r[i]).Num? && CreatedSeconds(r[j]).Num? && CreatedSeconds(r[i]).n >= CreatedSeconds(r[j]).n
  }

  /** Sorting coupons with numeric creation times puts them from the newest to the oldest. */
  lemma SortedNewestFirst(items: seq<Value>)
    requires forall c :: c in items ==> CreatedSeconds(c).Num?
    ensures NewestToOldest(SortBy(items, NewerFirst))
  {
    forall a, b | a in items && b in items
      ensures NewerFirst(a, b) <==> SecondsKey(b) < SecondsKey(a)
    {
    }
    SortByDescendingRealKey(items, NewerFirst, SecondsKey);
    PermutationMembers(items, SortBy(items, NewerFirst));
  }

  /** The numeric creation time, or 0 when there is none. */
  function SecondsKey(c: Value): real { if CreatedSeconds(c).Num? then CreatedSeconds(c).n else 0.0 }

  /** When every coupon has a numeric creation time, the list runs from the newest to the oldest. */
  lemma NewestFirst(docs: seq<Doc>)
    requires forall i :: 0 <= i < |docs| ==> CreatedSeconds(Loaded(docs[i])).Num?
    ensures NewestToOldest(CouponList(docs))
  {
    var items := LoadedAll(docs);
    assert forall c :: c in items ==> CreatedSeconds(c).Num?;
    SortedNewestFirst(items);
  }

  /**
   * `isExpired(validUntil)` at time `now`; `timeOf` stands for `new Date(v)` on
   * values that are not dates (`None` for an invalid date).
   */
  function IsExpired(validUntil: Value, now: int, timeOf: Value -> Option<int>): (b: bool)
    ensures !Truthy(validUntil) ==> !b
    ensures validUntil.JsDate? ==> (b <==> validUntil.time < now)
  {
    if !Truthy(validUntil) then false
    else
      var t := if validUntil.JsDate? then Some(validUntil.time) else timeOf(validUntil);
      t.Some? && t.value < now
  }

  /** The status shown on a coupon card. */
  function StatusLabel(coupon: Value, now: int, timeOf: Value -> Option<int>): (r: string)
    ensures IsExpired(Get(coupon, "validUntil"), now, timeOf) ==> r == "Expired"
    ensures r == "Active" <==> !IsExpired(Get(coupon, "validUntil"), now, timeOf) && Truthy(Get(coupon, "isActive"))
    ensures r in {"Expired", "Active", "Inactive"}
  {
    if IsExpired(Get(coupon, "validUntil"), now, timeOf) then "Expired"
    else if Truthy(Get(coupon, "isActive")) then "Active" else "Inactive"
  }

  /** A listed coupon's expiry is a date or null, so its label needs no date parsing. */
  lemma ListedExpiryIsDate(d: Doc, now: int, timeOf: Value -> Option<int>, other: Value -> Option<int>)
    ensures var until := Get(Loaded(d), "validUntil");
      (until.JsDate? || until.Null?) &&
      IsExpired(until, now, timeOf) == IsExpired(until, now, other)
  {
  }

  // ---------------------------------------------------------------- the page

  /** The fields `toggleActive` writes: the negated flag and the time of the change. */
  function Toggled(coupon: Value, now: Value): (r: map<string, Value>)
    ensures "isActive" in r && r["isActive"] == Bool(!Truthy(Get(coupon, "isActive")))
    ensures "updatedAt" in r && r["updatedAt"] == now && |r.Keys| == 2
  {
    map["isActive" := Bool(!Truthy(Get(coupon, "isActive"))), "updatedAt" := now]
  }

  /** How a submit ended. */
  datatype SubmitOutcome = Refused | Failed | Saved

  /**
   * A submit saves exactly when the form has a code and a value, its record can be built,
   * and it is a create, or an edit of a coupon whose string id names a stored document.
   */
  predicate SaveSucceeds(form: CouponForm, toStamp: Value -> Value, editing: Option<Value>, docs: seq<Doc>) {
    Submittable(form) && CouponData(form, toStamp).Some? &&
    match editing
    case None => true
    case Some(c) => Get(c, "id").Str? && HasId(docs, Get(c, "id").s)
  }

  class CouponPage {
    /** The listed coupons. */
    var coupons: seq<Value>
    var form: CouponForm
    /** The coupon being edited, if any. */
    var editing: Option<Value>
    var showForm: bool
    var successMsg: string

    constructor()
      ensures coupons == [] && form == EmptyCouponForm() && editing.None? && !showForm && successMsg == ""
    {
      coupons := [];
      form := EmptyCouponForm();
      editing := None;
      showForm := false;
      successMsg := "";
    }

    /** `loadCoupons()` */
    method Reload(store: Collection)
      modifies this
      ensures coupons == CouponList(store.docs)
      ensures form == old(form) && editing == old(editing) && showForm == old(showForm) && successMsg == old(successMsg)
    {
      coupons := CouponList(store.docs);
    }

    /** `resetForm()` */
    method ResetForm()
      modifies this
      ensures form == EmptyCouponForm() && editing.None? && !showForm
      ensures coupons == old(coupons) && successMsg == old(successMsg)
    {
      form := EmptyCouponForm();
      editing := None;
      showForm := false;
    }

    /** `handleEdit(coupon)` */
    method Edit(coupon: Value, isoMinutes: Value -> Value)
      modifies this
      ensures editing == Some(coupon) && form == EditForm(coupon, isoMinutes) && showForm
      ensures coupons == old(coupons) && successMsg == old(successMsg)
    {
      editing := Some(coupon);
      form := EditForm(coupon, isoMinutes);
      showForm := true;
    }

    /**
     * `handleSubmit`: refused without a code or value; an edit updates the edited
     * coupon's document and a create adds one under `newId` with `createdAt`;
     * after a save the form is reset and the list reloaded.
     */
    method Submit(store: Collection, newId: string, now: Value, toStamp: Value -> Value) returns (outcome: SubmitOutcome)
      requires store.Valid() && !store.Has(newId)
      modifies this, store
      ensures store.Valid()
      ensures outcome == Refused <==> !Submittable(old(form))
      ensures outcome != Saved ==> store.docs == old(store.docs) && form == old(form) && editing == old(editing)
      ensures outcome == Saved ==> CouponData(old(form), toStamp).Some?
      ensures outcome == Saved && old(editing).None? ==>
        (store.docs == old(store.docs) + [Doc(newId, Fields(CouponData(old(form), toStamp).value, now)["createdAt" := now])] &&
         successMsg == "Coupon created successfully!")
      ensures outcome == Saved && old(editing).Some? ==>
        (Get(old(editing).value, "id").Str? &&
         store.docs == Updated(old(store.docs), Get(old(editing).value, "id").s, Fields(CouponData(old(form), toStamp).value, now)) &&
         successMsg == "Coupon updated successfully!")
      ensures outcome == Saved ==> form == EmptyCouponForm() && editing.None? && !showForm && coupons == CouponList(store.docs)
      ensures outcome != Saved ==> coupons == old(coupons) && showForm == old(showForm) && successMsg == old(successMsg)
      ensures outcome == Saved <==> SaveSucceeds(old(form), toStamp, old(editing), old(store.docs))
    {
      if !Submittable(form) {
        return Refused;
      }
      var record := CouponData(form, toStamp);
      if record.None? {
        return Failed;
      }
      if editing.Some? {
        var id := Get(editing.value, "id");
        if !id.Str? {
          return Failed;
        }
        var ok := store.Update(id.s, Fields(record.value, now));
        if !ok {
          return Failed;
        }
        successMsg := "Coupon updated successfully!";
      } else {
        store.Add(newId, Fields(record.value, now)["createdAt" := now]);
        successMsg := "Coupon created successfully!";
      }
      ResetForm();
      Reload(store);
      outcome := Saved;
    }

    /** `toggleActive(coupon)`: writes the negated flag, then reloads; a failed write changes nothing. */
    method ToggleActive(coupon: Value, store: Collection, now: Value) returns (ok: bool)
      requires store.Valid()
      modifies this`coupons, store
      ensures store.Valid()
      ensures ok ==>
        (Get(coupon, "id").Str? &&
         store.docs == Updated(old(store.docs), Get(coupon, "id").s, Toggled(coupon, now)) &&
         coupons == CouponList(store.docs))
      ensures !ok ==> store.docs == old(store.docs) && coupons == old(coupons)
      ensures ok <==> Get(coupon, "id").Str? && old(store.Has(Get(coupon, "id").s))
    {
      var id := Get(coupon, "id");
      if !id.Str? {
        return false;
      }
      ok := store.Update(id.s, Toggled(coupon, now));
      if ok {
        coupons := CouponList(store.docs);
      }
    }

    /** `handleDelete(couponId)` after the confirmation dialog's answer. */
    method Delete(couponId: string, confirmed: bool, store: Collection)
      requires store.Valid()
      modifies this`coupons, this`successMsg, store
      ensures store.Valid()
      ensures !confirmed ==> store.docs == old(store.docs) && coupons == old(coupons) && successMsg == old(successMsg)
      ensures confirmed ==>
        (store.docs == Removed(old(store.docs), couponId) && !store.Has(couponId) &&
         coupons == CouponList(store.docs) && successMsg == "Coupon deleted successfully!")
    {
      if !confirmed {
        return;
      }
      store.Delete(couponId);
      successMsg := "Coupon deleted successfully!";
      coupons := CouponList(store.docs);
    }
  }
}
