/**
 * The account summary (src/components/MyAccount.jsx): amounts read as paise, the
 * total spent, the most recent order date, and the five orders listed.
 */
module MyAccount {
  import opened Wrappers
  import opened JsValue
  import opened Text
  import opened Seqs
  import OrderDetails

  // ---------------------------------------------------------------- amounts

  /** The paise rule for a number: above 1000 it already is paise, otherwise rupees. */
  function PaiseOfNumber(x: real): (r: real)
    ensures r == r.Floor as real
    ensures x > 1000.0 ==> x - 0.5 < r <= x + 0.5
    ensures x <= 1000.0 ==> x * 100.0 - 0.5 < r <= x * 100.0 + 0.5
  {
    if x > 1000.0 then Round(x) else Round(x * 100.0)
  }

  predicate AmountChar(c: char) { IsDigit(c) || c == '.' || c == '-' }

  /** `String(raw).replace(/[^\d.-]/g, "")` */
  function KeepAmountChars(s: string): (r: string)
    ensures forall i :: 0 <= i < |r| ==> AmountChar(r[i])
    ensures (forall i :: 0 <= i < |s| ==> AmountChar(s[i])) ==> r == s
  {
    var r := Filter(s, AmountChar);
    assert forall i :: 0 <= i < |r| ==> r[i] in r;
    r
  }

  /** `parseAmountToPaise(raw)`; a NaN number stays NaN. */
  function ParseAmountToPaise(raw: Value): (r: Value)
    ensures Nullish(raw) ==> r == Num(0.0)
    ensures raw.Num? ==> r == Num(PaiseOfNumber(raw.n))
    ensures r.NaN? <==> raw.NaN?
    ensures !Nullish(raw) && !raw.Num? && !raw.NaN? ==>
      r == (match ParseFloat(Str(KeepAmountChars(ToStr(raw))))
            case Num(x) => Num(PaiseOfNumber(x))
            case _ => Num(0.0))
    ensures r.Num? ==> r.n == r.n.Floor as real
  {
    if Nullish(raw) then Num(0.0)
    else if raw.Num? then Num(PaiseOfNumber(raw.n))
    else if raw.NaN? then NaN
    else
      match ParseFloat(Str(KeepAmountChars(ToStr(raw))))
      case Num(x) => Num(PaiseOfNumber(x))
      case _ => Num(0.0)
  }

  /** A string of digits reads as the number it spells. */
  lemma DigitTextAmount(n: nat)
    ensures ParseAmountToPaise(Str(NatToDecimal(n))) == Num(PaiseOfNumber(n as real))
  {
    var d := NatToDecimal(n);
    assert forall i :: 0 <= i < |d| ==> AmountChar(d[i]);
    assert KeepAmountChars(ToStr(Str(d))) == d;
    assert IntToDecimal(n) == d;
    ParseFloatOfIntText(n);
    assert ParseFloat(Str(KeepAmountChars(ToStr(Str(d))))) == Num(n as real);
  }

  /** Text with no digit, point or minus sign counts as nothing. */
  lemma TextWithoutNumberIsZero(s: string)
    requires forall i :: 0 <= i < |s| ==> !AmountChar(s[i])
    ensures ParseAmountToPaise(Str(s)) == Num(0.0)
  {
    FilterKeepsNone(s, AmountChar);
    ParseFloatOfEmpty();
    assert ParseFloat(Str(KeepAmountChars(ToStr(Str(s))))) == NaN;
  }

  /** For whole amounts the paise read here are 100 times the rupees the order page shows. */
  lemma PaiseAgreeWithOrderPage(k: int)
    ensures var shown := OrderDetails.FormatAmount(Num(k as real));
      shown.TwoDecimals? && shown.rupees.Num? &&
      ParseAmountToPaise(Num(k as real)) == Num(shown.rupees.n * 100.0)
  {
    if k > 1000 {
      assert Round(k as real) == k as real by { assert (k as real + 0.5).Floor == k; }
    } else {
      assert Round(k as real * 100.0) == k as real * 100.0 by { assert (k as real * 100.0 + 0.5).Floor == k * 100; }
    }
  }

  // ---------------------------------------------------------------- total

  /** `a + b` on two paise amounts. */
  function Plus(a: Value, b: Value): (r: Value)
    ensures r.Num? <==> a.Num? && b.Num?
    ensures r.Num? ==> r.n == a.n + b.n
  {
    if a.Num? && b.Num? then Num(a.n + b.n) else NaN
  }

  /** The sum of the orders' amounts, each read in paise. */
  function TotalPaise(orders: seq<Value>): (r: Value)
    ensures r.Num? <==> forall i :: 0 <= i < |orders| ==> !Get(orders[i], "amount").NaN?
    ensures r.Num? ==> r.n == r.n.Floor as real
    decreases |orders|
  {
    if orders == [] then Num(0.0)
    else
      var init := orders[..|orders| - 1];
      assert forall i :: 0 <= i < |init| ==> init[i] == orders[i];
      var t := TotalPaise(init);
      var p := ParseAmountToPaise(Get(orders[|orders| - 1], "amount"));
      var r := Plus(t, p);
      assert r.Num? ==> r.n == (t.n.Floor + p.n.Floor) as real;
      r
  }

  /** A missing or non-negative amount reads as a non-negative number of paise. */
  lemma NonNegativeAmount(a: Value)
    requires Nullish(a) || (a.Num? && a.n >= 0.0)
    ensures ParseAmountToPaise(a).Num? && ParseAmountToPaise(a).n >= 0.0
  {
    if a.Num? {
      var r := PaiseOfNumber(a.n);
      assert r > -0.5;
      assert r.Floor >= 0;
    }
  }

  /** Amounts that are all missing or numeric add up to a non-negative total when none is negative. */
  lemma {:induction false} TotalNonNegative(orders: seq<Value>)
    requires forall i :: 0 <= i < |orders| ==> var a := Get(orders[i], "amount"); Nullish(a) || (a.Num? && a.n >= 0.0)
    ensures TotalPaise(orders).Num? && TotalPaise(orders).n >= 0.0
    decreases |orders|
  {
    if orders != [] {
      var init := orders[..|orders| - 1];
      assert forall i :: 0 <= i < |init| ==> init[i] == orders[i];
      TotalNonNegative(init);
      NonNegativeAmount(Get(orders[|orders| - 1], "amount"));
    }
  }

  // ---------------------------------------------------------------- dates

  /** A JavaScript Date: its time value, or `None` for an Invalid Date. */
  datatype Date = Date(time: Option<int>)

  /** `new Date(ms)` after a multiplication: the time value truncated toward zero, invalid for NaN. */
  function DateOfMillis(ms: Value): Date {
    match ms
    case Num(x) => Date(Some(if x >= 0.0 then x.Floor else -((-x).Floor)))
    case _ => Date(None)
  }

  /**
   * `toDate(ts)`; `construct` stands for `new Date(ts)` on the remaining values
   * (strings and numbers), which the model does not parse.
   */
  function ToDate(ts: Value, construct: Value -> Date): (r: Option<Date>)
    ensures !Truthy(ts) ==> r.None?
    ensures ts.Stamp? ==> r == Some(Date(Some(ts.millis)))
    ensures Truthy(ts) ==> r.Some?
  {
    if !Truthy(ts) then None
    else if ts.Stamp? then Some(Date(Some(ts.millis)))
    else if Truthy(Get(ts, "seconds")) then Some(DateOfMillis(Mul(Get(ts, "seconds"), Num(1000.0))))
    else if ts.JsDate? then Some(Date(Some(ts.time)))
    else Some(construct(ts))
  }

  /** `d > latest` on two Dates: false when either is invalid. */
  predicate Later(d: Date, latest: Date) {
    d.time.Some? && latest.time.Some? && d.time.value > latest.time.value
  }

  /** One turn of the `mostRecentDate` loop. */
  function Step(latest: Option<Date>, d: Option<Date>): Option<Date> {
    if d.None? then latest
    else if latest.None? || Later(d.value, latest.value) then d
    else latest
  }

  /** The loop's result over the dates of a prefix of the orders. */
  function LatestOf(ds: seq<Option<Date>>): Option<Date>
    decreases |ds|
  {
    if ds == [] then None else Step(LatestOf(ds[..|ds| - 1]), ds[|ds| - 1])
  }

  function CreatedDates(orders: seq<Value>, construct: Value -> Date): (ds: seq<Option<Date>>)
    ensures |ds| == |orders|
    ensures forall i :: 0 <= i < |orders| ==> ds[i] == ToDate(Get(orders[i], "createdAt"), construct)
  {
    seq(|orders|, i requires 0 <= i < |orders| => ToDate(Get(orders[i], "createdAt"), construct))
  }

  /** `mostRecentDate` */
  method MostRecentDate(orders: seq<Value>, construct: Value -> Date) returns (latest: Option<Date>)
    ensures latest == LatestOf(CreatedDates(orders, construct))
  {
    if |orders| == 0 {
      return None;
    }
    ghost var ds := CreatedDates(orders, construct);
    latest := None;
    var k := 0;
    while k < |orders|
      invariant 0 <= k <= |orders|
      invariant latest == LatestOf(ds[..k])
    {
      var d := ToDate(Get(orders[k], "createdAt"), construct);
      if d.Some? && (latest.None? || Later(d.value, latest.value)) {
        latest := d;
      }
      assert ds[..k + 1][..k] == ds[..k];
      k := k + 1;
    }
    assert ds[..k] == ds;
  }

  /** The result is null exactly when no order has a date. */
  lemma {:induction false} LatestNoneIffNoDates(ds: seq<Option<Date>>)
    ensures LatestOf(ds).None? <==> forall i :: 0 <= i < |ds| ==> ds[i].None?
    decreases |ds|
  {
    if ds != [] {
      var init := ds[..|ds| - 1];
      LatestNoneIffNoDates(init);
      assert forall i :: 0 <= i < |init| ==> init[i] == ds[i];
    }
  }

  /** When every date is valid the result is the latest of them, and one of them. */
  lemma {:induction false} LatestIsMaximum(ds: seq<Option<Date>>)
    requires forall i :: 0 <= i < |ds| ==> ds[i].Some? ==> ds[i].value.time.Some?
    ensures LatestOf(ds).Some? ==> LatestOf(ds) in ds && LatestOf(ds).value.time.Some?
    ensures forall i :: 0 <= i < |ds| && ds[i].Some? ==>
      LatestOf(ds).Some? && ds[i].value.time.value <= LatestOf(ds).value.time.value
    decreases |ds|
  {
    if ds != [] {
      var init := ds[..|ds| - 1];
      assert forall i :: 0 <= i < |init| ==> init[i] == ds[i];
      LatestIsMaximum(init);
      assert forall x :: x in init ==> x in ds;
    }
  }

  // ---------------------------------------------------------------- listing

  /** `orders.slice(0, 5)` */
  function RecentOrders(orders: seq<Value>): (r: seq<Value>)
    ensures |r| <= 5 && |r| <= |orders|
    ensures |orders| <= 5 ==> r == orders
    ensures forall i :: 0 <= i < |r| ==> r[i] == orders[i]
  {
    if |orders| <= 5 then orders else orders[..5]
  }
}
