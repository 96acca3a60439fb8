/**
 * JavaScript values as the storefront handles them: documents read from the
 * database, request bodies, form state.  Numbers are exact rationals (so
 * `0.5`, `x / 100` and percentages are exact); floating-point rounding,
 * `Infinity`, exponent and hexadecimal notation are not part of this model.
 * Objects compare structurally, where JavaScript compares references.
 */
module JsValue {
  import opened Text
  import opened Wrappers

  datatype Value =
    | Undefined
    | Null
    | Bool(b: bool)
    | Num(n: real)
    | NaN
    | Str(s: string)
    | Arr(elems: seq<Value>)
    | Obj(fields: map<string, Value>)
    | Stamp(millis: int)   // a Firestore Timestamp
    | JsDate(time: int)    // a valid JavaScript Date, in milliseconds since the epoch

  /** What `if (v)`, `!v`, `&&` and `||` test. */
  predicate Truthy(v: Value) {
    match v
    case Undefined => false
    case Null => false
    case Bool(b) => b
    case Num(n) => n != 0.0
    case NaN => false
    case Str(s) => s != ""
    case _ => true
  }

  /** `v == null`: the values `??` and `?.` step over. */
  predicate Nullish(v: Value) { v.Undefined? || v.Null? }

  /** `a || b` */
  function Or(a: Value, b: Value): Value { if Truthy(a) then a else b }

  /** `a ?? b` */
  function Coalesce(a: Value, b: Value): Value { if Nullish(a) then b else a }

  /** `!!v` */
  function BoolOf(v: Value): Value { Bool(Truthy(v)) }

  /** `a === b` (objects compare by their contents here). */
  predicate StrictEq(a: Value, b: Value) { !a.NaN? && a == b }

  /** `typeof v` */
  function TypeOf(v: Value): string {
    match v
    case Undefined => "undefined"
    case Bool(_) => "boolean"
    case Num(_) => "number"
    case NaN => "number"
    case Str(_) => "string"
    case _ => "object"
  }

  /** `a || b || …`: the first truthy value of a chain, else its last value. */
  function OrChain(vs: seq<Value>): (r: Value)
    requires vs != []
    ensures Truthy(r) <==> exists i :: 0 <= i < |vs| && Truthy(vs[i])
    ensures r in vs
  {
    if |vs| == 1 || Truthy(vs[0]) then vs[0] else OrChain(vs[1..])
  }

  /** `a ?? b ?? …`: the first value of a chain that is not null or undefined, else its last value. */
  function CoalesceChain(vs: seq<Value>): (r: Value)
    requires vs != []
    ensures !Nullish(r) <==> exists i :: 0 <= i < |vs| && !Nullish(vs[i])
    ensures r in vs
  {
    if |vs| == 1 || !Nullish(vs[0]) then vs[0] else CoalesceChain(vs[1..])
  }

  /** `vs[0] || vs[1] || … || fallback`: the first truthy value, else the fallback. */
  function OrElse(vs: seq<Value>, fallback: Value): (r: Value)
    ensures (forall i :: 0 <= i < |vs| ==> !Truthy(vs[i])) ==> r == fallback
    ensures forall i :: 0 <= i < |vs| && Truthy(vs[i]) && (forall j :: 0 <= j < i ==> !Truthy(vs[j])) ==> r == vs[i]
    ensures Truthy(fallback) ==> Truthy(r)
  {
    if vs == [] then fallback
    else if Truthy(vs[0]) then vs[0]
    else
      assert forall i :: 0 < i < |vs| ==> vs[i] == vs[1..][i - 1];
      OrElse(vs[1..], fallback)
  }

  // ---------------------------------------------------------------- properties

  /** `v?.[key]`: a field of an object, the `length` of a string or array, the `seconds` of a Timestamp. */
  function Get(v: Value, key: string): Value {
    match v
    case Obj(f) => if key in f then f[key] else Undefined
    case Arr(e) => if key == "length" then Num(|e| as real) else Undefined
    case Str(s) => if key == "length" then Num(|s| as real) else Undefined
    case Stamp(ms) =>
      if key == "seconds" then Num((ms / 1000) as real)
      else if key == "nanoseconds" then Num(((ms % 1000) * 1000000) as real)
      else Undefined
    case _ => Undefined
  }

  /** `v?.[i]` on an array. */
  function At(v: Value, i: nat): Value {
    if v.Arr? && i < |v.elems| then v.elems[i] else Undefined
  }

  /** The properties `{...v}` copies. */
  function Spread(v: Value): map<string, Value> {
    if v.Obj? then v.fields else map[]
  }

  /** `{ ...v, [key]: x }` */
  function With(v: Value, key: string, x: Value): (r: Value)
    ensures Get(r, key) == x
    ensures forall k :: k != key ==> Get(r, k) == (if v.Obj? then Get(v, k) else Undefined)
  {
    Obj(Spread(v)[key := x])
  }

  /** `{ ...a, ...b }` */
  function Merge(a: Value, b: Value): Value {
    Obj(Spread(a) + Spread(b))
  }

  /** Whether `v.toDate` exists: a Firestore Timestamp. */
  predicate HasToDate(v: Value) { v.Stamp? }

  // ---------------------------------------------------------------- numbers

  /** `Math.round`: the nearest integer, halves rounding up. */
  function Round(x: real): (r: real)
    ensures r == r.Floor as real
    ensures x - 0.5 < r <= x + 0.5
  {
    (x + 0.5).Floor as real
  }

  /** A digit string after a decimal point, as a fraction (`"25"` is 0.25). */
  function FracValue(d: string): (r: real)
    requires AllDigits(d)
    ensures 0.0 <= r < 1.0
  {
    if d == [] then 0.0 else ((d[0] as int - '0' as int) as real + FracValue(d[1..])) / 10.0
  }

  /** The longest prefix of `s` that is an unsigned decimal literal (`12`, `12.`, `12.5`, `.5`): its value and length. */
  function UnsignedDecimalPrefix(s: string): (r: Option<(real, nat)>)
    ensures r.Some? ==> 0 < r.value.1 <= |s| && r.value.0 >= 0.0
  {
    var a := LeadingDigits(s);
    if a < |s| && s[a] == '.' then
      var b := LeadingDigits(s[a + 1..]);
      if a + b == 0 then None
      else Some((DigitsValue(s[..a]) as real + FracValue(s[a + 1..][..b]), a + 1 + b))
    else if a == 0 then None
    else Some((DigitsValue(s[..a]) as real, a))
  }

  /** The same, with an optional leading `+` or `-`. */
  function DecimalPrefix(s: string): (r: Option<(real, nat)>)
    ensures r.Some? ==> 0 < r.value.1 <= |s|
  {
    if s != [] && (s[0] == '+' || s[0] == '-') then
      match UnsignedDecimalPrefix(s[1..])
      case None => None
      case Some(p) => Some((if s[0] == '-' then -p.0 else p.0, p.1 + 1))
    else UnsignedDecimalPrefix(s)
  }

  /** `Number(s)` for a string: blank is 0, a whole decimal literal is its value, anything else NaN. */
  function StringToNumber(s: string): (r: Value)
    ensures r.Num? || r.NaN?
  {
    var t := Trim(s);
    if t == "" then Num(0.0)
    else
      match DecimalPrefix(t)
      case None => NaN
      case Some(p) => if p.1 == |t| then Num(p.0) else NaN
  }

  /** `Number(v)` */
  function ToNumber(v: Value): (r: Value)
    ensures r.Num? || r.NaN?
    ensures v.Num? ==> r == v
  {
    match v
    case Undefined => NaN
    case Null => Num(0.0)
    case Bool(b) => Num(if b then 1.0 else 0.0)
    case Num(_) => v
    case NaN => NaN
    case Str(s) => StringToNumber(s)
    case Arr(_) => StringToNumber(ToStr(v))
    case Obj(_) => NaN
    case Stamp(_) => NaN
    case JsDate(t) => Num(t as real)
  }

  /** `parseFloat(v)`: the decimal literal at the start of `String(v)`, after white space. */
  function ParseFloat(v: Value): (r: Value)
    ensures r.Num? || r.NaN?
  {
    match DecimalPrefix(TrimStart(ToStr(v)))
    case None => NaN
    case Some(p) => Num(p.0)
  }

  /** `parseFloat("")` is NaN. */
  lemma ParseFloatOfEmpty()
    ensures ParseFloat(Str("")) == NaN
  {
    assert ToStr(Str("")) == "";
    assert TrimStart("") == "";
    assert LeadingDigits("") == 0;
    assert UnsignedDecimalPrefix("") == None;
  }

  /** `parseInt(v, 10)`: the optionally signed digits at the start of `String(v)`, after white space. */
  function ParseInt(v: Value): (r: Value)
    ensures r.Num? ==> r.n == r.n.Floor as real
    ensures r.Num? || r.NaN?
  {
    ParseIntText(TrimStart(ToStr(v)))
  }

  /** An optional sign and at least one digit, at the start of `s`. */
  function ParseIntText(s: string): (r: Value)
    ensures r.Num? ==> r.n == r.n.Floor as real
    ensures r.Num? || r.NaN?
  {
    var neg := s != [] && s[0] == '-';
    var rest := if s != [] && (s[0] == '-' || s[0] == '+') then s[1..] else s;
    var k := LeadingDigits(rest);
    if k == 0 then NaN
    else
      var m: int := DigitsValue(rest[..k]);
      Num((if neg then -m else m) as real)
  }

  /** `isNaN(v)` */
  predicate IsNaN(v: Value) { ToNumber(v).NaN? }

  /** `a - b` */
  function Sub(a: Value, b: Value): (r: Value)
    ensures r.Num? || r.NaN?
  {
    var x, y := ToNumber(a), ToNumber(b);
    if x.Num? && y.Num? then Num(x.n - y.n) else NaN
  }

  /** `a * b` */
  function Mul(a: Value, b: Value): (r: Value)
    ensures r.Num? || r.NaN?
  {
    var x, y := ToNumber(a), ToNumber(b);
    if x.Num? && y.Num? then Num(x.n * y.n) else NaN
  }

  /** `a / b` (a zero divisor, which gives an infinity in JavaScript, gives NaN here). */
  function Div(a: Value, b: Value): (r: Value)
    ensures r.Num? || r.NaN?
  {
    var x, y := ToNumber(a), ToNumber(b);
    if x.Num? && y.Num? && y.n != 0.0 then Num(x.n / y.n) else NaN
  }

  /** `Math.max(a, b)` */
  function Max(a: Value, b: Value): (r: Value)
    ensures r.Num? || r.NaN?
  {
    var x, y := ToNumber(a), ToNumber(b);
    if x.Num? && y.Num? then Num(if x.n >= y.n then x.n else y.n) else NaN
  }

  /** The primitive an operator converts an object to. */
  function ToPrimitive(v: Value, preferNumber: bool): Value {
    match v
    case Arr(_) => Str(ToStr(v))
    case Obj(_) => Str(ToStr(v))
    case Stamp(_) => Str(ToStr(v))
    case JsDate(t) => if preferNumber then Num(t as real) else Str(ToStr(v))
    case _ => v
  }

  /** `a + b`: concatenation when either side is a string, addition otherwise. */
  function Add(a: Value, b: Value): Value {
    var x, y := ToPrimitive(a, false), ToPrimitive(b, false);
    if x.Str? || y.Str? then Str(ToStr(x) + ToStr(y))
    else
      var p, q := ToNumber(x), ToNumber(y);
      if p.Num? && q.Num? then Num(p.n + q.n) else NaN
  }

  /** Code-unit order of two strings. */
  predicate StrLess(x: string, y: string) {
    if x == [] then y != []
    else if y == [] then false
    else if x[0] != y[0] then x[0] < y[0]
    else StrLess(x[1..], y[1..])
  }

  /** The abstract relational comparison `a < b`: `Some(true)`, `Some(false)`, or `None` when a NaN is involved. */
  function LessThan(a: Value, b: Value): Option<bool> {
    var x, y := ToPrimitive(a, true), ToPrimitive(b, true);
    if x.Str? && y.Str? then Some(StrLess(x.s, y.s))
    else
      var p, q := ToNumber(x), ToNumber(y);
      if p.Num? && q.Num? then Some(p.n < q.n) else None
  }

  /** `a < b` */
  predicate Lt(a: Value, b: Value) { LessThan(a, b) == Some(true) }

  /** `a > b` */
  predicate Gt(a: Value, b: Value) { LessThan(b, a) == Some(true) }

  /** `a <= b` */
  predicate Le(a: Value, b: Value) { LessThan(b, a) == Some(false) }

  /** `a >= b` */
  predicate Ge(a: Value, b: Value) { LessThan(a, b) == Some(false) }

  /** Comparisons of two numbers are the comparisons of the numbers; a NaN fails every one. */
  lemma NumericComparisons(x: real, y: real)
    ensures Lt(Num(x), Num(y)) <==> x < y
    ensures Gt(Num(x), Num(y)) <==> x > y
    ensures Le(Num(x), Num(y)) <==> x <= y
    ensures Ge(Num(x), Num(y)) <==> x >= y
    ensures !Lt(NaN, Num(y)) && !Gt(NaN, Num(y)) && !Le(NaN, Num(y)) && !Ge(NaN, Num(y))
  {
  }

  // ---------------------------------------------------------------- strings

  /** Up to `fuel` digits of a fraction in [0, 1). */
  function FracDigits(f: real, fuel: nat): string
    requires 0.0 <= f < 1.0
    decreases fuel
  {
    if f == 0.0 || fuel == 0 then ""
    else
      var d := (f * 10.0).Floor;
      [DigitChar(d)] + FracDigits(f * 10.0 - d as real, fuel - 1)
  }

  /**
   * `String(x)` for a number: integers exactly, other numbers with their
   * decimal expansion cut at twenty places (exponent notation is not modelled).
   */
  function NumberToString(x: real): (r: string)
    ensures r != []
  {
    var m := if x < 0.0 then -x else x;
    var i := m.Floor;
    var f := m - i as real;
    (if x < 0.0 then "-" else "") + NatToDecimal(i) + (if f == 0.0 then "" else "." + FracDigits(f, 20))
  }

  /** `String(v)` */
  function ToStr(v: Value): string
    decreases v, 1
  {
    match v
    case Undefined => "undefined"
    case Null => "null"
    case Bool(b) => if b then "true" else "false"
    case Num(n) => NumberToString(n)
    case NaN => "NaN"
    case Str(s) => s
    case Arr(_) => JoinElems(v, 0)
    case Obj(_) => "[object Object]"
    case Stamp(ms) =>
      "Timestamp(seconds=" + IntToDecimal(ms / 1000) + ", nanoseconds=" + IntToDecimal((ms % 1000) * 1000000) + ")"
    case JsDate(t) => IntToDecimal(t)
  }

  /** `Array.prototype.join(',')`, with null and undefined elements written as nothing. */
  function JoinElems(v: Value, i: nat): string
    requires v.Arr? && i <= |v.elems|
    decreases v, 0, |v.elems| - i
  {
    if i == |v.elems| then ""
    else
      var x := v.elems[i];
      (if i == 0 then "" else ",") + (if Nullish(x) then "" else ToStr(x)) + JoinElems(v, i + 1)
  }

  /** An integer is written in plain decimal notation. */
  lemma NumberToStringOfInt(k: int)
    ensures NumberToString(k as real) == IntToDecimal(k)
  {
    var m := if k < 0 then -k else k;
    assert (if (k as real) < 0.0 then -(k as real) else k as real) == m as real;
  }

  lemma LeadingDigitsOfDigits(d: string)
    requires AllDigits(d)
    ensures LeadingDigits(d) == |d| && d[..|d|] == d
  {
  }

  lemma UnsignedPrefixOfDigits(d: string)
    requires d != [] && AllDigits(d)
    ensures UnsignedDecimalPrefix(d) == Some((DigitsValue(d) as real, |d|))
  {
    LeadingDigitsOfDigits(d);
  }

  /** An integer's notation starts with a sign or a digit, so white-space trimming leaves it alone. */
  lemma IntTextUntrimmed(k: int)
    ensures TrimStart(IntToDecimal(k)) == IntToDecimal(k)
    ensures Trim(IntToDecimal(k)) == IntToDecimal(k)
  {
    var s := IntToDecimal(k);
    var m: nat := if k < 0 then -k else k;
    assert s[|s| - 1] == NatToDecimal(m)[|NatToDecimal(m)| - 1];
    assert !IsSpace(s[0]) && !IsSpace(s[|s| - 1]);
    TrimOfTrimmed(s);
  }

  lemma ToStrOfInt(k: int)
    ensures ToStr(Num(k as real)) == IntToDecimal(k)
  {
    NumberToStringOfInt(k);
  }

  lemma ParseIntTextOfInt(k: int)
    ensures ParseIntText(IntToDecimal(k)) == Num(k as real)
  {
    var m: nat := if k < 0 then -k else k;
    var digits := NatToDecimal(m);
    DecimalRoundTrip(m);
    LeadingDigitsOfDigits(digits);
    var s := IntToDecimal(k);
    if k < 0 {
      assert s[1..] == digits;
    } else {
      assert s == digits;
    }
  }

  /** An integer's notation reads back as the same number through `parseInt`. */
  lemma ParseIntOfInteger(k: int)
    ensures ParseInt(Num(k as real)) == Num(k as real)
  {
    ToStrOfInt(k);
    IntTextUntrimmed(k);
    ParseIntTextOfInt(k);
  }

  lemma DecimalPrefixOfInt(k: int)
    ensures DecimalPrefix(IntToDecimal(k)) == Some((k as real, |IntToDecimal(k)|))
  {
    var m: nat := if k < 0 then -k else k;
    var digits := NatToDecimal(m);
    DecimalRoundTrip(m);
    UnsignedPrefixOfDigits(digits);
    var t := IntToDecimal(k);
    if k < 0 {
      assert t[1..] == digits;
    } else {
      assert t == digits;
    }
  }

  /** An integer's notation reads back as the same number through `Number`. */
  lemma NumberOfIntegerText(k: int)
    ensures StringToNumber(IntToDecimal(k)) == Num(k as real)
  {
    IntTextUntrimmed(k);
    DecimalPrefixOfInt(k);
    assert IntToDecimal(k) != "";
  }

  /** A string holding an integer's notation reads back as that number through `parseFloat`. */
  lemma ParseFloatOfIntText(k: int)
    ensures ParseFloat(Str(IntToDecimal(k))) == Num(k as real)
  {
    ParseFloatOfInteger(k);
    ToStrOfInt(k);
    assert ToStr(Str(IntToDecimal(k))) == ToStr(Num(k as real));
  }

  /** An integer's notation reads back as the same number through `parseFloat`. */
  lemma ParseFloatOfInteger(k: int)
    ensures ParseFloat(Num(k as real)) == Num(k as real)
  {
    ToStrOfInt(k);
    IntTextUntrimmed(k);
    DecimalPrefixOfInt(k);
  }
}
