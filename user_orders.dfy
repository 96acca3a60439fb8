/**
 * `getOrdersForUser` (src/getOrdersForUser.js): the signed-in user's orders,
 * each read as `{ id, ...data }`, sorted in place from the newest to the oldest
 * by its `date`, else its `createdAt`, else the epoch.
 */
module UserOrders {
  import opened JsValue
  import opened Seqs
  import opened Firestore
  import opened MyAccount

  /** One step of the key chain: a Timestamp's `toDate()`, else a truthy `seconds` times 1000. */
  function TimeOf(v: Value): (r: Wrappers.Option<Date>)
    ensures v.Stamp? ==> r == Wrappers.Some(Date(Wrappers.Some(v.millis)))
    ensures !v.Stamp? && !Truthy(Get(v, "seconds")) ==> r.None?
  {
    if v.Stamp? then Wrappers.Some(Date(Wrappers.Some(v.millis)))
    else if Truthy(Get(v, "seconds")) then Wrappers.Some(DateOfMillis(Mul(Get(v, "seconds"), Num(1000.0))))
    else Wrappers.None
  }

  /** The date an order is sorted by: its `date`, else its `createdAt`, else `new Date(0)`. */
  function SortKey(o: Value): (d: Date)
    ensures TimeOf(Get(o, "date")).Some? ==> d == TimeOf(Get(o, "date")).value
    ensures TimeOf(Get(o, "date")).None? && TimeOf(Get(o, "createdAt")).Some? ==> d == TimeOf(Get(o, "createdAt")).value
    ensures TimeOf(Get(o, "date")).None? && TimeOf(Get(o, "createdAt")).None? ==> d == Date(Wrappers.Some(0))
  {
    match TimeOf(Get(o, "date"))
    case Some(d) => d
    case None =>
      match TimeOf(Get(o, "createdAt"))
      case Some(d) => d
      case None => Date(Wrappers.Some(0))
  }

  /** `(a, b) => tb - ta` is negative: `a` is strictly newer. An Invalid Date gives NaN, which keeps the order. */
  predicate Newer(a: Value, b: Value) { Later(SortKey(a), SortKey(b)) }

  /** The orders whose `userId` is the user's, as the page reads them, in stored order. */
  function Fetched(uid: string, docs: seq<Doc>): (r: seq<Value>)
    ensures |r| == |Where(docs, "userId", Str(uid))|
    ensures forall i :: 0 <= i < |r| ==> r[i] == AsObject(Where(docs, "userId", Str(uid))[i])
    ensures Subseq(Where(docs, "userId", Str(uid)), docs)
    ensures forall d :: multiset(Where(docs, "userId", Str(uid)))[d] ==
                        (if "userId" in d.data && StrictEq(d.data["userId"], Str(uid)) then multiset(docs)[d] else 0)
  {
    var mine := Where(docs, "userId", Str(uid));
    WhereCounts(docs, "userId", Str(uid));
    seq(|mine|, i requires 0 <= i < |mine| => AsObject(mine[i]))
  }

  /** What `getOrdersForUser` resolves to; `uid` is `None` when nobody is signed in. */
  function OrdersForUser(uid: Wrappers.Option<string>, docs: seq<Doc>): (r: seq<Value>)
    ensures uid.None? ==> r == []
    ensures uid.Some? ==> multiset(r) == multiset(Fetched(uid.value, docs))
  {
    if uid.None? then [] else SortBy(Fetched(uid.value, docs), Newer)
  }

  /** Every listed order is one of the user's documents. */
  lemma ListedOrdersAreTheUsers(uid: string, docs: seq<Doc>)
    ensures forall o :: o in OrdersForUser(Wrappers.Some(uid), docs) ==>
      exists d :: d in docs && "userId" in d.data && d.data["userId"] == Str(uid) && o == AsObject(d)
  {
    var r := OrdersForUser(Wrappers.Some(uid), docs);
    var mine := Where(docs, "userId", Str(uid));
    forall o | o in r
      ensures exists d :: d in docs && "userId" in d.data && d.data["userId"] == Str(uid) && o == AsObject(d)
    {
      assert o in multiset(Fetched(uid, docs));
      var i :| 0 <= i < |Fetched(uid, docs)| && Fetched(uid, docs)[i] == o;
      assert mine[i] in mine;
    }
  }

  /** An order whose sort key is a valid date. */
  predicate Dated(o: Value) { SortKey(o).time.Some? }

  /** The time value a dated order sorts by. */
  function Millis(o: Value): int { if Dated(o) then SortKey(o).time.value else 0 }

  /** When every order has a valid date the list runs from the newest to the oldest. */
  lemma SortedNewestFirst(uid: string, docs: seq<Doc>)
    requires forall o :: o in Fetched(uid, docs) ==> Dated(o)
    ensures var r := OrdersForUser(Wrappers.Some(uid), docs);
      forall i, j :: 0 <= i < j < |r| ==> Dated(r[i]) && Dated(r[j]) && Millis(r[i]) >= Millis(r[j])
  {
    var s := Fetched(uid, docs);
    forall a, b | a in s && b in s
      ensures Newer(a, b) <==> Millis(a) > Millis(b)
    {
      assert Dated(a) && Dated(b);
    }
    SortByDescendingKey(s, Newer, Millis);
    var r := OrdersForUser(Wrappers.Some(uid), docs);
    forall i | 0 <= i < |r|
      ensures Dated(r[i])
    {
      assert r[i] in multiset(s);
    }
  }

  /** Orders stamped with a Timestamp `date` always have a valid key. */
  lemma StampedOrdersDated(o: Value)
    requires Get(o, "date").Stamp?
    ensures Dated(o) && Millis(o) == Get(o, "date").millis
  {
  }

  /** An order with neither field sorts as the epoch. */
  lemma UndatedOrdersAtEpoch(o: Value)
    requires Nullish(Get(o, "date")) && Nullish(Get(o, "createdAt"))
    ensures SortKey(o) == Date(Wrappers.Some(0))
  {
  }

  /** `getOrdersForUser()` against the `orders` collection; `list.sort` works in place. */
  method GetOrdersForUser(uid: Wrappers.Option<string>, orders: Collection) returns (list: seq<Value>)
    ensures list == OrdersForUser(uid, orders.docs)
  {
    if uid.None? {
      return [];
    }
    var fetched := Fetched(uid.value, orders.docs);
    var a := new Value[|fetched|](i requires 0 <= i < |fetched| => fetched[i]);
    assert a[..] == fetched;
    SortInPlace(a, Newer);
    list := a[..];
  }
}
