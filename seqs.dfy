/**
 * Sequence operations the components share: `Array.prototype.filter`, `find`,
 * `reduce` and `sort`, and the notion of a subsequence (what a filter keeps, in
 * its original order).
 */
module Seqs {
  import opened Wrappers

  /** `a` is `b` with some elements left out, the rest in their order. */
  predicate Subseq<T(==)>(a: seq<T>, b: seq<T>)
    decreases |b|
  {
    if a == [] then true
    else if b == [] then false
    else (a[0] == b[0] && Subseq(a[1..], b[1..])) || Subseq(a, b[1..])
  }

  lemma {:induction false} SubseqRefl<T>(a: seq<T>)
    ensures Subseq(a, a)
  {
    if a != [] {
      SubseqRefl(a[1..]);
    }
  }

  /** A subsequence of a subsequence is a subsequence. */
  lemma {:induction false} SubseqTrans<T>(a: seq<T>, b: seq<T>, c: seq<T>)
    requires Subseq(a, b) && Subseq(b, c)
    ensures Subseq(a, c)
    decreases |c|
  {
    if a == [] {
    } else if b[0] == c[0] && Subseq(b[1..], c[1..]) {
      if a[0] == b[0] && Subseq(a[1..], b[1..]) {
        SubseqTrans(a[1..], b[1..], c[1..]);
      } else {
        SubseqTrans(a, b[1..], c[1..]);
      }
    } else {
      SubseqTrans(a, b, c[1..]);
    }
  }

  /** Every element of a subsequence is an element of the whole. */
  lemma {:induction false} SubseqMembers<T>(a: seq<T>, b: seq<T>)
    requires Subseq(a, b)
    ensures forall x :: x in a ==> x in b
    ensures |a| <= |b|
    decreases |b|
  {
    if a != [] {
      if a[0] == b[0] && Subseq(a[1..], b[1..]) {
        SubseqMembers(a[1..], b[1..]);
        assert forall x :: x in a ==> x == a[0] || x in a[1..];
      } else {
        SubseqMembers(a, b[1..]);
      }
    }
  }

  /** Through a chain of five subsequence steps and a reordering, every kept element is in every stage. */
  lemma SubseqChain<T>(s0: seq<T>, s1: seq<T>, s2: seq<T>, s3: seq<T>, s4: seq<T>, s5: seq<T>, r: seq<T>)
    requires Subseq(s1, s0) && Subseq(s2, s1) && Subseq(s3, s2) && Subseq(s4, s3) && Subseq(s5, s4)
    requires multiset(r) == multiset(s5)
    ensures forall x :: x in r ==> x in s5 && x in s4 && x in s3 && x in s2 && x in s1 && x in s0
    ensures |r| <= |s0|
  {
    SubseqMembers(s1, s0);
    SubseqMembers(s2, s1);
    SubseqMembers(s3, s2);
    SubseqMembers(s4, s3);
    SubseqMembers(s5, s4);
    forall x | x in r
      ensures x in s5
    {
      assert x in multiset(r);
    }
    assert |r| == |multiset(s5)|;
  }

  /** `s.filter(keep)` */
  function Filter<T(!new)>(s: seq<T>, keep: T -> bool): (r: seq<T>)
    ensures forall x :: x in r <==> x in s && keep(x)
    ensures |r| <= |s|
    ensures (forall i :: 0 <= i < |s| ==> keep(s[i])) ==> r == s
    ensures Subseq(r, s)
  {
    if s == [] then []
    else
      var rest := Filter(s[1..], keep);
      var r := if keep(s[0]) then [s[0]] + rest else rest;
      FilterStepMembers(s, keep, rest, r);
      FilterStepKeepsAll(s, keep, rest, r);
      FilterStepSubseq(s, keep, rest, r);
      r
  }

  /** A filter keeps every occurrence of a passing element and none of the others. */
  lemma {:induction false} FilterCounts<T(!new)>(s: seq<T>, keep: T -> bool)
    ensures forall x :: multiset(Filter(s, keep))[x] == if keep(x) then multiset(s)[x] else 0
  {
    if s != [] {
      FilterCounts(s[1..], keep);
      FilterStepCounts(s, keep, Filter(s[1..], keep), Filter(s, keep));
    }
  }

  /** One step of `Filter`: the head kept or dropped in front of the filtered tail. */
  ghost predicate FilterStep<T>(s: seq<T>, keep: T -> bool, rest: seq<T>, r: seq<T>) {
    s != [] && r == if keep(s[0]) then [s[0]] + rest else rest
  }

  /** A filter step keeps exactly the members that pass. */
  lemma FilterStepMembers<T>(s: seq<T>, keep: T -> bool, rest: seq<T>, r: seq<T>)
    requires FilterStep(s, keep, rest, r)
    requires forall x :: x in rest <==> x in s[1..] && keep(x)
    ensures forall x :: x in r <==> x in s && keep(x)
  {
    assert forall x :: x in s <==> x == s[0] || x in s[1..];
  }

  /** A filter step that keeps every element of the tail and the head gives the whole. */
  lemma FilterStepKeepsAll<T>(s: seq<T>, keep: T -> bool, rest: seq<T>, r: seq<T>)
    requires FilterStep(s, keep, rest, r)
    requires (forall i :: 0 <= i < |s| - 1 ==> keep(s[1..][i])) ==> rest == s[1..]
    ensures (forall i :: 0 <= i < |s| ==> keep(s[i])) ==> r == s
  {
    if forall i :: 0 <= i < |s| ==> keep(s[i]) {
      assert forall i :: 0 <= i < |s| - 1 ==> s[1..][i] == s[i + 1];
      assert s == [s[0]] + s[1..];
    }
  }

  /** A filter step keeps the order. */
  lemma FilterStepSubseq<T>(s: seq<T>, keep: T -> bool, rest: seq<T>, r: seq<T>)
    requires FilterStep(s, keep, rest, r)
    requires Subseq(rest, s[1..])
    ensures Subseq(r, s)
  {
    if keep(s[0]) {
      assert r[0] == s[0] && r[1..] == rest;
    }
  }

  /** A filter step keeps every occurrence of a passing element and none of the others. */
  lemma FilterStepCounts<T>(s: seq<T>, keep: T -> bool, rest: seq<T>, r: seq<T>)
    requires FilterStep(s, keep, rest, r)
    requires forall x :: multiset(rest)[x] == if keep(x) then multiset(s[1..])[x] else 0
    ensures forall x :: multiset(r)[x] == if keep(x) then multiset(s)[x] else 0
  {
    assert s == [s[0]] + s[1..];
    assert multiset(s) == multiset([s[0]]) + multiset(s[1..]);
    if keep(s[0]) {
      assert multiset(r) == multiset([s[0]]) + multiset(rest);
    }
  }

  /** `y` is what `f` gives for some element of `s` that passes `keep`. */
  ghost predicate ImageOfKept<T, U>(s: seq<T>, keep: T -> bool, f: T -> U, y: U) {
    exists j :: 0 <= j < |s| && keep(s[j]) && y == f(s[j])
  }

  /** `s.filter(keep).map(f)`: each result comes from a kept element, and every kept element gives one. */
  lemma FilterThenMap<T, U>(s: seq<T>, keep: T -> bool, f: T -> U, kept: seq<T>, r: seq<U>)
    requires forall x :: x in kept <==> x in s && keep(x)
    requires |r| == |kept| && forall i :: 0 <= i < |kept| ==> r[i] == f(kept[i])
    ensures forall i :: 0 <= i < |r| ==> ImageOfKept(s, keep, f, r[i])
    ensures forall j :: 0 <= j < |s| && keep(s[j]) ==> f(s[j]) in r
  {
    forall i | 0 <= i < |r|
      ensures ImageOfKept(s, keep, f, r[i])
    {
      assert kept[i] in kept;
      var j :| 0 <= j < |s| && s[j] == kept[i];
      assert keep(s[j]) && r[i] == f(s[j]);
    }
    forall j | 0 <= j < |s| && keep(s[j])
      ensures f(s[j]) in r
    {
      assert s[j] in s;
      var i :| 0 <= i < |kept| && kept[i] == s[j];
      assert r[i] == f(s[j]);
    }
  }

  /** Filtering a sequence that starts with `x`. */
  lemma FilterCons<T(!new)>(x: T, s: seq<T>, keep: T -> bool)
    ensures Filter([x] + s, keep) == (if keep(x) then [x] + Filter(s, keep) else Filter(s, keep))
  {
    assert ([x] + s)[1..] == s;
  }

  /**
   * One step of a recursion that keeps an image of each kept element: the head's image, when
   * the head is kept, in front of the tail's images gives the images of the kept elements.
   */
  lemma {:induction false} KeptImagesStep<T(!new), R>(xs: seq<T>, keep: T -> bool, img: T -> R, rest: seq<R>, r: seq<R>)
    requires xs != []
    requires |rest| == |Filter(xs[1..], keep)|
    requires forall k :: 0 <= k < |rest| ==> img(Filter(xs[1..], keep)[k]) == rest[k]
    requires r == if keep(xs[0]) then [img(xs[0])] + rest else rest
    ensures |r| == |Filter(xs, keep)|
    ensures forall k :: 0 <= k < |r| ==> img(Filter(xs, keep)[k]) == r[k]
  {
    var kept, keptTail := Filter(xs, keep), Filter(xs[1..], keep);
    if keep(xs[0]) {
      assert kept == [xs[0]] + keptTail;
      forall k | 0 <= k < |r|
        ensures img(kept[k]) == r[k]
      {
        if k > 0 {
          assert kept[k] == keptTail[k - 1] && r[k] == rest[k - 1];
        }
      }
    } else {
      assert kept == keptTail && r == rest;
    }
  }

  /** A filter that keeps as many elements as it was given keeps every one of them. */
  lemma {:induction false} FilterKeepsAll<T(!new)>(s: seq<T>, keep: T -> bool)
    requires |Filter(s, keep)| == |s|
    ensures forall i :: 0 <= i < |s| ==> keep(s[i])
  {
    if s != [] {
      assert |Filter(s[1..], keep)| <= |s| - 1;
      assert keep(s[0]);
      FilterKeepsAll(s[1..], keep);
      assert forall i :: 1 <= i < |s| ==> s[i] == s[1..][i - 1];
    }
  }

  /** A filter that keeps none of the elements gives nothing. */
  lemma {:induction false} FilterKeepsNone<T(!new)>(s: seq<T>, keep: T -> bool)
    requires forall i :: 0 <= i < |s| ==> !keep(s[i])
    ensures Filter(s, keep) == []
  {
    if s != [] {
      var tail := s[1..];
      assert forall i :: 0 <= i < |tail| ==> tail[i] == s[i + 1];
      FilterKeepsNone(tail, keep);
    }
  }

  /** Filtering a concatenation filters each part. */
  lemma {:induction false} FilterAppend<T(!new)>(a: seq<T>, b: seq<T>, keep: T -> bool)
    ensures Filter(a + b, keep) == Filter(a, keep) + Filter(b, keep)
  {
    if a == [] {
      assert a + b == b;
    } else {
      assert (a + b)[1..] == a[1..] + b;
      FilterAppend(a[1..], b, keep);
    }
  }

  /** Filtering a sequence that ends with `x`. */
  lemma {:induction false} FilterSnoc<T(!new)>(a: seq<T>, x: T, keep: T -> bool)
    ensures Filter(a + [x], keep) == Filter(a, keep) + (if keep(x) then [x] else [])
  {
    if a == [] {
      assert ([x])[1..] == [];
    } else {
      assert (a + [x])[1..] == a[1..] + [x];
      FilterSnoc(a[1..], x, keep);
    }
  }

  /** The indices of `s` whose element `keep` holds for. */
  function KeptIndices<T>(s: seq<T>, keep: T -> bool): set<int> {
    set i | 0 <= i < |s| && keep(s[i])
  }

  /** A filter keeps as many elements as there are indices whose element it keeps. */
  lemma {:induction false} FilterLengthIsIndexCount<T(!new)>(s: seq<T>, keep: T -> bool)
    ensures |Filter(s, keep)| == |KeptIndices(s, keep)|
  {
    if s == [] {
      assert KeptIndices(s, keep) == {};
    } else {
      var n := |s| - 1;
      var pre := s[..n];
      assert s == pre + [s[n]];
      FilterSnoc(pre, s[n], keep);
      FilterLengthIsIndexCount(pre, keep);
      KeptIndicesSnoc(s, keep);
    }
  }

  /** The kept indices of a sequence: those of all but its last element, and the last when kept. */
  lemma KeptIndicesSnoc<T>(s: seq<T>, keep: T -> bool)
    requires s != []
    ensures |KeptIndices(s, keep)| == |KeptIndices(s[..|s| - 1], keep)| + if keep(s[|s| - 1]) then 1 else 0
  {
    var n := |s| - 1;
    var all, before := KeptIndices(s, keep), KeptIndices(s[..n], keep);
    if keep(s[n]) {
      assert all == before + {n};
    } else {
      assert all == before;
    }
  }

  /** Filtering twice is filtering by both conditions. */
  lemma {:induction false} FilterFilter<T(!new)>(s: seq<T>, p: T -> bool, q: T -> bool)
    ensures Filter(Filter(s, p), q) == Filter(s, x => p(x) && q(x))
  {
    if s != [] {
      FilterFilter(s[1..], p, q);
      var rest := Filter(s[1..], p);
      if p(s[0]) {
        assert ([s[0]] + rest)[1..] == rest;
      }
    }
  }

  /** `xs.findIndex(f)`, as an option. */
  function FindFirst<T>(xs: seq<T>, f: T -> bool): (r: Option<nat>)
    ensures r.Some? ==> r.value < |xs| && f(xs[r.value])
    ensures r.Some? ==> forall i :: 0 <= i < r.value ==> !f(xs[i])
    ensures r.None? ==> forall i :: 0 <= i < |xs| ==> !f(xs[i])
  {
    if xs == [] then None
    else if f(xs[0]) then Some(0)
    else
      match FindFirst(xs[1..], f)
      case None => None
      case Some(k) => Some(k + 1)
  }

  /**
   * Searching the kept elements for the first that satisfies `f` finds the first element
   * that is kept and satisfies `f`, and finds nothing exactly when there is none.
   */
  lemma {:induction false} FindFirstKept<T(!new)>(s: seq<T>, keep: T -> bool, f: T -> bool, both: T -> bool)
    requires forall x :: both(x) == (keep(x) && f(x))
    ensures FindFirst(Filter(s, keep), f).None? <==> FindFirst(s, both).None?
    ensures FindFirst(s, both).Some? ==>
      Filter(s, keep)[FindFirst(Filter(s, keep), f).value] == s[FindFirst(s, both).value]
  {
    if s != [] {
      var kept, rest := Filter(s, keep), Filter(s[1..], keep);
      FindFirstKept(s[1..], keep, f, both);
      if keep(s[0]) {
        assert kept == [s[0]] + rest;
        if !f(s[0]) {
          assert kept[1..] == rest;
        }
      }
    }
  }

  /** A `map` whose callback may throw: `None` when it throws on some element. */
  function Collect<T>(xs: seq<Option<T>>): (r: Option<seq<T>>)
    ensures r.None? <==> exists i :: 0 <= i < |xs| && xs[i].None?
    ensures r.Some? ==> |r.value| == |xs| && forall i :: 0 <= i < |xs| ==> xs[i] == Some(r.value[i])
  {
    if xs == [] then Some([])
    else
      match (xs[0], Collect(xs[1..]))
      case (Some(x), Some(rest)) =>
        assert forall i :: 1 <= i < |xs| ==> xs[i] == xs[1..][i - 1];
        Some([x] + rest)
      case (None, _) => None
      case (_, None) =>
        var i :| 0 <= i < |xs[1..]| && xs[1..][i].None?;
        assert xs[i + 1].None?;
        None
  }

  /** The results of a callback that throws on no element, in order. */
  function Values<A, B>(xs: seq<A>, f: A -> Option<B>): (ys: seq<B>)
    requires forall i :: 0 <= i < |xs| ==> f(xs[i]).Some?
    ensures |ys| == |xs| && forall i :: 0 <= i < |xs| ==> f(xs[i]) == Some(ys[i])
  {
    seq(|xs|, i requires 0 <= i < |xs| => f(xs[i]).value)
  }

  /** `xs.map(f).filter(keep)` with a callback that may throw. */
  function MapFilter<A, B(!new)>(xs: seq<A>, f: A -> Option<B>, keep: B -> bool): (r: Option<seq<B>>)
    ensures r.None? <==> exists i :: 0 <= i < |xs| && f(xs[i]).None?
    ensures r.Some? ==> forall y :: y in r.value <==> keep(y) && exists i :: 0 <= i < |xs| && f(xs[i]) == Some(y)
    ensures r.Some? ==> |r.value| <= |xs|
    ensures r.Some? ==> Subseq(r.value, Values(xs, f))
    ensures r.Some? ==> forall y :: multiset(r.value)[y] == if keep(y) then multiset(Values(xs, f))[y] else 0
    ensures (forall i :: 0 <= i < |xs| ==> f(xs[i]).Some? && keep(f(xs[i]).value)) ==>
      r.Some? && |r.value| == |xs| && forall i :: 0 <= i < |xs| ==> f(xs[i]) == Some(r.value[i])
  {
    if exists i :: 0 <= i < |xs| && f(xs[i]).None? then None
    else
      var ys := Values(xs, f);
      ValuesMembers(xs, f);
      FilterCounts(ys, keep);
      Some(Filter(ys, keep))
  }

  /** The values of a callback that throws on no element are exactly its results. */
  lemma ValuesMembers<A, B>(xs: seq<A>, f: A -> Option<B>)
    requires forall i :: 0 <= i < |xs| ==> f(xs[i]).Some?
    ensures forall y :: y in Values(xs, f) <==> exists i :: 0 <= i < |xs| && f(xs[i]) == Some(y)
  {
    var ys := Values(xs, f);
    forall y | y in ys
      ensures exists i :: 0 <= i < |xs| && f(xs[i]) == Some(y)
    {
      var i :| 0 <= i < |ys| && ys[i] == y;
      assert f(xs[i]) == Some(y);
    }
    forall y | exists i :: 0 <= i < |xs| && f(xs[i]) == Some(y)
      ensures y in ys
    {
      var i :| 0 <= i < |xs| && f(xs[i]) == Some(y);
      assert ys[i] == y;
    }
  }

  /** `xs.reduce((sum, x) => sum + f(x), 0)` */
  function SumOf<T>(s: seq<T>, f: T -> int): int {
    if s == [] then 0 else f(s[0]) + SumOf(s[1..], f)
  }

  lemma {:induction false} SumOfAppend<T>(a: seq<T>, b: seq<T>, f: T -> int)
    ensures SumOf(a + b, f) == SumOf(a, f) + SumOf(b, f)
  {
    if a == [] {
      assert a + b == b;
    } else {
      assert (a + b)[1..] == a[1..] + b;
      SumOfAppend(a[1..], b, f);
    }
  }

  /** A sum of non-negative terms is non-negative. */
  lemma {:induction false} SumOfNonNegative<T>(s: seq<T>, f: T -> int)
    requires forall i :: 0 <= i < |s| ==> f(s[i]) >= 0
    ensures SumOf(s, f) >= 0
  {
    if s != [] {
      SumOfNonNegative(s[1..], f);
    }
  }

  // ---------------------------------------------------------------- sorting

  /** `x` placed before the first element of `t` that does not strictly precede it. */
  function Insert<T>(x: T, t: seq<T>, less: (T, T) -> bool): (r: seq<T>)
    ensures multiset(r) == multiset([x] + t)
    ensures |r| == |t| + 1
  {
    if t == [] || !less(t[0], x) then [x] + t
    else
      assert t == [t[0]] + t[1..];
      [t[0]] + Insert(x, t[1..], less)
  }

  /**
   * `[...s].sort(cmp)` with `less(a, b)` standing for `cmp(a, b) < 0`: a stable
   * insertion sort (an element never moves past an earlier one it does not follow).
   */
  function SortBy<T>(s: seq<T>, less: (T, T) -> bool): (r: seq<T>)
    ensures multiset(r) == multiset(s)
    ensures |r| == |s|
  {
    if s == [] then []
    else
      assert s == [s[0]] + s[1..];
      Insert(s[0], SortBy(s[1..], less), less)
  }

  /** No element strictly precedes one placed before it. */
  predicate SortedBy<T>(r: seq<T>, less: (T, T) -> bool) {
    forall i, j :: 0 <= i < j < |r| ==> !less(r[j], r[i])
  }

  /** On the elements of `s`, `less` is asymmetric ... */
  ghost predicate Asymmetric<T(!new)>(s: seq<T>, less: (T, T) -> bool) {
    forall a, b :: a in s && b in s && less(a, b) ==> !less(b, a)
  }

  /** ... and "does not precede" is transitive: together, a strict weak order. */
  ghost predicate NegTransitive<T(!new)>(s: seq<T>, less: (T, T) -> bool) {
    forall a, b, c :: a in s && b in s && c in s && !less(a, b) && !less(b, c) ==> !less(a, c)
  }

  lemma {:induction false} InsertSorted<T(!new)>(x: T, t: seq<T>, less: (T, T) -> bool, u: seq<T>)
    requires SortedBy(t, less)
    requires x in u && forall y :: y in t ==> y in u
    requires Asymmetric(u, less) && NegTransitive(u, less)
    ensures SortedBy(Insert(x, t, less), less)
  {
    if t == [] || !less(t[0], x) {
      forall k | 0 <= k < |t|
        ensures !less(t[k], x)
      {
        if k > 0 {
          assert t[k] in t && t[0] in t;
          assert !less(t[k], t[0]);
        }
      }
      ConsSorted(x, t, less);
    } else {
      var tail := t[1..];
      var rest := Insert(x, tail, less);
      assert forall y :: y in tail ==> y in t;
      InsertSorted(x, tail, less, u);
      forall k | 0 <= k < |rest|
        ensures !less(rest[k], t[0])
      {
        var y := rest[k];
        assert y in multiset([x] + tail);
        if y == x {
          assert t[0] in t;
        } else {
          assert y in tail;
          var m :| 0 <= m < |tail| && tail[m] == y;
          assert t[m + 1] == y;
        }
      }
      ConsSorted(t[0], rest, less);
    }
  }

  /** A sorted sequence stays sorted behind an element that none of it strictly precedes. */
  lemma ConsSorted<T>(a: T, rest: seq<T>, less: (T, T) -> bool)
    requires SortedBy(rest, less)
    requires forall k :: 0 <= k < |rest| ==> !less(rest[k], a)
    ensures SortedBy([a] + rest, less)
  {
    var r := [a] + rest;
    forall i, j | 0 <= i < j < |r|
      ensures !less(r[j], r[i])
    {
      assert r[j] == rest[j - 1];
      if i > 0 {
        assert r[i] == rest[i - 1];
      }
    }
  }

  lemma {:induction false} SortBySortedWithin<T(!new)>(s: seq<T>, less: (T, T) -> bool, u: seq<T>)
    requires forall y :: y in s ==> y in u
    requires Asymmetric(u, less) && NegTransitive(u, less)
    ensures SortedBy(SortBy(s, less), less)
  {
    if s != [] {
      var t := SortBy(s[1..], less);
      assert forall y :: y in s[1..] ==> y in s;
      SortBySortedWithin(s[1..], less, u);
      assert forall y :: y in t ==> y in multiset(s[1..]);
      InsertSorted(s[0], t, less, u);
    }
  }

  /** Under a strict weak order on its elements the sort's result is ordered. */
  lemma SortBySorted<T(!new)>(s: seq<T>, less: (T, T) -> bool)
    requires Asymmetric(s, less) && NegTransitive(s, less)
    ensures SortedBy(SortBy(s, less), less)
  {
    SortBySortedWithin(s, less, s);
  }

  /** A comparator that never separates two elements leaves their order alone. */
  lemma {:induction false} SortByStable<T(!new)>(s: seq<T>, less: (T, T) -> bool)
    requires forall i, j :: 0 <= i < |s| && 0 <= j < |s| ==> !less(s[i], s[j])
    ensures SortBy(s, less) == s
  {
    if s != [] {
      var t := s[1..];
      assert forall i :: 0 <= i < |t| ==> t[i] == s[i + 1];
      SortByStable(t, less);
      if t != [] {
        assert !less(s[1], s[0]);
      }
    }
  }

  /** Sorting by a comparator that compares integer keys puts the keys in non-increasing order. */
  lemma SortByDescendingKey<T(!new)>(s: seq<T>, less: (T, T) -> bool, key: T -> int)
    requires forall a, b :: a in s && b in s ==> (less(a, b) <==> key(a) > key(b))
    ensures forall i, j :: 0 <= i < j < |SortBy(s, less)| ==> key(SortBy(s, less)[i]) >= key(SortBy(s, less)[j])
  {
    SortBySorted(s, less);
    var r := SortBy(s, less);
    forall i, j | 0 <= i < j < |r|
      ensures key(r[i]) >= key(r[j])
    {
      assert r[i] in multiset(s) && r[j] in multiset(s);
      assert !less(r[j], r[i]);
    }
  }

  /** The elements of a permutation of `s` are elements of `s`. */
  lemma PermutationMembers<T>(s: seq<T>, r: seq<T>)
    requires multiset(r) == multiset(s)
    ensures forall i :: 0 <= i < |r| ==> r[i] in s
  {
    forall i | 0 <= i < |r|
      ensures r[i] in s
    {
      assert r[i] in multiset(s);
    }
  }

  /** Sorting by a comparator that compares real keys upwards puts the keys in non-decreasing order. */
  lemma SortByAscendingRealKey<T(!new)>(s: seq<T>, less: (T, T) -> bool, key: T -> real)
    requires forall a, b :: a in s && b in s ==> (less(a, b) <==> key(a) < key(b))
    ensures forall i, j :: 0 <= i < j < |SortBy(s, less)| ==> key(SortBy(s, less)[i]) <= key(SortBy(s, less)[j])
  {
    SortBySorted(s, less);
    var r := SortBy(s, less);
    forall i, j | 0 <= i < j < |r|
      ensures key(r[i]) <= key(r[j])
    {
      assert r[i] in multiset(s) && r[j] in multiset(s);
      assert !less(r[j], r[i]);
    }
  }

  /** Sorting by a comparator that compares real keys downwards puts the keys in non-increasing order. */
  lemma SortByDescendingRealKey<T(!new)>(s: seq<T>, less: (T, T) -> bool, key: T -> real)
    requires forall a, b :: a in s && b in s ==> (less(a, b) <==> key(b) < key(a))
    ensures forall i, j :: 0 <= i < j < |SortBy(s, less)| ==> key(SortBy(s, less)[i]) >= key(SortBy(s, less)[j])
  {
    SortBySorted(s, less);
    var r := SortBy(s, less);
    forall i, j | 0 <= i < j < |r|
      ensures key(r[i]) >= key(r[j])
    {
      assert r[i] in multiset(s) && r[j] in multiset(s);
      assert !less(r[j], r[i]);
    }
  }

  /** `x` goes in after the run of elements of `t` that strictly precede it. */
  lemma {:induction false} InsertAfterRun<T>(x: T, t: seq<T>, k: nat, less: (T, T) -> bool)
    requires k <= |t|
    requires forall m :: 0 <= m < k ==> less(t[m], x)
    requires k == |t| || !less(t[k], x)
    ensures Insert(x, t, less) == t[..k] + [x] + t[k..]
    decreases k
  {
    if k == 0 {
      assert t[..0] + [x] + t[0..] == [x] + t;
    } else {
      var u := t[1..];
      InsertAfterRun(x, u, k - 1, less);
      InsertAfterRunStep(x, t, k, less);
    }
  }

  lemma InsertAfterRunStep<T>(x: T, t: seq<T>, k: nat, less: (T, T) -> bool)
    requires 0 < k <= |t| && less(t[0], x)
    requires Insert(x, t[1..], less) == t[1..][..k - 1] + [x] + t[1..][k - 1..]
    ensures Insert(x, t, less) == t[..k] + [x] + t[k..]
  {
    var r := Insert(x, t[1..], less);
    assert Insert(x, t, less) == [t[0]] + r;
    var goal := t[..k] + [x] + t[k..];
    forall i | 0 <= i < |goal|
      ensures ([t[0]] + r)[i] == goal[i]
    {
      if 0 < i < k {
        assert r[i - 1] == t[i];
      } else if k < i {
        assert r[i - 1] == t[i - 1];
      }
    }
  }

  /** One pass of the in-place sort: `a[i]` moves right past the elements that strictly precede it. */
  method InsertInPlace<T>(a: array<T>, i: nat, less: (T, T) -> bool)
    requires i < a.Length
    modifies a
    ensures forall m :: 0 <= m < i ==> a[m] == old(a[m])
    ensures a[i..] == Insert(old(a[i]), old(a[i + 1..]), less)
  {
    var x := a[i];
    ghost var t := a[i + 1..];
    var j := i;
    while j + 1 < a.Length && less(a[j + 1], x)
      invariant i <= j < a.Length
      invariant forall m :: 0 <= m < i ==> a[m] == old(a[m])
      invariant a[j] == x
      invariant forall m :: i <= m < j ==> a[m] == t[m - i]
      invariant forall m :: j < m < a.Length ==> a[m] == t[m - 1 - i]
      invariant forall m :: 0 <= m < j - i ==> less(t[m], x)
      decreases a.Length - j
    {
      a[j] := a[j + 1];
      a[j + 1] := x;
      j := j + 1;
    }
    InsertAfterRun(x, t, j - i, less);
    PlacedShape(a, i, j, t, x);
  }

  /** The array holds `t` from `i` on, with `x` placed at position `j`. */
  lemma PlacedShape<T>(a: array<T>, i: nat, j: nat, t: seq<T>, x: T)
    requires i <= j < a.Length && |t| + i + 1 == a.Length && a[j] == x
    requires forall m :: i <= m < j ==> a[m] == t[m - i]
    requires forall m :: j < m < a.Length ==> a[m] == t[m - 1 - i]
    ensures a[i..] == t[..j - i] + [x] + t[j - i..]
  {
    var cur := a[i..];
    var k := j - i;
    forall m | 0 <= m < |cur|
      ensures cur[m] == a[m + i]
    {
    }
    RunShape(cur, t, k, x);
  }

  /** A sequence that holds `t` with `x` placed at position `k`. */
  lemma RunShape<T>(cur: seq<T>, t: seq<T>, k: nat, x: T)
    requires k <= |t| && |cur| == |t| + 1 && cur[k] == x
    requires forall m :: 0 <= m < k ==> cur[m] == t[m]
    requires forall m :: k < m < |cur| ==> cur[m] == t[m - 1]
    ensures cur == t[..k] + [x] + t[k..]
  {
    var r := t[..k] + [x] + t[k..];
    forall m | 0 <= m < |r|
      ensures cur[m] == r[m]
    {
      if m < k {
        assert r[m] == t[m];
      } else if m > k {
        assert r[m] == t[m - 1];
      }
    }
  }

  /** `a.sort(cmp)` in place: the array ends holding the stable insertion sort of what it held. */
  method SortInPlace<T>(a: array<T>, less: (T, T) -> bool)
    modifies a
    ensures a[..] == SortBy(old(a[..]), less)
  {
    ghost var s := a[..];
    var i := a.Length;
    while i > 0
      invariant 0 <= i <= a.Length
      invariant forall m :: 0 <= m < i ==> a[m] == s[m]
      invariant a[i..] == SortBy(s[i..], less)
      decreases i
    {
      i := i - 1;
      SortBySuffix(s, i, less);
      assert a[i + 1..] == SortBy(s[i + 1..], less) by {
        assert a[i + 1..] == a[i..][1..];
      }
      InsertInPlace(a, i, less);
    }
    assert a[..] == a[0..];
  }

  /** Sorting a suffix inserts its first element into the sorted rest. */
  lemma SortBySuffix<T>(s: seq<T>, i: nat, less: (T, T) -> bool)
    requires i < |s|
    ensures SortBy(s[i..], less) == Insert(s[i], SortBy(s[i + 1..], less), less)
  {
    var u := s[i..];
    assert u[0] == s[i] && u[1..] == s[i + 1..];
  }
}
