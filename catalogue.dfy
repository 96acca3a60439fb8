/**
 * The product listing (src/components/ProductsPage.jsx): category toggling, the
 * unified rating of a product, the exclude / search / category / price / rating
 * filter chain, the comparator sort and the discount percentage.
 *
 * A filter step whose callback throws (`toLowerCase` of a name or category that is
 * not a string) makes the whole listing fail to render; such steps return `None`.
 */
module Catalogue {
  import opened Wrappers
  import opened JsValue
  import opened Text
  import opened Seqs
  import CartView

  const InstantCoffee: string := "Instant Coffee"
  const AccessoriesAndGifting: string := "Accessories & Gifting"

  /** The two categories the sidebar offers. */
  const Categories: seq<string> := [InstantCoffee, AccessoriesAndGifting]

  // ---------------------------------------------------------------- categories

  function NotCategory(category: string): string -> bool {
    c => c != category
  }

  /** `handleCategoryChange`: drop a selected category, append an unselected one. */
  function CategoryToggled(selected: seq<string>, category: string): (r: seq<string>)
    ensures category in r <==> category !in selected
    ensures forall c :: c != category ==> (c in r <==> c in selected)
    ensures category !in selected ==> r == selected + [category]
    ensures category in selected ==> Subseq(r, selected) && |r| < |selected|
  {
    if category in selected then
      var r := Filter(selected, NotCategory(category));
      SubseqMissingShorter(r, selected, category);
      r
    else selected + [category]
  }

  /** A subsequence that misses an element of the whole is shorter. */
  lemma {:induction false} SubseqMissingShorter<T>(a: seq<T>, b: seq<T>, x: T)
    requires Subseq(a, b) && x in b && x !in a
    ensures |a| < |b|
    decreases |b|
  {
    if a != [] {
      if a[0] == b[0] && Subseq(a[1..], b[1..]) {
        assert x in b[1..] && x !in a[1..];
        SubseqMissingShorter(a[1..], b[1..], x);
      } else {
        SubseqMembers(a, b[1..]);
      }
    }
  }

  /** Toggling a category that was not selected twice gives back the selection. */
  lemma ToggleTwiceRestores(selected: seq<string>, category: string)
    requires category !in selected
    ensures CategoryToggled(CategoryToggled(selected, category), category) == selected
  {
    var once := selected + [category];
    var twice := Filter(once, NotCategory(category));
    FilterAppendDropped(selected, category);
    assert twice == selected;
  }

  lemma {:induction false} FilterAppendDropped(s: seq<string>, category: string)
    requires category !in s
    ensures Filter(s + [category], NotCategory(category)) == s
  {
    if s == [] {
      assert Filter([category], NotCategory(category)) == [];
    } else {
      assert (s + [category])[1..] == s[1..] + [category];
      FilterAppendDropped(s[1..], category);
      assert [s[0]] + s[1..] == s;
    }
  }

  /** Toggling a selected category twice keeps the same categories selected, now last. */
  lemma ToggleTwiceKeepsSelection(selected: seq<string>, category: string)
    requires category in selected
    ensures var r := CategoryToggled(CategoryToggled(selected, category), category);
      (forall c :: c in r <==> c in selected) && r[|r| - 1] == category
  {
  }

  // ---------------------------------------------------------------- clearing

  datatype Filters = Filters(
    categories: seq<string>, minPrice: real, maxPrice: real, rating: Option<real>)

  const PriceCeiling: real := 2000.0

  /** `clearFilters` */
  function Cleared(): (f: Filters)
    ensures f.categories == [] && f.rating.None?
    ensures f.minPrice == 0.0 && f.maxPrice == PriceCeiling
  {
    Filters([], 0.0, PriceCeiling, None)
  }

  // ---------------------------------------------------------------- rating

  /** A product's rating: the first of its four rating fields that is not nullish. */
  function DirectRatingField(p: Value): (r: Value)
    ensures r in [Get(p, "rating"), Get(p, "averageRating"), Get(p, "avgRating"), Get(p, "ratingValue")]
  {
    Coalesce(Coalesce(Coalesce(Get(p, "rating"), Get(p, "averageRating")), Get(p, "avgRating")), Get(p, "ratingValue"))
  }

  /** The direct rating when it is present, non-empty and numeric. */
  function DirectRating(p: Value): (r: Option<real>)
    ensures r.Some? <==>
      !Nullish(DirectRatingField(p)) && DirectRatingField(p) != Str("") && ToNumber(DirectRatingField(p)).Num?
    ensures r.Some? ==> r.value == ToNumber(DirectRatingField(p)).n
  {
    var d := DirectRatingField(p);
    if Nullish(d) || d == Str("") then None
    else
      var x := ToNumber(d);
      if x.Num? then Some(x.n) else None
  }

  /** `Number(r.rating ?? r.stars ?? r.score)` for one review. */
  function ReviewScore(review: Value): Value {
    ToNumber(Coalesce(Coalesce(Get(review, "rating"), Get(review, "stars")), Get(review, "score")))
  }

  /** A review whose score reads as a number. */
  predicate HasScore(review: Value) { ReviewScore(review).Num? }

  /**
   * The numeric review scores: one per review whose score is a number, in the order
   * of the reviews, so each score counts as often as it was given.
   */
  function ReviewScores(reviews: seq<Value>): (r: seq<real>)
    ensures |r| == |Filter(reviews, HasScore)| <= |reviews|
    ensures forall k :: 0 <= k < |r| ==> ReviewScore(Filter(reviews, HasScore)[k]) == Num(r[k])
    ensures forall x :: x in r <==> exists i :: 0 <= i < |reviews| && ReviewScore(reviews[i]) == Num(x)
  {
    if reviews == [] then []
    else
      var rest := ReviewScores(reviews[1..]);
      var s := ReviewScore(reviews[0]);
      var r := if s.Num? then [s.n] + rest else rest;
      ScoresStep(reviews, rest, r);
      r
  }

  /** The score of a review whose score is a number. */
  function ScoreOf(review: Value): real {
    var s := ReviewScore(review);
    if s.Num? then s.n else 0.0
  }

  /** One step of `ReviewScores`: the head's score, when numeric, in front of the tail's scores. */
  lemma {:induction false} ScoresStep(reviews: seq<Value>, rest: seq<real>, r: seq<real>)
    requires reviews != []
    requires |rest| == |Filter(reviews[1..], HasScore)|
    requires forall k :: 0 <= k < |rest| ==> ReviewScore(Filter(reviews[1..], HasScore)[k]) == Num(rest[k])
    requires forall x :: x in rest <==> exists i :: 0 <= i < |reviews[1..]| && ReviewScore(reviews[1..][i]) == Num(x)
    requires r == if HasScore(reviews[0]) then [ReviewScore(reviews[0]).n] + rest else rest
    ensures |r| == |Filter(reviews, HasScore)|
    ensures forall k :: 0 <= k < |r| ==> ReviewScore(Filter(reviews, HasScore)[k]) == Num(r[k])
    ensures forall x :: x in r <==> exists i :: 0 <= i < |reviews| && ReviewScore(reviews[i]) == Num(x)
  {
    var keptTail := Filter(reviews[1..], HasScore);
    forall k | 0 <= k < |rest|
      ensures ScoreOf(keptTail[k]) == rest[k]
    {
      assert ReviewScore(keptTail[k]) == Num(rest[k]);
    }
    KeptImagesStep(reviews, HasScore, ScoreOf, rest, r);
    var kept := Filter(reviews, HasScore);
    forall k | 0 <= k < |r|
      ensures ReviewScore(kept[k]) == Num(r[k])
    {
      assert kept[k] in kept;
      assert HasScore(kept[k]) && ScoreOf(kept[k]) == r[k];
    }
    ScoresStepMembers(reviews, rest, r);
  }

  lemma {:induction false} ScoresStepMembers(reviews: seq<Value>, rest: seq<real>, r: seq<real>)
    requires reviews != []
    requires forall x :: x in rest <==> exists i :: 0 <= i < |reviews[1..]| && ReviewScore(reviews[1..][i]) == Num(x)
    requires r == if HasScore(reviews[0]) then [ReviewScore(reviews[0]).n] + rest else rest
    ensures forall x :: x in r <==> exists i :: 0 <= i < |reviews| && ReviewScore(reviews[i]) == Num(x)
  {
    var tail := reviews[1..];
    forall x | x in r
      ensures exists i :: 0 <= i < |reviews| && ReviewScore(reviews[i]) == Num(x)
    {
      if HasScore(reviews[0]) && x == ReviewScore(reviews[0]).n {
        assert ReviewScore(reviews[0]) == Num(x);
      } else {
        assert x in rest;
        var i :| 0 <= i < |tail| && ReviewScore(tail[i]) == Num(x);
        assert reviews[i + 1] == tail[i];
      }
    }
    forall x | exists i :: 0 <= i < |reviews| && ReviewScore(reviews[i]) == Num(x)
      ensures x in r
    {
      var i :| 0 <= i < |reviews| && ReviewScore(reviews[i]) == Num(x);
      if i > 0 {
        assert reviews[i] == tail[i - 1];
      }
    }
  }

  function Sum(xs: seq<real>): real {
    if xs == [] then 0.0 else xs[0] + Sum(xs[1..])
  }

  /** The mean of a non-empty list of scores lies within any bounds of the scores. */
  lemma MeanWithin(xs: seq<real>, lo: real, hi: real)
    requires xs != []
    requires forall x :: x in xs ==> lo <= x <= hi
    ensures lo <= Sum(xs) / (|xs| as real) <= hi
  {
    forall i | 0 <= i < |xs|
      ensures lo <= xs[i] <= hi
    {
      assert xs[i] in xs;
    }
    SumWithin(xs, lo, hi);
    QuotientWithin(Sum(xs), |xs| as real, lo, hi);
  }

  lemma {:induction false} SumWithin(xs: seq<real>, lo: real, hi: real)
    requires forall i :: 0 <= i < |xs| ==> lo <= xs[i] <= hi
    ensures lo * (|xs| as real) <= Sum(xs) <= hi * (|xs| as real)
  {
    if xs == [] {
      ZeroWithin(lo, hi);
    } else {
      var tail := xs[1..];
      assert forall i :: 0 <= i < |tail| ==> tail[i] == xs[i + 1];
      SumWithin(tail, lo, hi);
      StepWithin(xs[0], Sum(tail), |tail| as real, |xs| as real, lo, hi);
    }
  }

  lemma ZeroWithin(lo: real, hi: real)
    ensures lo * 0.0 == 0.0 == hi * 0.0
  {
  }

  lemma StepWithin(x: real, sum: real, n: real, m: real, lo: real, hi: real)
    requires lo <= x <= hi && lo * n <= sum <= hi * n && m == n + 1.0
    ensures lo * m <= x + sum <= hi * m
  {
    assert lo * m == lo * n + lo && hi * m == hi * n + hi;
  }

  lemma QuotientWithin(sum: real, m: real, lo: real, hi: real)
    requires m > 0.0 && lo * m <= sum <= hi * m
    ensures lo <= sum / m <= hi
  {
    assert sum / m * m == sum;
  }

  /** `extractRating`, with the per-product averages the rating widgets report. */
  function ExtractRating(p: Value, ratingMap: map<Value, real>): (r: real)
    ensures Get(p, "id") in ratingMap ==> r == ratingMap[Get(p, "id")]
    ensures Get(p, "id") !in ratingMap && DirectRating(p).Some? ==> r == DirectRating(p).value
    ensures Get(p, "id") !in ratingMap && DirectRating(p).None? && ReviewRating(p).Some? ==>
      r == ReviewRating(p).value
    ensures Get(p, "id") !in ratingMap && DirectRating(p).None? && ReviewRating(p).None? ==> r == 0.0
  {
    var id := Get(p, "id");
    if id in ratingMap then ratingMap[id]
    else
      match DirectRating(p)
      case Some(x) => x
      case None =>
        match ReviewRating(p)
        case Some(m) => m
        case None => 0.0
  }

  /** The mean of the numeric review scores when `reviews` is an array with at least one. */
  function ReviewRating(p: Value): (r: Option<real>)
    ensures r.Some? <==> Get(p, "reviews").Arr? && ReviewScores(Get(p, "reviews").elems) != []
  {
    var reviews := Get(p, "reviews");
    if !reviews.Arr? then None
    else
      var nums := ReviewScores(reviews.elems);
      if nums == [] then None else Some(Sum(nums) / (|nums| as real))
  }

  /** When every numeric review score is on a scale, the review rating is on it too. */
  lemma ReviewRatingOnScale(p: Value, lo: real, hi: real)
    requires Get(p, "reviews").Arr?
    requires forall i :: 0 <= i < |Get(p, "reviews").elems| && ReviewScore(Get(p, "reviews").elems[i]).Num? ==>
      lo <= ReviewScore(Get(p, "reviews").elems[i]).n <= hi
    requires ReviewRating(p).Some?
    ensures lo <= ReviewRating(p).value <= hi
  {
    var nums := ReviewScores(Get(p, "reviews").elems);
    MeanWithin(nums, lo, hi);
  }

  // ---------------------------------------------------------------- filter steps

  /** The products shown at all: those whose name is not on the exclude list. */
  function Unexcluded(ps: seq<Value>): (r: seq<Value>)
    ensures forall p :: p in r <==> p in ps && !CartView.Excluded(p)
    ensures Subseq(r, ps)
  {
    Filter(ps, CartView.Shown)
  }

  /** `searchTerm.toLowerCase().split(/\s+/)`, empty pieces dropped. */
  function SearchWords(term: string): seq<string> {
    Words(ToLower(term))
  }

  /** The product's lowercase name contains one of the words. */
  predicate NameMatches(p: Value, words: seq<string>) {
    var name := Get(p, "name");
    name.Str? && exists w :: w in words && Contains(ToLower(name.s), w)
  }

  function MatchesSearch(words: seq<string>): Value -> bool {
    p => NameMatches(p, words)
  }

  predicate NameIsText(p: Value) { Get(p, "name").Str? }

  /** The search step: skipped for a blank term, and failing on a name that is not a string. */
  function Searched(ps: seq<Value>, term: string): (r: Option<seq<Value>>)
    ensures Trim(term) == "" ==> r == Some(ps)
    ensures Trim(term) != "" ==> (r.Some? <==> forall i :: 0 <= i < |ps| ==> NameIsText(ps[i]))
    ensures r.Some? ==> Subseq(r.value, ps)
    ensures r.Some? && Trim(term) != "" ==>
      forall p :: p in r.value <==> (p in ps &&
        exists w :: w in SearchWords(term) && Contains(ToLower(Get(p, "name").s), w))
  {
    if Trim(term) == "" then
      SubseqRefl(ps);
      Some(ps)
    else if exists i :: 0 <= i < |ps| && !NameIsText(ps[i]) then None
    else
      var r := Filter(ps, MatchesSearch(SearchWords(term)));
      assert forall p :: p in ps ==> NameIsText(p);
      Some(r)
  }

  /** `(product.category || '').toLowerCase()` works only on a falsy or string category. */
  predicate CategoryIsText(p: Value) {
    var c := Get(p, "category");
    !Truthy(c) || c.Str?
  }

  function CategoryText(p: Value): string {
    var c := Get(p, "category");
    if Truthy(c) && c.Str? then ToLower(c.s) else ""
  }

  /** One selected category against a product. */
  predicate CategoryMatches(sel: string, p: Value) {
    if sel == AccessoriesAndGifting then
      Contains(CategoryText(p), "access") || Contains(CategoryText(p), "gift")
    else Get(p, "category") == Str(sel)
  }

  predicate InSomeCategory(p: Value, selected: seq<string>) {
    exists sel :: sel in selected && CategoryMatches(sel, p)
  }

  function MatchesCategories(selected: seq<string>): Value -> bool {
    p => InSomeCategory(p, selected)
  }

  /** The category step: 'Instant Coffee' stands for every product. */
  function CategoryFiltered(ps: seq<Value>, selected: seq<string>): (r: Option<seq<Value>>)
    ensures selected == [] || InstantCoffee in selected ==> r == Some(ps)
    ensures selected != [] && InstantCoffee !in selected ==>
      (r.Some? <==> forall i :: 0 <= i < |ps| ==> CategoryIsText(ps[i]))
    ensures r.Some? ==> Subseq(r.value, ps)
    ensures r.Some? && selected != [] && InstantCoffee !in selected ==>
      forall p :: p in r.value <==> p in ps && exists sel :: sel in selected && CategoryMatches(sel, p)
  {
    if selected == [] || InstantCoffee in selected then
      SubseqRefl(ps);
      Some(ps)
    else if exists i :: 0 <= i < |ps| && !CategoryIsText(ps[i]) then None
    else Some(Filter(ps, MatchesCategories(selected)))
  }

  /** `Number(product.price)` lies in the inclusive range. */
  predicate InPriceRange(p: Value, lo: real, hi: real) {
    var x := ToNumber(Get(p, "price"));
    x.Num? && lo <= x.n <= hi
  }

  function MatchesPrice(lo: real, hi: real): Value -> bool {
    p => InPriceRange(p, lo, hi)
  }

  function PriceFiltered(ps: seq<Value>, lo: real, hi: real): (r: seq<Value>)
    ensures forall p :: p in r <==> p in ps && InPriceRange(p, lo, hi)
    ensures Subseq(r, ps)
  {
    Filter(ps, MatchesPrice(lo, hi))
  }

  predicate RatingFilterOn(rating: Option<real>) { rating.Some? && rating.value != 0.0 }

  function MatchesRating(least: real, ratingMap: map<Value, real>): Value -> bool {
    p => ExtractRating(p, ratingMap) >= least
  }

  /** The rating step, applied only when a (truthy) rating is selected. */
  function RatingFiltered(ps: seq<Value>, rating: Option<real>, ratingMap: map<Value, real>): (r: seq<Value>)
    ensures !RatingFilterOn(rating) ==> r == ps
    ensures RatingFilterOn(rating) ==>
      forall p :: p in r <==> p in ps && ExtractRating(p, ratingMap) >= rating.value
    ensures Subseq(r, ps)
  {
    if RatingFilterOn(rating) then Filter(ps, MatchesRating(rating.value, ratingMap))
    else
      SubseqRefl(ps);
      ps
  }

  // ---------------------------------------------------------------- sorting

  /** `Number(p.price)` */
  function Price(p: Value): Value { ToNumber(Get(p, "price")) }

  /**
   * `cmp(a, b) < 0` for the comparator of `sortBy`. Names are compared by
   * `collate`, which stands for `localeCompare(...) < 0`.
   */
  predicate Precedes(sortBy: string, ratingMap: map<Value, real>, collate: (string, string) -> bool, a: Value, b: Value) {
    if sortBy == "price-low-high" then
      Price(a).Num? && Price(b).Num? && Price(a).n < Price(b).n
    else if sortBy == "price-high-low" then
      Price(a).Num? && Price(b).Num? && Price(b).n < Price(a).n
    else if sortBy == "name-a-z" then
      Get(a, "name").Str? && Get(b, "name").Str? && collate(Get(a, "name").s, Get(b, "name").s)
    else if sortBy == "name-z-a" then
      Get(a, "name").Str? && Get(b, "name").Str? && collate(Get(b, "name").s, Get(a, "name").s)
    else if sortBy == "rating" then
      ExtractRating(b, ratingMap) < ExtractRating(a, ratingMap)
    else false
  }

  function Comparator(sortBy: string, ratingMap: map<Value, real>, collate: (string, string) -> bool): (Value, Value) -> bool {
    (a: Value, b: Value) => Precedes(sortBy, ratingMap, collate, a, b)
  }

  /** `[...filteredProducts].sort(...)`: a stable sort, so a permutation of its input. */
  function Sorted(ps: seq<Value>, sortBy: string, ratingMap: map<Value, real>, collate: (string, string) -> bool): (r: seq<Value>)
    ensures multiset(r) == multiset(ps)
  {
    SortBy(ps, Comparator(sortBy, ratingMap, collate))
  }


  /** 'relevance', and any unknown key, keep the filtered order. */
  lemma RelevanceKeepsOrder(ps: seq<Value>, sortBy: string, ratingMap: map<Value, real>, collate: (string, string) -> bool)
    requires sortBy !in ["price-low-high", "price-high-low", "name-a-z", "name-z-a", "rating"]
    ensures Sorted(ps, sortBy, ratingMap, collate) == ps
  {
    SortByStable(ps, Comparator(sortBy, ratingMap, collate));
  }

  /** The numeric price, or 0 when `Number(p.price)` is NaN. */
  function PriceKey(p: Value): real { if Price(p).Num? then Price(p).n else 0.0 }

  /** 'price-low-high' over numeric prices gives non-decreasing prices. */
  lemma PriceLowHighAscends(ps: seq<Value>, ratingMap: map<Value, real>, collate: (string, string) -> bool)
    requires forall i :: 0 <= i < |ps| ==> Price(ps[i]).Num?
    ensures var r := Sorted(ps, "price-low-high", ratingMap, collate);
      forall i, j :: 0 <= i < j < |r| ==> Price(r[i]).Num? && Price(r[j]).Num? && Price(r[i]).n <= Price(r[j]).n
  {
    var less := Comparator("price-low-high", ratingMap, collate);
    forall a, b | a in ps && b in ps
      ensures less(a, b) <==> PriceKey(a) < PriceKey(b)
    {
    }
    SortByAscendingRealKey(ps, less, PriceKey);
    PermutationMembers(ps, Sorted(ps, "price-low-high", ratingMap, collate));
  }

  /** 'price-high-low' over numeric prices gives non-increasing prices. */
  lemma PriceHighLowDescends(ps: seq<Value>, ratingMap: map<Value, real>, collate: (string, string) -> bool)
    requires forall i :: 0 <= i < |ps| ==> Price(ps[i]).Num?
    ensures var r := Sorted(ps, "price-high-low", ratingMap, collate);
      forall i, j :: 0 <= i < j < |r| ==> Price(r[i]).Num? && Price(r[j]).Num? && Price(r[i]).n >= Price(r[j]).n
  {
    var less := Comparator("price-high-low", ratingMap, collate);
    forall a, b | a in ps && b in ps
      ensures less(a, b) <==> PriceKey(b) < PriceKey(a)
    {
    }
    SortByDescendingRealKey(ps, less, PriceKey);
    PermutationMembers(ps, Sorted(ps, "price-high-low", ratingMap, collate));
  }

  /** 'rating' gives non-increasing ratings. */
  lemma RatingDescends(ps: seq<Value>, ratingMap: map<Value, real>, collate: (string, string) -> bool)
    ensures var r := Sorted(ps, "rating", ratingMap, collate);
      forall i, j :: 0 <= i < j < |r| ==> ExtractRating(r[i], ratingMap) >= ExtractRating(r[j], ratingMap)
  {
    var less := Comparator("rating", ratingMap, collate);
    var key := (p: Value) => ExtractRating(p, ratingMap);
    forall a, b | a in ps && b in ps
      ensures less(a, b) <==> key(b) < key(a)
    {
    }
    SortByDescendingRealKey(ps, less, key);
  }

  // ---------------------------------------------------------------- the listing

  /** The search step's condition on one product: met by every product when the term is blank. */
  predicate SearchOk(term: string, p: Value) {
    Trim(term) == "" || NameMatches(p, SearchWords(term))
  }

  /** The category step's condition on one product: met by every product when the step keeps all. */
  predicate CategoryOk(selected: seq<string>, p: Value) {
    selected == [] || InstantCoffee in selected || InSomeCategory(p, selected)
  }

  /** The rating step's condition on one product: met by every product when no rating is selected. */
  predicate RatingOk(rating: Option<real>, ratingMap: map<Value, real>, p: Value) {
    !RatingFilterOn(rating) || ExtractRating(p, ratingMap) >= rating.value
  }

  /** A product the listing shows: one that passes every step. */
  predicate ShownProduct(p: Value, term: string, f: Filters, ratingMap: map<Value, real>) {
    !CartView.Excluded(p) && SearchOk(term, p) && CategoryOk(f.categories, p) &&
    InPriceRange(p, f.minPrice, f.maxPrice) && RatingOk(f.rating, ratingMap, p)
  }

  /**
   * The listing is computed unless a search meets an unexcluded product whose name is not
   * a string, or a category selection meets a product left by the search whose category is
   * neither falsy nor a string.
   */
  predicate ListingDefined(products: seq<Value>, term: string, f: Filters) {
    (Trim(term) == "" || forall p :: p in products && !CartView.Excluded(p) ==> NameIsText(p)) &&
    (f.categories == [] || InstantCoffee in f.categories ||
     forall p :: p in products && !CartView.Excluded(p) && SearchOk(term, p) ==> CategoryIsText(p))
  }

  /** The whole chain: exclude, search, category, price, rating, then sort. */
  function Listed(products: seq<Value>, term: string, f: Filters, sortBy: string,
                  ratingMap: map<Value, real>, collate: (string, string) -> bool): (r: Option<seq<Value>>)
    ensures r.Some? <==> ListingDefined(products, term, f)
    ensures r.Some? ==> forall p ::
      multiset(r.value)[p] == if ShownProduct(p, term, f, ratingMap) then multiset(products)[p] else 0
    ensures r.Some? ==> forall p :: p in r.value ==>
      p in products && !CartView.Excluded(p) && InPriceRange(p, f.minPrice, f.maxPrice)
    ensures r.Some? ==> |r.value| <= |products|
    ensures r.Some? && RatingFilterOn(f.rating) ==> forall p :: p in r.value ==>
      ExtractRating(p, ratingMap) >= f.rating.value
  {
    var a := Unexcluded(products);
    SearchedDefined(products, term);
    match Searched(a, term)
    case None => None
    case Some(b) =>
      CategoryDefined(products, term, f.categories, b);
      match CategoryFiltered(b, f.categories)
      case None => None
      case Some(c) =>
        var e := RatingFiltered(PriceFiltered(c, f.minPrice, f.maxPrice), f.rating, ratingMap);
        var r := Sorted(e, sortBy, ratingMap, collate);
        StagesKeep(products, b, c, f, ratingMap, r);
        ListingCounts(products, term, f, ratingMap, b, c, r);
        Some(r)
  }

  /** The search step fails exactly when it meets an unexcluded product whose name is not a string. */
  lemma SearchedDefined(products: seq<Value>, term: string)
    ensures Searched(Unexcluded(products), term).Some? <==>
      (Trim(term) == "" || forall p :: p in products && !CartView.Excluded(p) ==> NameIsText(p))
  {
    var a := Unexcluded(products);
    if Trim(term) != "" && Searched(a, term).None? {
      var i :| 0 <= i < |a| && !NameIsText(a[i]);
      assert a[i] in a;
    }
  }

  /** The category step, after the search, fails exactly when it meets a category that is not text. */
  lemma CategoryDefined(products: seq<Value>, term: string, selected: seq<string>, b: seq<Value>)
    requires Searched(Unexcluded(products), term) == Some(b)
    ensures CategoryFiltered(b, selected).Some? <==>
      (selected == [] || InstantCoffee in selected ||
       forall p :: p in products && !CartView.Excluded(p) && SearchOk(term, p) ==> CategoryIsText(p))
  {
    var a := Unexcluded(products);
    assert forall p :: p in b <==> p in a && SearchOk(term, p);
    if selected != [] && InstantCoffee !in selected && CategoryFiltered(b, selected).None? {
      var i :| 0 <= i < |b| && !CategoryIsText(b[i]);
      assert b[i] in b;
    }
  }

  /** The search step keeps each product it matches as often as it was given, and no other. */
  lemma SearchedCounts(ps: seq<Value>, term: string)
    ensures Searched(ps, term).Some? ==> forall x ::
      multiset(Searched(ps, term).value)[x] == if SearchOk(term, x) then multiset(ps)[x] else 0
  {
    FilterCounts(ps, MatchesSearch(SearchWords(term)));
  }

  /** The category step keeps each product it matches as often as it was given, and no other. */
  lemma CategoryCounts(ps: seq<Value>, selected: seq<string>)
    ensures CategoryFiltered(ps, selected).Some? ==> forall x ::
      multiset(CategoryFiltered(ps, selected).value)[x] == if CategoryOk(selected, x) then multiset(ps)[x] else 0
  {
    FilterCounts(ps, MatchesCategories(selected));
  }

  /** The rating step keeps each product rated high enough as often as it was given, and no other. */
  lemma RatingCounts(ps: seq<Value>, rating: Option<real>, ratingMap: map<Value, real>)
    ensures forall x ::
      multiset(RatingFiltered(ps, rating, ratingMap))[x] == if RatingOk(rating, ratingMap, x) then multiset(ps)[x] else 0
  {
    if RatingFilterOn(rating) {
      FilterCounts(ps, MatchesRating(rating.value, ratingMap));
    }
  }

  /** Each step keeps a product as often as it was given or drops it, so the listing shows each shown product as often as given. */
  lemma ListingCounts(products: seq<Value>, term: string, f: Filters, ratingMap: map<Value, real>,
                      b: seq<Value>, c: seq<Value>, r: seq<Value>)
    requires Searched(Unexcluded(products), term) == Some(b)
    requires CategoryFiltered(b, f.categories) == Some(c)
    requires multiset(r) == multiset(RatingFiltered(PriceFiltered(c, f.minPrice, f.maxPrice), f.rating, ratingMap))
    ensures forall p :: multiset(r)[p] == if ShownProduct(p, term, f, ratingMap) then multiset(products)[p] else 0
  {
    var a := Unexcluded(products);
    var d := PriceFiltered(c, f.minPrice, f.maxPrice);
    FilterCounts(products, CartView.Shown);
    SearchedCounts(a, term);
    CategoryCounts(b, f.categories);
    FilterCounts(c, MatchesPrice(f.minPrice, f.maxPrice));
    RatingCounts(d, f.rating, ratingMap);
  }

  /** What the price and rating steps keep, after the exclusion, search and category steps, survives the sort. */
  lemma StagesKeep(products: seq<Value>, b: seq<Value>, c: seq<Value>, f: Filters, ratingMap: map<Value, real>,
                   r: seq<Value>)
    requires Subseq(b, Unexcluded(products)) && Subseq(c, b)
    requires multiset(r) == multiset(RatingFiltered(PriceFiltered(c, f.minPrice, f.maxPrice), f.rating, ratingMap))
    ensures forall p :: p in r ==> p in products && !CartView.Excluded(p) && InPriceRange(p, f.minPrice, f.maxPrice)
    ensures |r| <= |products|
    ensures RatingFilterOn(f.rating) ==> forall p :: p in r ==> ExtractRating(p, ratingMap) >= f.rating.value
  {
    var a := Unexcluded(products);
    var d := PriceFiltered(c, f.minPrice, f.maxPrice);
    var e := RatingFiltered(d, f.rating, ratingMap);
    SubseqChain(products, a, b, c, d, e, r);
  }

  // ---------------------------------------------------------------- discount

  /** `calculateDiscount(price, originalPrice)`: `Null` for no saving, else the rounded percentage off. */
  function CalculateDiscount(price: Value, originalPrice: Value): (r: Value)
    ensures r.Null? <==> !Truthy(originalPrice) || Le(originalPrice, price)
    ensures r.Num? ==> r.n == r.n.Floor as real
  {
    if !Truthy(originalPrice) || Le(originalPrice, price) then Null
    else
      var pct := Mul(Div(Sub(originalPrice, price), originalPrice), Num(100.0));
      if pct.Num? then Num(Round(pct.n)) else NaN
  }

  /** A real saving on a non-negative price is a whole percentage between 0 and 100. */
  lemma DiscountIsPercentage(price: real, originalPrice: real)
    requires 0.0 <= price < originalPrice
    ensures var r := CalculateDiscount(Num(price), Num(originalPrice));
      r.Num? && 0.0 <= r.n <= 100.0
  {
    NumericComparisons(originalPrice, price);
    var q := (originalPrice - price) / originalPrice;
    assert 0.0 < q <= 1.0 by {
      FractionBounds(originalPrice - price, originalPrice);
    }
    assert Div(Sub(Num(originalPrice), Num(price)), Num(originalPrice)) == Num(q);
    var pct := q * 100.0;
    assert 0.0 < pct <= 100.0;
    assert CalculateDiscount(Num(price), Num(originalPrice)) == Num(Round(pct));
  }

  lemma FractionBounds(part: real, whole: real)
    requires 0.0 < part <= whole
    ensures 0.0 < part / whole <= 1.0
  {
    assert part / whole * whole == part;
  }
}
