/**
 * The best-seller cards (src/components/BestSellerSection.jsx): a static entry is
 * matched by normalised name against the live catalogue, and the card merges the
 * two with per-field fallbacks.
 */
module BestSellers {
  import opened Wrappers
  import opened JsValue
  import opened Text
  import opened Seqs
  import CartView
  import Catalogue

  const DefaultBrand: string := "Bold & Brew"

  /** `norm(str)`: `String(str || '').trim().toUpperCase()`; for a product, the key of its name. */
  function Norm(p: Value): string { CartView.NameKey(p) }

  predicate SameName(q: Value, p: Value) { Norm(q) == Norm(p) }

  function SameNameAs(p: Value): Value -> bool { q => SameName(q, p) }

  /** A shown product with the same name as `p`. */
  function ShownWithName(p: Value): Value -> bool { q => !CartView.Excluded(q) && SameName(q, p) }

  /** The live product the static entry stands for: the first shown one with the same name. */
  function LiveMatch(products: seq<Value>, p: Value): (r: Option<Value>)
    ensures r.Some? ==> r.value in products && !CartView.Excluded(r.value) && SameName(r.value, p)
    ensures r.None? ==> forall q :: q in products && !CartView.Excluded(q) ==> !SameName(q, p)
    ensures r == match FindFirst(products, ShownWithName(p)) case None => None case Some(k) => Some(products[k])
  {
    var shown := Catalogue.Unexcluded(products);
    FindFirstKept(products, CartView.Shown, SameNameAs(p), ShownWithName(p));
    match FindFirst(shown, SameNameAs(p))
    case None => None
    case Some(k) =>
      assert shown[k] in shown;
      Some(shown[k])
  }

  /** `real?.[key]` */
  function Live(live: Option<Value>, key: string): Value {
    if live.Some? then Get(live.value, key) else Undefined
  }

  /** The original price: the first of the live product's three price fields, the static one, or the price, that is not nullish. */
  function OriginalPrice(live: Option<Value>, p: Value, price: Value): (r: Value)
    ensures r in [Live(live, "originalPrice"), Live(live, "mrp"), Live(live, "compareAtPrice"),
                  Get(p, "originalPrice"), price]
    ensures (Nullish(Live(live, "originalPrice")) && Nullish(Live(live, "mrp")) &&
             Nullish(Live(live, "compareAtPrice")) && Nullish(Get(p, "originalPrice"))) ==> r == price
    ensures !Nullish(Live(live, "originalPrice")) ==> r == Live(live, "originalPrice")
  {
    Coalesce(Coalesce(Coalesce(Coalesce(Live(live, "originalPrice"), Live(live, "mrp")),
      Live(live, "compareAtPrice")), Get(p, "originalPrice")), price)
  }

  /** `name.replace(/ /g, '-').toLowerCase()` */
  function Slug(name: string): (r: string)
    ensures |r| == |name|
    ensures forall i :: 0 <= i < |r| ==> r[i] == (if name[i] == ' ' then '-' else LowerChar(name[i]))
  {
    if name == [] then ""
    else [if name[0] == ' ' then '-' else LowerChar(name[0])] + Slug(name[1..])
  }

  /** `real?.id || p.id || name.replace(...)`: fails when the slug is needed and the name is not a string. */
  function CardId(live: Option<Value>, p: Value, name: Value): (r: Option<Value>)
    ensures Truthy(Live(live, "id")) ==> r == Some(Live(live, "id"))
    ensures !Truthy(Live(live, "id")) && Truthy(Get(p, "id")) ==> r == Some(Get(p, "id"))
    ensures !Truthy(Live(live, "id")) && !Truthy(Get(p, "id")) ==>
      (r.Some? <==> name.Str?) && (name.Str? ==> r == Some(Str(Slug(name.s))))
  {
    var id := Or(Live(live, "id"), Get(p, "id"));
    if Truthy(id) then Some(id)
    else if name.Str? then Some(Str(Slug(name.s)))
    else None
  }

  /** The merged card fields of `getNormalizedProduct`. */
  datatype CardFields = CardFields(
    name: Value, desc: Value, price: Value, originalPrice: Value, id: Value,
    mainImage: Value, brand: Value, stock: Value, isWishlisted: Value)

  function Fields(live: Option<Value>, p: Value): (r: Option<CardFields>)
    ensures r.Some? ==> r.value.price == Coalesce(Live(live, "price"), Get(p, "price"))
    ensures r.Some? ==> r.value.name == Or(Live(live, "name"), Get(p, "name"))
    ensures r.Some? ==> r.value.originalPrice == OriginalPrice(live, p, r.value.price)
    ensures r.Some? ==> r.value.stock == Coalesce(Live(live, "stock"), Get(p, "stock"))
    ensures r.Some? ==>
      (!Truthy(Live(live, "brand")) && !Truthy(Get(p, "brand")) ==> r.value.brand == Str(DefaultBrand))
    ensures r.Some? ==> (Truthy(r.value.isWishlisted) <==> Truthy(Live(live, "isWishlisted")))
    ensures r.Some? ==> Truthy(r.value.brand)
    ensures r.Some? <==> CardId(live, p, Or(Live(live, "name"), Get(p, "name"))).Some?
  {
    var price := Coalesce(Live(live, "price"), Get(p, "price"));
    var name := Or(Live(live, "name"), Get(p, "name"));
    var desc := Or(Or(Or(Live(live, "description"), Get(p, "desc")), Get(p, "description")), Str(""));
    match CardId(live, p, name)
    case None => None
    case Some(id) =>
      Some(CardFields(
        name, desc, price, OriginalPrice(live, p, price), id,
        Or(Or(Live(live, "mainImage"), Live(live, "image")), Get(p, "image")),
        Or(Or(Live(live, "brand"), Get(p, "brand")), Str(DefaultBrand)),
        Coalesce(Live(live, "stock"), Get(p, "stock")),
        Or(Live(live, "isWishlisted"), Bool(false))))
  }

  /** The static product, overlaid by the live one, with the derived fields set last. */
  function CardObject(live: Option<Value>, p: Value, f: CardFields): (r: Value)
    ensures r.Obj?
    ensures Get(r, "price") == f.price && Get(r, "id") == f.id && Get(r, "stock") == f.stock
    ensures Get(r, "description") == f.desc && Get(r, "desc") == f.desc
    ensures forall k :: k !in CardKeys ==>
      Get(r, k) == (if live.Some? && live.value.Obj? && k in live.value.fields then live.value.fields[k] else Get(Obj(Spread(p)), k))
  {
    var base := Spread(p) + (if live.Some? then Spread(live.value) else map[]);
    Obj(base["name" := f.name]["desc" := f.desc]["price" := f.price]["originalPrice" := f.originalPrice]
      ["id" := f.id]["mainImage" := f.mainImage]["description" := f.desc]["brand" := f.brand]
      ["stock" := f.stock]["isWishlisted" := f.isWishlisted])
  }

  const CardKeys: set<string> := {"name", "desc", "price", "originalPrice", "id", "mainImage",
                                  "description", "brand", "stock", "isWishlisted"}

  /** `getNormalizedProduct(p)` against the live catalogue; `None` when it would throw. */
  function NormalizedProduct(products: seq<Value>, p: Value): (r: Option<Value>)
    ensures r.Some? ==> r.value.Obj?
    ensures r.Some? && LiveMatch(products, p).None? ==> Get(r.value, "price") == Get(p, "price")
    ensures r.Some? && LiveMatch(products, p).Some? && !Nullish(Get(LiveMatch(products, p).value, "price")) ==>
      Get(r.value, "price") == Get(LiveMatch(products, p).value, "price")
  {
    var live := LiveMatch(products, p);
    match Fields(live, p)
    case None => None
    case Some(f) => Some(CardObject(live, p, f))
  }

  /** `normalized.stock === 0` */
  predicate CardOutOfStock(card: Value) { StrictEq(Get(card, "stock"), Num(0.0)) }

  /** A card is out of stock exactly when its merged stock is the number 0. */
  lemma OutOfStockIffZero(products: seq<Value>, p: Value)
    requires NormalizedProduct(products, p).Some?
    ensures var live := LiveMatch(products, p);
      CardOutOfStock(NormalizedProduct(products, p).value) <==>
        Coalesce(Live(live, "stock"), Get(p, "stock")) == Num(0.0)
  {
  }
}
