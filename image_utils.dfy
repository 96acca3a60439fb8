/**
 * Image URL selection (src/utils/imageUtils.js): the CDN map keyed by product
 * name, and the fallback chain over an item's image fields.
 */
module ImageUtils {
  import opened JsValue

  /** The placeholder shown when nothing better is known. */
  const DefaultImage: string := "/assets/images/placeholder.jpg"

  /** The CDN images, keyed by exact product name. */
  const CloudImageMap: map<string, string> := map[
    "Pure Instant Coffee" := "https://ik.imagekit.io/3xnjrgh8n/100instant%20(1).jpg",
    "Vanilla Instant Coffee" := "https://ik.imagekit.io/3xnjrgh8n/Vanilla%20(1).jpg",
    "Hazelnut Instant Coffee" := "https://ik.imagekit.io/3xnjrgh8n/Hazelnut%20(1).jpg",
    "Strong Instant Coffee" := "https://ik.imagekit.io/3xnjrgh8n/7030instant%20(1).jpg",
    "Espresso" := "https://ik.imagekit.io/3xnjrgh8n/espresso%20(1).jpg"
  ]

  /** `cloudImageMap[name]`: the property key is the name's string form. */
  function CloudImage(name: Value): (r: Value)
    ensures r.Undefined? || (r.Str? && r.s in CloudImageMap.Values)
  {
    var key := ToStr(name);
    if key in CloudImageMap then Str(CloudImageMap[key]) else Undefined
  }

  /** Every CDN entry is a non-empty URL. */
  lemma CloudImagesNonEmpty()
    ensures forall u :: u in CloudImageMap.Values ==> u != ""
  {
    forall u | u in CloudImageMap.Values
      ensures u != ""
    {
      var k :| k in CloudImageMap && CloudImageMap[k] == u;
    }
  }

  /** `getCloudImageUrl(productName)` */
  function GetCloudImageUrl(productName: Value): (r: string)
    ensures !Truthy(productName) ==> r == DefaultImage
    ensures Truthy(productName) && CloudImage(productName).Str? ==> r == CloudImage(productName).s
    ensures CloudImage(productName).Undefined? ==> r == DefaultImage
    ensures r != ""
  {
    CloudImagesNonEmpty();
    if !Truthy(productName) then DefaultImage
    else
      var u := CloudImage(productName);
      if u.Str? && u.s != "" then u.s else DefaultImage
  }

  /** `a && b` */
  function And(a: Value, b: Value): Value { if Truthy(a) then b else a }

  /** The name an item is matched by: its name, product name or title, else its nested product's name. */
  function ItemName(item: Value): Value {
    Or(Or(Or(Get(item, "name"), Get(item, "productName")), Get(item, "title")),
       And(Get(item, "product"), Get(Get(item, "product"), "name")))
  }

  /** The item's own image fields, in the order they are tried. */
  function ImageField(item: Value): (r: Value)
    ensures Truthy(Get(item, "mainImage")) ==> r == Get(item, "mainImage")
    ensures !Truthy(Get(item, "mainImage")) && Truthy(Get(item, "image")) ==> r == Get(item, "image")
    ensures !Truthy(Get(item, "mainImage")) && !Truthy(Get(item, "image")) &&
            Truthy(Get(item, "product")) && Truthy(Get(Get(item, "product"), "mainImage")) ==>
              r == Get(Get(item, "product"), "mainImage")
    ensures !Truthy(Get(item, "mainImage")) && !Truthy(Get(item, "image")) &&
            !(Truthy(Get(item, "product")) && Truthy(Get(Get(item, "product"), "mainImage"))) &&
            Truthy(Get(item, "product")) && Truthy(Get(Get(item, "product"), "image")) ==>
              r == Get(Get(item, "product"), "image")
    ensures Truthy(r) || r == Str(DefaultImage)
  {
    var product := Get(item, "product");
    if Truthy(Get(item, "mainImage")) then Get(item, "mainImage")
    else if Truthy(Get(item, "image")) then Get(item, "image")
    else if Truthy(product) && Truthy(Get(product, "mainImage")) then Get(product, "mainImage")
    else if Truthy(product) && Truthy(Get(product, "image")) then Get(product, "image")
    else Str(DefaultImage)
  }

  /** `getProductImageUrl(item)` */
  function GetProductImageUrl(item: Value): (r: Value)
    ensures !Truthy(item) ==> r == Str(DefaultImage)
    ensures Truthy(item) && Truthy(ItemName(item)) && CloudImage(ItemName(item)).Str? ==>
      r == CloudImage(ItemName(item))
    ensures Truthy(item) && !(Truthy(ItemName(item)) && CloudImage(ItemName(item)).Str?) ==>
      r == ImageField(item)
    ensures Truthy(r)
  {
    CloudImagesNonEmpty();
    if !Truthy(item) then Str(DefaultImage)
    else
      var name := ItemName(item);
      if Truthy(name) && CloudImage(name).Str? then CloudImage(name)
      else ImageField(item)
  }

  /** A mapped name wins over every image field of the item. */
  lemma CloudImageTakesPrecedence(item: Value, url: string)
    requires Truthy(item) && Get(item, "name").Str? && Get(item, "name").s in CloudImageMap
    requires url == CloudImageMap[Get(item, "name").s]
    ensures GetProductImageUrl(item) == Str(url)
  {
    var n := Get(item, "name");
    assert n.s != "" by { assert "" !in CloudImageMap; }
    assert ItemName(item) == n;
    assert ToStr(n) == n.s;
  }
}
