/**
 * The product edit page (src/components/EditProduct.jsx): the form filled from a
 * product, its validation, and the update written back.
 */
module EditProduct {
  import opened Wrappers
  import opened JsValue
  import opened Text
  import opened Seqs
  import opened Firestore
  import opened ProductForm

  /** The four default landing steps. */
  const DefaultSteps: seq<string> := [
    "Add 2 gms of Coffee Powder to 180 ml of Hot/Cold Milk.",
    "Add sugar as per your taste.",
    "Blend for Frothy Cold Coffee / Stir for Delicious Hot Coffee!",
    "Voila! Your Instant Coffee is ready."]

  /** The default landing text: five paragraphs joined by line breaks. */
  const DefaultInsideParagraphs: seq<string> := [
    "100% pure instant coffee.",
    "But that's only part of the story.",
    "Our coffee is made from the finest Arabica and Robusta beans, carefully selected from high-altitude farms. Each bean is harvested with care and roasted to a perfect medium-dark, bringing out its rich, complex flavor.",
    "We then use a specialized process to crystallize the brew, preserving the full aroma and taste of a freshly made cup. This ensures that every granule in this jar holds the promise of an exceptional coffee experience.",
    "So, when you open this jar, you're not just getting instant coffee. You're getting the result of passion and dedication, transforming simple beans into a moment of pure bliss. It’s a cup made with love, ready for you to enjoy."]

  /** The three default FAQs, as (question, answer). */
  const DefaultFaqTexts: seq<(string, string)> := [
    ("What is the shelf life of your instant coffee?",
     "Our instant coffee has a best-by date of 24 months from the date of manufacture. However, for the freshest and most vibrant flavor, we recommend enjoying it within 12-18 months of opening, as long as it is stored in a cool, dry place with the lid tightly sealed. Proper storage is key to preserving the rich aroma and taste of every granule."),
    ("Can I add the coffee powder to hot/cold milk or water?",
     "Absolutely! Our instant coffee is crafted to be versatile and dissolves beautifully in both hot and cold liquids. For a Hot Coffee: Simply add 1-2 teaspoons of coffee powder to a cup of hot water or hot milk, stir until dissolved, and enjoy. For a Cold Coffee: First, dissolve the coffee powder in a small amount of hot water to create a concentrate. Then, add cold water or chilled milk and ice. Stir vigorously or blend for a perfect, refreshing iced coffee. Feel free to experiment with the ratios to create your perfect cup, whether it's a bold black coffee or a creamy latte."),
    ("Which coffee beans are used to make Bold & Brew Instant Coffee?",
     "We believe in using the best ingredients to create an exceptional product. Our instant coffee is a carefully balanced blend of premium Arabica and Robusta beans. The Arabica beans provide a smooth, aromatic, and nuanced flavor profile, while the Robusta beans add a rich body and a delightful boldness to the blend. This combination ensures a well-rounded and satisfying coffee experience with every sip.")]

  const DefaultInside: string := Join(DefaultInsideParagraphs, "\n")

  function DefaultStepValues(): (r: seq<Value>)
    ensures |r| == StepSlots
    ensures forall i :: 0 <= i < StepSlots ==> r[i] == Str(DefaultSteps[i])
  {
    seq(|DefaultSteps|, i requires 0 <= i < |DefaultSteps| => Str(DefaultSteps[i]))
  }

  function DefaultFaqs(): (r: seq<Faq>)
    ensures |r| == FaqSlots
    ensures forall i :: 0 <= i < FaqSlots ==> r[i] == Faq(Str(DefaultFaqTexts[i].0), Str(DefaultFaqTexts[i].1))
  {
    seq(|DefaultFaqTexts|, i requires 0 <= i < |DefaultFaqTexts| =>
      Faq(Str(DefaultFaqTexts[i].0), Str(DefaultFaqTexts[i].1)))
  }

  // ---------------------------------------------------------------- loading

  /** `i && String(i).trim() !== ''` */
  predicate ImageEntry(i: Value) { Truthy(i) && Trim(ToStr(i)) != "" }

  /** The product's usable images, in their order; none when `images` is not an array. */
  function InitialImages(product: Value): (r: seq<Value>)
    ensures forall x :: x in r ==> ImageEntry(x)
    ensures Get(product, "images").Arr? ==>
      Subseq(r, Get(product, "images").elems) &&
      forall x :: x in Get(product, "images").elems && ImageEntry(x) ==> x in r
    ensures Get(product, "images").Arr? ==>
      forall x :: multiset(r)[x] == if ImageEntry(x) then multiset(Get(product, "images").elems)[x] else 0
    ensures !Get(product, "images").Arr? ==> r == []
  {
    var images := Get(product, "images");
    if images.Arr? then
      FilterCounts(images.elems, ImageEntry);
      Filter(images.elems, ImageEntry)
    else []
  }

  /** The images padded with empty strings up to the seven slots, never cut. */
  function Padded(imgs: seq<Value>): (r: seq<Value>)
    ensures |r| == (if |imgs| < ImageSlots then ImageSlots else |imgs|)
    ensures r[..|imgs|] == imgs
    ensures forall i :: |imgs| <= i < |r| ==> r[i] == Str("")
  {
    if |imgs| < ImageSlots then imgs + Blanks(ImageSlots - |imgs|) else imgs
  }

  /** `Array.isArray(xs) && xs.length` */
  predicate ListGiven(v: Value) { v.Arr? && |v.elems| > 0 }

  /** Exactly four steps: the product's first four padded with empty strings, or the defaults. */
  function InitialSteps(product: Value): (r: seq<Value>)
    ensures |r| == StepSlots
    ensures ListGiven(Get(product, "landingHowSteps")) ==> forall i :: 0 <= i < StepSlots ==>
      r[i] == (var given := Get(product, "landingHowSteps").elems; if i < |given| then given[i] else Str(""))
    ensures !ListGiven(Get(product, "landingHowSteps")) ==> r == DefaultStepValues()
  {
    var given := Get(product, "landingHowSteps");
    if ListGiven(given) then
      if |given.elems| >= StepSlots then given.elems[..StepSlots]
      else given.elems + Blanks(StepSlots - |given.elems|)
    else DefaultStepValues()
  }

  /** `({ question: f.question || '', answer: f.answer || '' })`: throws on a missing entry. */
  function FaqEntry(f: Value): (r: Option<Faq>)
    ensures r.None? <==> Nullish(f)
  {
    if Nullish(f) then None
    else Some(Faq(Or(Get(f, "question"), Str("")), Or(Get(f, "answer"), Str(""))))
  }

  /** `[...faqs].slice(0, 3).map(...)` */
  function FaqEntries(given: seq<Value>): (r: Option<seq<Faq>>)
    ensures r.None? <==> exists i :: 0 <= i < |given| && i < FaqSlots && FaqEntry(given[i]).None?
    ensures r.Some? ==> |r.value| == (if |given| < FaqSlots then |given| else FaqSlots)
    ensures r.Some? ==> forall i :: 0 <= i < |r.value| ==> Some(r.value[i]) == FaqEntry(given[i])
  {
    var head := if |given| <= FaqSlots then given else given[..FaqSlots];
    var mapped := seq(|head|, i requires 0 <= i < |head| => FaqEntry(head[i]));
    var r := Collect(mapped);
    assert forall i :: 0 <= i < |head| ==> head[i] == given[i] && mapped[i] == FaqEntry(given[i]);
    assert r.None? ==> exists i :: 0 <= i < |given| && i < FaqSlots && FaqEntry(given[i]).None? by {
      if r.None? {
        var i :| 0 <= i < |mapped| && mapped[i].None?;
        assert FaqEntry(given[i]).None?;
      }
    }
    r
  }

  /** At most three FAQs from the product, or the defaults; `None` when an entry is missing. */
  function InitialFaqs(product: Value): (r: Option<seq<Faq>>)
    ensures r.Some? ==> |r.value| <= FaqSlots
    ensures !ListGiven(Get(product, "landingFaqs")) ==> r == Some(DefaultFaqs())
    ensures ListGiven(Get(product, "landingFaqs")) ==> var given := Get(product, "landingFaqs").elems;
      (r.None? <==> exists i :: 0 <= i < |given| && i < FaqSlots && Nullish(given[i])) &&
      (r.Some? ==> (|r.value| == (if |given| < FaqSlots then |given| else FaqSlots) &&
        forall i :: 0 <= i < |r.value| ==> Some(r.value[i]) == FaqEntry(given[i])))
  {
    var given := Get(product, "landingFaqs");
    if ListGiven(given) then FaqEntries(given.elems) else Some(DefaultFaqs())
  }

  /** `(li && li.trim() !== '') ? li : DEFAULT_INSIDE`; throws on a text that is not a string. */
  function InitialInside(product: Value): (r: Option<Value>)
    ensures r.None? <==> Truthy(Get(product, "landingInside")) && !Get(product, "landingInside").Str?
    ensures r.Some? ==> r.value == Get(product, "landingInside") || r.value == Str(DefaultInside)
    ensures NonBlankText(Get(product, "landingInside")) ==> r == Some(Get(product, "landingInside"))
  {
    var li := Get(product, "landingInside");
    if !Truthy(li) then Some(Str(DefaultInside))
    else if !li.Str? then None
    else if Trim(li.s) != "" then Some(li)
    else Some(Str(DefaultInside))
  }

  /** `String(v ?? '')` */
  function TextOf(v: Value): Value { Str(ToStr(Coalesce(v, Str("")))) }

  /** The form the page fills from a product; `None` when building it throws. */
  function InitialForm(product: Value): (r: Option<Form>)
    ensures r.Some? <==> InitialInside(product).Some? && InitialFaqs(product).Some?
    ensures r.Some? ==> r.value.images == Padded(InitialImages(product))
    ensures r.Some? ==> r.value.steps == InitialSteps(product) && r.value.faqs == InitialFaqs(product).value
    ensures r.Some? ==> r.value.price.Str? && r.value.originalPrice.Str? && r.value.stock.Str?
    ensures r.Some? ==> (r.value.isBestSeller <==> Get(product, "isBestSeller") == Bool(true))
    ensures r.Some? ==> r.value.name == Or(Get(product, "name"), Str("")) && r.value.brand == Or(Get(product, "brand"), Str(""))
    ensures r.Some? ==> r.value.description == Or(Get(product, "description"), Str(""))
    ensures r.Some? ==> r.value.mainImage == Or(Get(product, "mainImage"), Str(""))
    ensures r.Some? ==> r.value.price == TextOf(Get(product, "price")) && r.value.originalPrice == TextOf(Get(product, "originalPrice"))
    ensures r.Some? ==> r.value.stock == TextOf(Get(product, "stock")) && r.value.inside == InitialInside(product).value
  {
    match (InitialInside(product), InitialFaqs(product))
    case (Some(inside), Some(faqs)) =>
      Some(Form(
        Or(Get(product, "name"), Str("")), Or(Get(product, "brand"), Str("")),
        Or(Get(product, "description"), Str("")), Or(Get(product, "mainImage"), Str("")),
        TextOf(Get(product, "price")), TextOf(Get(product, "originalPrice")), TextOf(Get(product, "stock")),
        Padded(InitialImages(product)), Get(product, "isBestSeller") == Bool(true),
        InitialSteps(product), inside, faqs))
    case _ => None
  }

  // ---------------------------------------------------------------- validation

  /** The required-text checks, in the page's order; `trim` on a non-string throws. */
  function TextVerdict(f: Form): (r: Verdict)
    ensures r == Passes <==>
      NonBlankText(f.name) && NonBlankText(f.brand) && NonBlankText(f.description) && NonBlankText(f.mainImage)
  {
    if !f.name.Str? then Throws
    else if Trim(f.name.s) == "" then Fails("Name is required")
    else if !f.brand.Str? then Throws
    else if Trim(f.brand.s) == "" then Fails("Brand is required")
    else if !f.description.Str? then Throws
    else if Trim(f.description.s) == "" then Fails("Description is required")
    else if !f.mainImage.Str? then Throws
    else if Trim(f.mainImage.s) == "" then Fails("Main image URL is required")
    else Passes
  }

  /** The number checks, in the page's order. */
  function NumberVerdict(f: Form): (r: Verdict)
    ensures r == Passes <==> (Truthy(f.price) && !ParseFloat(f.price).NaN? &&
      Truthy(f.originalPrice) && !ParseFloat(f.originalPrice).NaN? && Truthy(f.stock) && !ParseInt(f.stock).NaN?)
  {
    if !Truthy(f.price) || ParseFloat(f.price).NaN? then Fails("Valid price required")
    else if !Truthy(f.originalPrice) || ParseFloat(f.originalPrice).NaN? then Fails("Valid original price required")
    else if !Truthy(f.stock) || ParseInt(f.stock).NaN? then Fails("Valid stock required")
    else Passes
  }

  /** The checks before the image loop, in the page's order. */
  function FieldsVerdict(f: Form): Verdict {
    if TextVerdict(f) != Passes then TextVerdict(f)
    else if NumberVerdict(f) != Passes then NumberVerdict(f)
    else if !StartsWith(f.mainImage.s, "http") then Fails("Main image must start with http/https")
    else Passes
  }

  /** An image slot is acceptable when empty or a URL starting with 'http'. */
  predicate ImageOk(url: Value) { !Truthy(url) || (url.Str? && StartsWith(url.s, "http")) }

  /** The message for image slot `i`, counted from one. */
  function ImageMessage(i: nat): string { "Image " + NatToDecimal(i + 1) + " must start with http/https" }

  /** The image loop from slot `from` on: the first bad slot decides. */
  function ImagesVerdict(images: seq<Value>, from: nat): (r: Verdict)
    requires from <= |images|
    ensures r == Passes <==> forall i :: from <= i < |images| ==> ImageOk(images[i])
    ensures r.Fails? ==> exists i :: (from <= i < |images| && r == Fails(ImageMessage(i)) &&
      images[i].Str? && !ImageOk(images[i]) && forall j :: from <= j < i ==> ImageOk(images[j]))
    ensures r == Throws ==> exists i :: (from <= i < |images| && Truthy(images[i]) && !images[i].Str? &&
      forall j :: from <= j < i ==> ImageOk(images[j]))
    decreases |images| - from
  {
    if from == |images| then Passes
    else
      var url := images[from];
      if Truthy(url) && !url.Str? then Throws
      else if Truthy(url) && !StartsWith(url.s, "http") then Fails(ImageMessage(from))
      else ImagesVerdict(images, from + 1)
  }

  /** `validate()` */
  function EditVerdict(f: Form): Verdict {
    if FieldsVerdict(f) != Passes then FieldsVerdict(f) else ImagesVerdict(f.images, 0)
  }

  predicate FieldsOk(f: Form) {
    NonBlankText(f.name) && NonBlankText(f.brand) && NonBlankText(f.description) && NonBlankText(f.mainImage) &&
    Truthy(f.price) && !ParseFloat(f.price).NaN? &&
    Truthy(f.originalPrice) && !ParseFloat(f.originalPrice).NaN? &&
    Truthy(f.stock) && !ParseInt(f.stock).NaN? &&
    StartsWith(f.mainImage.s, "http")
  }

  lemma FieldsPassIff(f: Form)
    ensures FieldsVerdict(f) == Passes <==> FieldsOk(f)
  {
  }

  /** The form passes exactly when every check passes. */
  lemma EditPassesIff(f: Form)
    ensures EditVerdict(f) == Passes <==>
      FieldsOk(f) && forall i :: 0 <= i < |f.images| ==> ImageOk(f.images[i])
  {
    FieldsPassIff(f);
  }

  /** A passing form has only string images, so filtering them cannot throw. */
  lemma PassingImagesAreText(f: Form)
    requires EditVerdict(f) == Passes
    ensures EditKeptImages(f.images).Some?
  {
  }

  /** `images.filter(img => img && img.trim() !== '')`: throws on a set slot that is not a string. */
  function EditKeptImages(images: seq<Value>): (r: Option<seq<Value>>)
    ensures r.None? <==> exists i :: 0 <= i < |images| && Truthy(images[i]) && !images[i].Str?
    ensures r.Some? ==> Subseq(r.value, images) && (forall x :: x in r.value <==> x in images && NonBlankText(x))
    ensures r.Some? ==> forall x :: multiset(r.value)[x] == if NonBlankText(x) then multiset(images)[x] else 0
  {
    if exists i :: 0 <= i < |images| && Truthy(images[i]) && !images[i].Str? then None
    else
      FilterCounts(images, NonBlankText);
      Some(Filter(images, NonBlankText))
  }

  /** The update data for a form; `None` when building it throws. */
  function UpdateData(f: Form): (r: Option<Saved>)
    ensures r.Some? ==> EditKeptImages(f.images).Some? && r.value.images == EditKeptImages(f.images).value
    ensures r.Some? <==> EditKeptImages(f.images).Some? && SavedData(f, EditKeptImages(f.images).value).Some?
  {
    match EditKeptImages(f.images)
    case None => None
    case Some(images) => SavedData(f, images)
  }

  /** What a submit shows, and the product documents after it. */
  function SubmitOutcome(f: Form, id: Value, docs: seq<Doc>, now: Value): (Notice, seq<Doc>) {
    match EditVerdict(f)
    case Fails(m) => (Invalid(m), docs)
    case Throws => (Clear, docs)
    case Passes =>
      match UpdateData(f)
      case None => (Failed, docs)
      case Some(d) =>
        if id.Str? && HasId(docs, id.s) then (Done("Product updated successfully"), Updated(docs, id.s, Fields(d, now)))
        else (Failed, docs)
  }

  /**
   * A submit writes only a form that passes validation, writes exactly the
   * update data into the product's own document, and reports success exactly then.
   */
  lemma SubmitWritesOnlyValidForms(f: Form, id: Value, docs: seq<Doc>, now: Value)
    ensures var (notice, after) := SubmitOutcome(f, id, docs, now);
      (after != docs ==> EditVerdict(f) == Passes && UpdateData(f).Some?) &&
      (notice.Done? <==> EditVerdict(f) == Passes && UpdateData(f).Some? && id.Str? && HasId(docs, id.s)) &&
      (notice.Done? ==> after == Updated(docs, id.s, Fields(UpdateData(f).value, now))) &&
      (EditVerdict(f).Fails? ==> notice == Invalid(EditVerdict(f).message))
  {
  }

  // ---------------------------------------------------------------- the page

  class Editor {
    /** The product being edited (its `id` names the document). */
    const product: Value
    var form: Form
    var notice: Notice

    constructor(product: Value)
      ensures this.product == product && form == EmptyForm() && notice == Clear
    {
      this.product := product;
      form := EmptyForm();
      notice := Clear;
    }

    /** The effect that fills the form when a product is given; a throw leaves the form as it was. */
    method Load()
      modifies this
      ensures notice == old(notice)
      ensures Truthy(product) && InitialForm(product).Some? ==> form == InitialForm(product).value
      ensures !Truthy(product) || InitialForm(product).None? ==> form == old(form)
    {
      if !Truthy(product) {
        return;
      }
      var inside := InitialInside(product);
      var faqs := InitialFaqs(product);
      if inside.None? || faqs.None? {
        return;
      }
      var imgs := InitialImages(product);
      var padded := imgs;
      while |padded| < ImageSlots
        invariant |imgs| <= |padded| <= (if |imgs| < ImageSlots then ImageSlots else |imgs|)
        invariant padded[..|imgs|] == imgs
        invariant forall i :: |imgs| <= i < |padded| ==> padded[i] == Str("")
        decreases ImageSlots - |padded|
      {
        padded := padded + [Str("")];
      }
      assert padded == Padded(imgs);
      form := Form(
        Or(Get(product, "name"), Str("")), Or(Get(product, "brand"), Str("")),
        Or(Get(product, "description"), Str("")), Or(Get(product, "mainImage"), Str("")),
        TextOf(Get(product, "price")), TextOf(Get(product, "originalPrice")), TextOf(Get(product, "stock")),
        padded, Get(product, "isBestSeller") == Bool(true),
        InitialSteps(product), inside.value, faqs.value);
      assert InitialForm(product) == Some(form);
    }

    /** `handleImageChange(index, value)` */
    method ImageChange(index: nat, value: string)
      requires index < |form.images|
      modifies this
      ensures form == old(form).(images := ImageReplaced(old(form).images, index, Str(value)))
      ensures notice == old(notice)
    {
      form := form.(images := ImageReplaced(form.images, index, Str(value)));
    }

    /** `validate()`: the field checks, then the loop over the image slots. */
    method Validate() returns (v: Verdict)
      ensures v == EditVerdict(form)
    {
      v := FieldsVerdict(form);
      if v != Passes {
        return;
      }
      var i := 0;
      while i < |form.images|
        invariant 0 <= i <= |form.images|
        invariant ImagesVerdict(form.images, i) == ImagesVerdict(form.images, 0)
      {
        var url := form.images[i];
        if Truthy(url) && !url.Str? {
          return Throws;
        }
        if Truthy(url) && !StartsWith(url.s, "http") {
          return Fails(ImageMessage(i));
        }
        i := i + 1;
      }
    }

    /**
     * `handleSubmit`: a failing check shows its message and writes nothing; a
     * passing form is written over the product's document, with `now` standing
     * for the server timestamp.
     */
    method Submit(products: Collection, now: Value)
      requires products.Valid()
      modifies this, products
      ensures products.Valid() && form == old(form)
      ensures (notice, products.docs) == SubmitOutcome(form, Get(product, "id"), old(products.docs), now)
    {
      notice := Clear;
      var v := Validate();
      if v.Fails? {
        notice := Invalid(v.message);
        return;
      }
      if v == Throws {
        return;
      }
      var data := UpdateData(form);
      var id := Get(product, "id");
      if data.None? || !id.Str? {
        notice := Failed;
        return;
      }
      var ok := products.Update(id.s, Fields(data.value, now));
      notice := if ok then Done("Product updated successfully") else Failed;
    }
  }
}
