/**
 * The product creation page (src/components/CreateProduct.jsx): image slot edits,
 * the URL check on leaving a slot, the validation and the product written.
 */
module CreateProduct {
  import opened Wrappers
  import opened JsValue
  import opened Text
  import opened Seqs
  import opened Firestore
  import opened ProductForm

  /** `!formData.price || parseFloat(formData.price) <= 0`: an unreadable number is let through. */
  predicate BadPositive(v: Value) {
    !Truthy(v) || (ParseFloat(v).Num? && ParseFloat(v).n <= 0.0)
  }

  /** A stock that is unset, or that reads as a negative integer. */
  predicate BadStock(v: Value) {
    !Truthy(v) || (ParseInt(v).Num? && ParseInt(v).n < 0.0)
  }

  /** The required-text checks, in the page's order; `trim` on a non-string throws. */
  function TextVerdict(f: Form): (r: Verdict)
    ensures r == Passes <==>
      NonBlankText(f.name) && NonBlankText(f.brand) && NonBlankText(f.description) && NonBlankText(f.mainImage)
  {
    if !f.name.Str? then Throws
    else if Trim(f.name.s) == "" then Fails("Product name is required")
    else if !f.brand.Str? then Throws
    else if Trim(f.brand.s) == "" then Fails("Brand is required")
    else if !f.description.Str? then Throws
    else if Trim(f.description.s) == "" then Fails("Description is required")
    else if !f.mainImage.Str? then Throws
    else if Trim(f.mainImage.s) == "" then Fails("Main image URL is required")
    else Passes
  }

  /** The number checks, in the page's order. */
  function NumberVerdict(f: Form): (r: Verdict)
    ensures r == Passes <==> !BadPositive(f.price) && !BadPositive(f.originalPrice) && !BadStock(f.stock)
  {
    if BadPositive(f.price) then Fails("Valid price is required")
    else if BadPositive(f.originalPrice) then Fails("Valid original price is required")
    else if BadStock(f.stock) then Fails("Valid stock quantity is required")
    else Passes
  }

  /** The checks before the image loop, in the page's order. */
  function FieldsVerdict(f: Form): Verdict {
    if TextVerdict(f) != Passes then TextVerdict(f)
    else if !StartsWith(f.mainImage.s, "http") then Fails("Main image must be a valid URL")
    else NumberVerdict(f)
  }

  predicate FieldsOk(f: Form) {
    NonBlankText(f.name) && NonBlankText(f.brand) && NonBlankText(f.description) && NonBlankText(f.mainImage) &&
    StartsWith(f.mainImage.s, "http") &&
    !BadPositive(f.price) && !BadPositive(f.originalPrice) && !BadStock(f.stock)
  }

  lemma FieldsPassIff(f: Form)
    ensures FieldsVerdict(f) == Passes <==> FieldsOk(f)
  {
  }

  const ImagesMessage: string := "All image URLs must be valid and start with http:// or https://"

  /** `images.filter(img => img.trim())`: throws on a slot that is not a string. */
  function CreateKeptImages(images: seq<Value>): (r: Option<seq<Value>>)
    ensures r.None? <==> exists i :: 0 <= i < |images| && !images[i].Str?
    ensures r.Some? ==> Subseq(r.value, images) && (forall x :: x in r.value <==> x in images && NonBlankText(x))
    ensures r.Some? ==> forall x :: multiset(r.value)[x] == if NonBlankText(x) then multiset(images)[x] else 0
  {
    if exists i :: 0 <= i < |images| && !images[i].Str? then None
    else
      FilterCounts(images, NonBlankText);
      Some(Filter(images, NonBlankText))
  }

  /** Every kept image starts with 'http'. */
  predicate AllHttp(kept: seq<Value>) {
    forall i :: 0 <= i < |kept| ==> kept[i].Str? && StartsWith(kept[i].s, "http")
  }

  /** The image loop: every set slot must start with 'http'; a slot that is not a string throws. */
  function ImagesVerdict(images: seq<Value>): (r: Verdict)
    ensures r == Throws <==> exists i :: 0 <= i < |images| && !images[i].Str?
    ensures r == Passes <==> ((forall i :: 0 <= i < |images| ==> images[i].Str?) &&
      forall i :: 0 <= i < |images| && NonBlankText(images[i]) ==> StartsWith(images[i].s, "http"))
    ensures r.Fails? ==> r.message == ImagesMessage
  {
    match CreateKeptImages(images)
    case None => Throws
    case Some(kept) =>
      KeptAllHttp(images);
      KeptVerdict(kept)
  }

  /** The kept images all start with 'http' exactly when every non-blank slot does. */
  lemma KeptAllHttp(images: seq<Value>)
    requires forall i :: 0 <= i < |images| ==> images[i].Str?
    ensures AllHttp(Filter(images, NonBlankText)) <==>
      forall i :: 0 <= i < |images| && NonBlankText(images[i]) ==> StartsWith(images[i].s, "http")
  {
    var kept := Filter(images, NonBlankText);
    if AllHttp(kept) {
      forall i | 0 <= i < |images| && NonBlankText(images[i])
        ensures StartsWith(images[i].s, "http")
      {
        assert images[i] in kept;
        var j :| 0 <= j < |kept| && kept[j] == images[i];
      }
    }
    if forall i :: 0 <= i < |images| && NonBlankText(images[i]) ==> StartsWith(images[i].s, "http") {
      forall j | 0 <= j < |kept|
        ensures kept[j].Str? && StartsWith(kept[j].s, "http")
      {
        assert kept[j] in kept;
        var i :| 0 <= i < |images| && images[i] == kept[j];
      }
    }
  }

  /** The loop's verdict on the non-empty slots. */
  function KeptVerdict(kept: seq<Value>): (r: Verdict)
    ensures r == Passes <==> AllHttp(kept)
    ensures r != Throws
  {
    if AllHttp(kept) then Passes else Fails(ImagesMessage)
  }

  /** `validateForm()`; `Passes` stands for the empty message. */
  function CreateVerdict(f: Form): (r: Verdict)
    ensures r == Passes <==> FieldsOk(f) && ImagesVerdict(f.images) == Passes
    ensures r.Fails? && FieldsOk(f) ==> r.message == ImagesMessage
  {
    FieldsPassIff(f);
    if FieldsVerdict(f) != Passes then FieldsVerdict(f) else ImagesVerdict(f.images)
  }

  /** The fields written for a new product, with both timestamps the server's time. */
  function CreateFields(s: Saved, now: Value): (r: map<string, Value>)
    ensures r.Keys == Fields(s, now).Keys + {"createdAt"}
    ensures r["createdAt"] == now && r["updatedAt"] == now
    ensures forall k :: k in Fields(s, now) ==> r[k] == Fields(s, now)[k]
  {
    Fields(s, now)["createdAt" := now]
  }

  /** The product data for a form; `None` when building it throws. */
  function ProductData(f: Form): (r: Option<Saved>)
    ensures r.Some? ==> CreateKeptImages(f.images).Some? && r.value.images == CreateKeptImages(f.images).value
    ensures r.Some? <==> CreateKeptImages(f.images).Some? && SavedData(f, CreateKeptImages(f.images).value).Some?
  {
    match CreateKeptImages(f.images)
    case None => None
    case Some(images) => SavedData(f, images)
  }

  /** The message for an image slot whose URL does not start with 'http' (slots are numbered from one). */
  function BlurMessage(index: nat): string {
    "Image URL " + NatToDecimal(index + 1) + " must start with http:// or https://"
  }

  const FailurePrefix: string := "Failed to create product: "
  const CreatedPrefix: string := "Product created successfully! ID: "

  /** The product page's two message slots, `error` and `success`, and the product documents. */
  datatype Shown = Shown(error: string, success: string, docs: seq<Doc>)

  /**
   * What a submit shows, and the product documents after it, for a fresh document id.
   * `reason` stands for the message of the error thrown while building the product data.
   */
  function SubmitOutcome(f: Form, newId: string, docs: seq<Doc>, now: Value, reason: string): Shown {
    Outcome(CreateVerdict(f), ProductData(f), newId, docs, now, reason)
  }

  /** The outcome for a verdict and, after a passing one, the product data as built (`None` when building throws). */
  function Outcome(v: Verdict, data: Option<Saved>, newId: string, docs: seq<Doc>, now: Value, reason: string): Shown {
    match v
    case Fails(m) => Shown(m, "", docs)
    case Throws => Shown("", "", docs)
    case Passes =>
      match data
      case None => Shown(FailurePrefix + reason, "", docs)
      case Some(d) => Shown("", CreatedPrefix + newId, docs + [Doc(newId, CreateFields(d, now))])
  }

  /** The outcome does not look at the product data unless the form passes. */
  lemma OutcomeOfForm(f: Form, v: Verdict, data: Option<Saved>, newId: string, docs: seq<Doc>, now: Value, reason: string)
    requires v == CreateVerdict(f) && (v == Passes ==> data == ProductData(f))
    ensures Outcome(v, data, newId, docs, now, reason) == SubmitOutcome(f, newId, docs, now, reason)
  {
  }

  /**
   * A submit adds one document exactly when the form passes, and that document is the product data;
   * both messages are reset first, so a validation failure shows only its own message.
   */
  lemma SubmitAddsOnlyValidForms(f: Form, newId: string, docs: seq<Doc>, now: Value, reason: string)
    ensures var o := SubmitOutcome(f, newId, docs, now, reason);
      (o.docs != docs <==> CreateVerdict(f) == Passes && ProductData(f).Some?) &&
      (o.docs != docs ==> o.docs == docs + [Doc(newId, CreateFields(ProductData(f).value, now))] &&
                          o.error == "" && o.success != "") &&
      (o.docs == docs ==> o.success == "") &&
      (CreateVerdict(f).Fails? ==> o.error == CreateVerdict(f).message)
  {
    var o := SubmitOutcome(f, newId, docs, now, reason);
    if CreateVerdict(f) == Passes && ProductData(f).Some? {
      assert |o.docs| == |docs| + 1;
    }
  }

  /** The `for...of` loop of `validateForm` over the non-empty slots. */
  method CheckKept(nonEmpty: seq<Value>) returns (v: Verdict)
    ensures v == KeptVerdict(nonEmpty)
  {
    var i := 0;
    while i < |nonEmpty|
      invariant 0 <= i <= |nonEmpty|
      invariant forall j :: 0 <= j < i ==> nonEmpty[j].Str? && StartsWith(nonEmpty[j].s, "http")
    {
      if !nonEmpty[i].Str? || !StartsWith(nonEmpty[i].s, "http") {
        return Fails(ImagesMessage);
      }
      i := i + 1;
    }
    return Passes;
  }

  /** `validateForm()` on the page's form: the field checks, then the loop over the non-empty slots. */
  method Validate(f: Form) returns (v: Verdict)
    ensures v == CreateVerdict(f)
  {
    v := FieldsVerdict(f);
    if v == Passes {
      var kept := CreateKeptImages(f.images);
      if kept.None? {
        v := Throws;
      } else {
        v := CheckKept(kept.value);
      }
    }
  }

  class Creator {
    var form: Form
    /** The page's one error message, written by the blur check and by a submit. */
    var error: string
    var success: string

    /** Every image slot holds a string, and there are seven. */
    ghost predicate Valid()
      reads this
    {
      |form.images| == ImageSlots && forall i :: 0 <= i < |form.images| ==> form.images[i].Str?
    }

    constructor()
      ensures Valid() && form == EmptyForm() && error == "" && success == ""
    {
      form := EmptyForm();
      error := "";
      success := "";
    }

    /** `handleImageChange(index, value)` */
    method ImageChange(index: nat, value: string)
      requires Valid() && index < |form.images|
      modifies this`form
      ensures Valid()
      ensures form == old(form).(images := ImageReplaced(old(form).images, index, Str(value)))
    {
      form := form.(images := ImageReplaced(form.images, index, Str(value)));
    }

    /** `removeImage(index)`: the slot becomes empty, the others stay. */
    method RemoveImage(index: nat)
      requires Valid() && index < |form.images|
      modifies this`form
      ensures Valid()
      ensures form == old(form).(images := ImageReplaced(old(form).images, index, Str("")))
    {
      form := form.(images := ImageReplaced(form.images, index, Str("")));
    }

    /**
     * `handleImageBlur(index)`: the page's error becomes the slot's message when the slot is set
     * and does not start with 'http', and is cleared otherwise, whatever it showed before.
     */
    method ImageBlur(index: nat)
      requires Valid() && index < |form.images|
      modifies this`error
      ensures var url := form.images[index].s;
        (url != "" && !StartsWith(url, "http") ==> error == BlurMessage(index)) &&
        (url == "" || StartsWith(url, "http") ==> error == "")
    {
      var url := form.images[index];
      if Truthy(url) && !StartsWith(url.s, "http") {
        error := BlurMessage(index);
      } else {
        error := "";
      }
    }

    /**
     * `handleSubmit`, with `newId` the id the store assigns, `now` the server time and `reason`
     * the message of an error thrown while building the product data. Both messages are cleared
     * before the checks, so a blur message or an earlier outcome does not survive a submit.
     */
    method Submit(products: Collection, newId: string, now: Value, reason: string)
      requires products.Valid() && !products.Has(newId)
      modifies this`error, this`success, products
      ensures products.Valid()
      ensures Shown(error, success, products.docs) == SubmitOutcome(old(form), newId, old(products.docs), now, reason)
    {
      var f := form;
      var v := Validate(f);
      var data := if v == Passes then ProductData(f) else None;
      OutcomeOfForm(f, v, data, newId, products.docs, now, reason);
      Finish(v, data, products, newId, now, reason);
    }

    /**
     * `handleSubmit` once the verdict is known: both messages are reset, then the validation
     * message is shown, or the product data is written. `validateForm` reads neither message,
     * so resetting them after it shows the same as resetting them before.
     */
    method Finish(v: Verdict, data: Option<Saved>, products: Collection, newId: string, now: Value, reason: string)
      requires products.Valid() && !products.Has(newId)
      modifies this`error, this`success, products
      ensures products.Valid()
      ensures Shown(error, success, products.docs) == Outcome(v, data, newId, old(products.docs), now, reason)
    {
      error, success := "", "";
      if v.Fails? {
        error := v.message;
        return;
      }
      if v == Throws {
        return;
      }
      if data.None? {
        error := FailurePrefix + reason;
        return;
      }
      products.Add(newId, CreateFields(data.value, now));
      success := CreatedPrefix + newId;
    }

    /** The reset after a successful create: seven empty slots, four empty steps, three empty FAQs. */
    method Reset()
      modifies this`form
      ensures Valid() && form == EmptyForm()
    {
      form := EmptyForm();
    }
  }
}
