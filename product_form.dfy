/**
 * The admin product form shared by the create page (src/components/CreateProduct.jsx)
 * and the edit page (src/components/EditProduct.jsx): its fields, the empty form,
 * and how the landing steps and FAQs are cleaned before they are saved.
 */
module ProductForm {
  import opened Wrappers
  import opened JsValue
  import opened Text
  import opened Seqs

  /** One FAQ entry as the form holds it. */
  datatype Faq = Faq(question: Value, answer: Value)

  /**
   * The form state. Text fields hold whatever was put there: input events put
   * strings, and the edit page copies the product's own values, which may not be.
   */
  datatype Form = Form(
    name: Value, brand: Value, description: Value, mainImage: Value,
    price: Value, originalPrice: Value, stock: Value,
    images: seq<Value>, isBestSeller: bool,
    steps: seq<Value>, inside: Value, faqs: seq<Faq>)

  const ImageSlots: nat := 7
  const StepSlots: nat := 4
  const FaqSlots: nat := 3

  /** `n` empty strings. */
  function Blanks(n: nat): (r: seq<Value>)
    ensures |r| == n && forall i :: 0 <= i < n ==> r[i] == Str("")
  {
    seq(n, _ => Str(""))
  }

  const EmptyFaq: Faq := Faq(Str(""), Str(""))

  /** The form both pages start from, and the create page returns to after a save. */
  function EmptyForm(): (f: Form)
    ensures |f.images| == ImageSlots && forall i :: 0 <= i < ImageSlots ==> f.images[i] == Str("")
    ensures |f.steps| == StepSlots && forall i :: 0 <= i < StepSlots ==> f.steps[i] == Str("")
    ensures |f.faqs| == FaqSlots && forall i :: 0 <= i < FaqSlots ==> f.faqs[i] == EmptyFaq
    ensures f.name == f.brand == f.description == f.mainImage == Str("")
    ensures f.price == f.originalPrice == f.stock == f.inside == Str("")
    ensures !f.isBestSeller
  {
    Form(Str(""), Str(""), Str(""), Str(""), Str(""), Str(""), Str(""),
         Blanks(ImageSlots), false, Blanks(StepSlots), Str(""), [EmptyFaq, EmptyFaq, EmptyFaq])
  }

  /** `images[index] = value` on a copy. */
  function ImageReplaced(images: seq<Value>, index: nat, value: Value): (r: seq<Value>)
    requires index < |images|
    ensures |r| == |images| && r[index] == value
    ensures forall i :: 0 <= i < |images| && i != index ==> r[i] == images[i]
  {
    images[index := value]
  }

  // ---------------------------------------------------------------- cleaning

  /** `v.trim()`: throws (`None`) on anything but a string. */
  function Trimmed(v: Value): (r: Option<string>)
    ensures r.Some? <==> v.Str?
    ensures v.Str? ==> r == Some(Trim(v.s))
  {
    if v.Str? then Some(Trim(v.s)) else None
  }

  /** `(v || '').trim()` */
  function TrimmedOrEmpty(v: Value): (r: Option<string>)
    ensures !Truthy(v) ==> r == Some("")
    ensures v.Str? ==> r == Some(Trim(v.s))
    ensures r.None? <==> Truthy(v) && !v.Str?
  {
    if Truthy(v) then Trimmed(v) else Some("")
  }

  /** A string whose trimmed text is not empty. */
  predicate NonBlankText(v: Value) { v.Str? && Trim(v.s) != "" }

  predicate NonEmpty(s: string) { s != "" }

  /** The how-to steps, trimmed, with empty ones dropped. */
  function SavedSteps(steps: seq<Value>): (r: Option<seq<string>>)
    ensures r.None? <==> exists i :: 0 <= i < |steps| && Truthy(steps[i]) && !steps[i].Str?
    ensures r.Some? ==> forall t :: t in r.value <==> t != "" && exists i :: 0 <= i < |steps| && TrimmedOrEmpty(steps[i]) == Some(t)
    ensures r.Some? ==> |r.value| <= |steps|
    ensures r.Some? ==> Subseq(r.value, Values(steps, TrimmedOrEmpty))
    ensures r.Some? ==> forall t :: multiset(r.value)[t] == if t != "" then multiset(Values(steps, TrimmedOrEmpty))[t] else 0
  {
    MapFilter(steps, TrimmedOrEmpty, NonEmpty)
  }

  /** A FAQ entry cleaned for saving: both sides `(x || '').trim()`. */
  function SavedFaq(f: Faq): (r: Option<(string, string)>)
    ensures r.Some? <==> TrimmedOrEmpty(f.question).Some? && TrimmedOrEmpty(f.answer).Some?
    ensures r.Some? ==> r.value == (TrimmedOrEmpty(f.question).value, TrimmedOrEmpty(f.answer).value)
  {
    match (TrimmedOrEmpty(f.question), TrimmedOrEmpty(f.answer))
    case (Some(q), Some(a)) => Some((q, a))
    case _ => None
  }

  predicate NotBothEmpty(qa: (string, string)) { qa.0 != "" || qa.1 != "" }

  /** The cleaned FAQs, without the entries whose question and answer are both empty. */
  function SavedFaqs(faqs: seq<Faq>): (r: Option<seq<(string, string)>>)
    ensures r.None? <==> exists i :: 0 <= i < |faqs| && SavedFaq(faqs[i]).None?
    ensures r.Some? ==> forall qa :: qa in r.value <==> NotBothEmpty(qa) && exists i :: 0 <= i < |faqs| && SavedFaq(faqs[i]) == Some(qa)
    ensures r.Some? ==> |r.value| <= |faqs|
    ensures r.Some? ==> Subseq(r.value, Values(faqs, SavedFaq))
    ensures r.Some? ==> forall qa :: multiset(r.value)[qa] == if NotBothEmpty(qa) then multiset(Values(faqs, SavedFaq))[qa] else 0
  {
    MapFilter(faqs, SavedFaq, NotBothEmpty)
  }

  /** The fields both pages save, once every text has been read. */
  datatype Saved = Saved(
    name: string, brand: string, description: string, mainImage: string,
    price: Value, originalPrice: Value, stock: Value, images: seq<Value>,
    isBestSeller: bool, steps: seq<string>, inside: string, faqs: seq<(string, string)>)

  /**
   * The saved product data for a form whose kept images are `images`; `None`
   * when reading a text field throws.
   */
  function SavedData(f: Form, images: seq<Value>): (r: Option<Saved>)
    ensures r.Some? <==> (f.name.Str? && f.brand.Str? && f.description.Str? && f.mainImage.Str? &&
      TrimmedOrEmpty(f.inside).Some? && SavedSteps(f.steps).Some? && SavedFaqs(f.faqs).Some?)
    ensures r.Some? ==> r.value.name == Trim(f.name.s) && r.value.mainImage == Trim(f.mainImage.s)
    ensures r.Some? ==> r.value.price == ParseFloat(f.price) && r.value.originalPrice == ParseFloat(f.originalPrice)
    ensures r.Some? ==> r.value.stock == ParseInt(f.stock) && r.value.images == images
    ensures r.Some? ==> r.value.steps == SavedSteps(f.steps).value && r.value.faqs == SavedFaqs(f.faqs).value
  {
    match (Trimmed(f.name), Trimmed(f.brand), Trimmed(f.description), Trimmed(f.mainImage))
    case (Some(name), Some(brand), Some(description), Some(mainImage)) =>
      (match (TrimmedOrEmpty(f.inside), SavedSteps(f.steps), SavedFaqs(f.faqs))
       case (Some(inside), Some(steps), Some(faqs)) =>
         Some(Saved(name, brand, description, mainImage, ParseFloat(f.price), ParseFloat(f.originalPrice),
                    ParseInt(f.stock), images, f.isBestSeller, steps, inside, faqs))
       case _ => None)
    case _ => None
  }

  function StrList(ss: seq<string>): (r: Value)
    ensures r.Arr? && |r.elems| == |ss| && forall i :: 0 <= i < |ss| ==> r.elems[i] == Str(ss[i])
  {
    Arr(seq(|ss|, i requires 0 <= i < |ss| => Str(ss[i])))
  }

  function FaqList(qs: seq<(string, string)>): (r: Value)
    ensures r.Arr? && |r.elems| == |qs|
    ensures forall i :: 0 <= i < |qs| ==> r.elems[i] == Obj(map["question" := Str(qs[i].0), "answer" := Str(qs[i].1)])
  {
    Arr(seq(|qs|, i requires 0 <= i < |qs| => Obj(map["question" := Str(qs[i].0), "answer" := Str(qs[i].1)])))
  }

  /** The document fields written for the saved data, with `updatedAt` the server's time. */
  function Fields(s: Saved, now: Value): (r: map<string, Value>)
    ensures r.Keys == {"name", "brand", "description", "mainImage", "price", "originalPrice", "stock",
                       "images", "isBestSeller", "landingHowSteps", "landingInside", "landingFaqs", "updatedAt"}
    ensures r["images"] == Arr(s.images) && r["updatedAt"] == now && r["name"] == Str(s.name)
  {
    map["name" := Str(s.name), "brand" := Str(s.brand), "description" := Str(s.description),
        "mainImage" := Str(s.mainImage), "price" := s.price, "originalPrice" := s.originalPrice,
        "stock" := s.stock, "images" := Arr(s.images), "isBestSeller" := Bool(s.isBestSeller),
        "landingHowSteps" := StrList(s.steps), "landingInside" := Str(s.inside),
        "landingFaqs" := FaqList(s.faqs), "updatedAt" := now]
  }

  /** What the page shows after a submit. */
  datatype Notice =
    | Clear
    | Invalid(text: string)          // a validation message
    | Failed                         // the caught error's message, or the page's fallback text
    | Done(text: string)             // the success message

  /** The outcome of a validation: all checks pass, the first failing message, or a TypeError. */
  datatype Verdict = Passes | Fails(message: string) | Throws
}
