/** The product form both product modals edit: its fields, the per-field
    change handler with its error clearing, the six validation rules, and the
    record a valid form is sent as. */
module ProductForm {
  import opened Base
  import opened ItemService

  datatype FieldName =
    ProductName | ProductType | QuantityStock | Mrp | SellingPrice | BrandName
    | ExchangeEligibility | Description

  /** Stock and prices come from number inputs: None is the empty input. */
  predicate IsNumeric(f: FieldName) {
    f == QuantityStock || f == Mrp || f == SellingPrice
  }

  datatype FieldValue = Text(text: string) | Number(number: Option<int>)

  /** A value the input of field `f` can produce. */
  predicate Fits(f: FieldName, v: FieldValue) {
    IsNumeric(f) <==> v.Number?
  }

  datatype Form = Form(
    productName: string, productType: string,
    quantityStock: Option<int>, mrp: Option<int>, sellingPrice: Option<int>,
    brandName: string, images: seq<string>, exchangeEligibility: string,
    description: string)

  /** The form a modal opens with. */
  const INITIAL := Form("", "", None, None, None, "", [], "Yes", "")

  function ValueOf(form: Form, f: FieldName): (v: FieldValue)
    ensures Fits(f, v)
  {
    match f
    case ProductName => Text(form.productName)
    case ProductType => Text(form.productType)
    case QuantityStock => Number(form.quantityStock)
    case Mrp => Number(form.mrp)
    case SellingPrice => Number(form.sellingPrice)
    case BrandName => Text(form.brandName)
    case ExchangeEligibility => Text(form.exchangeEligibility)
    case Description => Text(form.description)
  }

  /** `{ ...prev, [name]: value }`: field `f` takes `v`, every other field
      and the image list keep theirs. */
  function With(form: Form, f: FieldName, v: FieldValue): (r: Form)
    requires Fits(f, v)
    ensures ValueOf(r, f) == v
    ensures forall g :: g != f ==> ValueOf(r, g) == ValueOf(form, g)
    ensures r.images == form.images
  {
    match f
    case ProductName => form.(productName := v.text)
    case ProductType => form.(productType := v.text)
    case QuantityStock => form.(quantityStock := v.number)
    case Mrp => form.(mrp := v.number)
    case SellingPrice => form.(sellingPrice := v.number)
    case BrandName => form.(brandName := v.text)
    case ExchangeEligibility => form.(exchangeEligibility := v.text)
    case Description => form.(description := v.text)
  }

  // ------------------------------------------------------------- errors

  /** The keys of the `errors` object: one per field, and `submit`. */
  datatype ErrorKey = FieldError(field: FieldName) | SubmitError
  type Errors = map<ErrorKey, string>

  /** `if (errors[name]) setErrors({ ...prev, [name]: '' })`: a shown error of
      the edited field is blanked; nothing else changes. */
  function ClearOnChange(errors: Errors, f: FieldName): (r: Errors)
    ensures r.Keys == errors.Keys
    ensures FieldError(f) in r ==> r[FieldError(f)] == ""
    ensures forall k :: k in r && k != FieldError(f) ==> r[k] == errors[k]
  {
    var key := FieldError(f);
    if key in errors && errors[key] != "" then errors[key := ""] else errors
  }

  // --------------------------------------------------------- validation

  predicate Positive(n: Option<int>) {
    n.Some? && n.value > 0
  }

  /** The validation rule of each field: names must not be blank after
      trimming, the type must be chosen, stock and prices must be present
      and above zero; the other fields are never checked. */
  predicate Fails(form: Form, f: FieldName) {
    match f
    case ProductName => Blank(form.productName)
    case ProductType => form.productType == ""
    case QuantityStock => !Positive(form.quantityStock)
    case Mrp => !Positive(form.mrp)
    case SellingPrice => !Positive(form.sellingPrice)
    case BrandName => Blank(form.brandName)
    case ExchangeEligibility => false
    case Description => false
  }

  /** No rule fails. */
  predicate Passes(form: Form) {
    !Fails(form, ProductName) && !Fails(form, ProductType) && !Fails(form, QuantityStock)
    && !Fails(form, Mrp) && !Fails(form, SellingPrice) && !Fails(form, BrandName)
  }

  /** The position of each rule in `validate`; unchecked fields come last. */
  function Rank(f: FieldName): nat {
    match f
    case ProductName => 0
    case ProductType => 1
    case QuantityStock => 2
    case Mrp => 3
    case SellingPrice => 4
    case BrandName => 5
    case ExchangeEligibility => 6
    case Description => 6
  }

  /** The errors object after the first `n` rules have run. */
  ghost predicate Checked(form: Form, errors: Errors, n: nat) {
    (forall f :: FieldError(f) in errors <==> Rank(f) < n && Fails(form, f))
    && (forall k :: k in errors ==> k.FieldError? && errors[k] == Message(k.field))
  }

  function Message(f: FieldName): string {
    match f
    case ProductName => "Please enter product name"
    case ProductType => "Please select product type"
    case QuantityStock => "Please enter valid quantity stock"
    case Mrp => "Please enter valid MRP"
    case SellingPrice => "Please enter valid selling price"
    case BrandName => "Please enter brand name"
    case ExchangeEligibility => ""
    case Description => ""
  }

  /** `validate`: the errors object holds exactly the failing fields, each
      with its message, and the form is accepted iff it is empty. */
  method Validate(form: Form) returns (errors: Errors, ok: bool)
    ensures forall f :: FieldError(f) in errors <==> Fails(form, f)
    ensures forall k :: k in errors ==> k.FieldError? && errors[k] == Message(k.field)
    ensures ok <==> Passes(form)
  {
    errors := map[];
    var failing := TrimsToEmpty(form.productName);
    errors := Rule(form, errors, ProductName, failing);
    failing := form.productType == "";
    errors := Rule(form, errors, ProductType, failing);
    failing := form.quantityStock.None? || form.quantityStock.value <= 0;
    errors := Rule(form, errors, QuantityStock, failing);
    failing := form.mrp.None? || form.mrp.value <= 0;
    errors := Rule(form, errors, Mrp, failing);
    failing := form.sellingPrice.None? || form.sellingPrice.value <= 0;
    errors := Rule(form, errors, SellingPrice, failing);
    failing := TrimsToEmpty(form.brandName);
    errors := Rule(form, errors, BrandName, failing);
    Complete(form, errors);
    ok := |errors| == 0;
  }

  /** One `if (...) newErrors.f = message` of `validate`, run in order. */
  method Rule(form: Form, errors: Errors, f: FieldName, failing: bool) returns (r: Errors)
    requires Rank(f) < 6 && Checked(form, errors, Rank(f)) && failing == Fails(form, f)
    ensures Checked(form, r, Rank(f) + 1)
  {
    Advance(form, errors, f, failing);
    r := Flag(errors, f, failing);
  }

  /** Once all six rules have run, the errors object is empty exactly when
      the form passes. */
  lemma Complete(form: Form, errors: Errors)
    requires Checked(form, errors, 6)
    ensures forall f :: FieldError(f) in errors <==> Fails(form, f)
    ensures |errors| == 0 <==> Passes(form)
  {
    forall f ensures FieldError(f) in errors <==> Fails(form, f) {
      assert Rank(f) == 6 ==> !Fails(form, f);
    }
    if |errors| != 0 {
      var k :| k in errors;
      assert Fails(form, k.field);
    } else {
      assert errors == map[];
    }
  }

  /** One `if (...) newErrors.f = message` of `validate`. */
  function Flag(errors: Errors, f: FieldName, failing: bool): Errors {
    if failing then errors[FieldError(f) := Message(f)] else errors
  }

  /** Each rule adds its own field exactly when it fails. */
  lemma Advance(form: Form, errors: Errors, f: FieldName, failing: bool)
    requires Rank(f) < 6 && Checked(form, errors, Rank(f)) && failing == Fails(form, f)
    ensures Checked(form, Flag(errors, f, failing), Rank(f) + 1)
  {
    var r := Flag(errors, f, failing);
    forall g ensures FieldError(g) in r <==> Rank(g) < Rank(f) + 1 && Fails(form, g) {
      if Rank(g) == Rank(f) {
        assert g == f;
      }
    }
  }

  // ------------------------------------------------------------ payload

  /** `{ ...formData, images, quantityStock: parseInt(..), mrp: parseFloat(..),
      sellingPrice: parseFloat(..) }`, plus a trailing `status` when one is
      given: the spread keeps the form's key order and overridden keys keep
      their place. */
  function Payload(form: Form, images: seq<Image>, status: Option<string>): Record
    requires Passes(form)
  {
    assert !Fails(form, QuantityStock) && !Fails(form, Mrp) && !Fails(form, SellingPrice);
    [ ("productName", Str(form.productName)),
      ("productType", Str(form.productType)),
      ("quantityStock", Num(form.quantityStock.value)),
      ("mrp", Num(form.mrp.value)),
      ("sellingPrice", Num(form.sellingPrice.value)),
      ("brandName", Str(form.brandName)),
      (IMAGES, Images(images)),
      ("exchangeEligibility", Str(form.exchangeEligibility)),
      ("description", Str(form.description)) ]
    + (if status.Some? then [("status", Str(status.value))] else [])
  }

  /** What the service receives from a valid form: distinct keys, the images
      given, the numbers of the form, the status given (if any), and a
      multipart upload exactly when one of the images is a new file. */
  lemma PayloadShape(form: Form, images: seq<Image>, status: Option<string>)
    requires Passes(form)
    ensures var r := Payload(form, images, status);
      && DistinctKeys(r)
      && Get(r, IMAGES) == Images(images)
      && Get(r, "quantityStock") == Num(form.quantityStock.value)
      && Get(r, "mrp") == Num(form.mrp.value)
      && Get(r, "sellingPrice") == Num(form.sellingPrice.value)
      && Get(r, "status") == (if status.Some? then Str(status.value) else Undefined)
      && (HasFiles(r) <==> exists i :: 0 <= i < |images| && images[i].FileImage?)
  {
    var r := Payload(form, images, status);
    PayloadKeys(form, images, status);
    GetIn(r, 2);
    GetIn(r, 3);
    GetIn(r, 4);
    if status.Some? {
      GetIn(r, 9);
    } else {
      GetAbsent(r, "status");
    }
    GetIn(r, 6);
    HasFilesAt(r, 6);
  }

  lemma PayloadKeys(form: Form, images: seq<Image>, status: Option<string>)
    requires Passes(form)
    ensures DistinctKeys(Payload(form, images, status))
  {
  }
}
