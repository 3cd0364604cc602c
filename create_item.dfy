/** The create-item page: six required fields checked in a fixed order, a
    record built from the form with at most the one typed-in image URL, and
    the navigation back to the product list. */
module CreateItem {
  import opened Base
  import opened ItemService
  import opened ItemForm
  import ProductForm
  import Routing

  const CREATE_FAILED := "Failed to create item"

  /** `requiredFields`, in the order the page lists them. */
  const REQUIRED := [ProductName, ProductType, SellingPrice, Mrp, QuantityStock, BrandName]

  /** `!formData[field]`: the empty text, or the empty number input. */
  predicate IsEmpty(form: Form, f: ItemField) {
    match ValueOf(form, f)
    case Text(t) => t == ""
    case Number(n) => n.None?
  }

  function EmptyIn(form: Form): ItemField -> bool {
    f => IsEmpty(form, f)
  }

  /** `missing`: the required fields left empty, in the order of
      `REQUIRED`. */
  function Missing(form: Form): seq<ItemField> {
    Filter(REQUIRED, EmptyIn(form))
  }

  /** A field is missing iff it is required and empty; nothing is missing
      iff every required field is filled. */
  lemma MissingExactly(form: Form)
    ensures forall f :: f in Missing(form) <==> f in REQUIRED && IsEmpty(form, f)
    ensures Missing(form) == [] <==> forall i :: 0 <= i < |REQUIRED| ==> !IsEmpty(form, REQUIRED[i])
  {
    var p := EmptyIn(form);
    FilterMembers(REQUIRED, p);
    FilterAllOrNone(REQUIRED, p);
  }

  /** The error shown when fields are missing: their keys, comma-joined. */
  function MissingMessage(missing: seq<ItemField>): string {
    "Missing required fields: " + JoinWith(Keys(missing), ", ")
  }

  function Keys(fields: seq<ItemField>): (r: seq<string>)
    ensures |r| == |fields| && forall i :: 0 <= i < |r| ==> r[i] == Key(fields[i])
  {
    if fields == [] then [] else [Key(fields[0])] + Keys(fields[1..])
  }

  /** `itemData`: the form's fields in the page's order, the numbers parsed,
      `images` last, and no `imageInput`. */
  function ItemData(form: Form): Record {
    [ ("productName", Str(form.productName)),
      ("productType", Str(form.productType)),
      ("quantityStock", Parsed(form.quantityStock)),
      ("mrp", Parsed(form.mrp)),
      ("sellingPrice", Parsed(form.sellingPrice)),
      ("brandName", Str(form.brandName)),
      ("exchangeEligibility", Str(form.exchangeEligibility)),
      ("description", Str(form.description)),
      ("status", Str(form.status)),
      (IMAGES, Images(ImagesOf(form))) ]
  }

  /** The created record copies the text fields unchanged, never carries
      `imageInput`, holds at most the one typed-in URL as its images, and,
      holding no file, is always sent as JSON. */
  lemma ItemDataShape(form: Form)
    ensures var r := ItemData(form);
      && DistinctKeys(r)
      && Get(r, "productName") == Str(form.productName)
      && Get(r, "brandName") == Str(form.brandName)
      && Get(r, "status") == Str(form.status)
      && Get(r, "imageInput") == Undefined
      && Get(r, IMAGES) == Images(ImagesOf(form))
      && !HasFiles(r)
  {
    var r := ItemData(form);
    ItemDataKeys(form);
    GetIn(r, 0);
    GetIn(r, 5);
    GetIn(r, 8);
    GetAbsent(r, "imageInput");
    GetIn(r, 9);
    HasFilesAt(r, 9);
  }

  lemma ItemDataKeys(form: Form)
    ensures DistinctKeys(ItemData(form))
  {
  }

  // ----------------------------------------------------------- finding

  /** `new Error(...)` where `Error` is the page's imported UI component
      rather than the global constructor: the `throw` never carries the
      missing-fields text. Whatever is thrown instead (the engine's "is not a
      constructor" TypeError, or the component's return value) is caught,
      and `thrownMessage` stands for its `message` ("" when it has none). */
  function MissingErrorAsWritten(form: Form, thrownMessage: string): Option<string> {
    if Missing(form) != [] then Some(Or(thrownMessage, CREATE_FAILED)) else None
  }

  /** The check as intended: the message names the missing fields. */
  function MissingErrorCorrected(form: Form): (e: Option<string>)
    ensures e.Some? <==> Missing(form) != []
  {
    if Missing(form) != [] then Some(MissingMessage(Missing(form))) else None
  }

  /** `missing` spelled out over the six required fields. */
  lemma MissingSpelled(form: Form)
    ensures Missing(form) ==
      (if form.productName == "" then [ProductName] else [])
      + ((if form.productType == "" then [ProductType] else [])
      + ((if form.sellingPrice.None? then [SellingPrice] else [])
      + ((if form.mrp.None? then [Mrp] else [])
      + ((if form.quantityStock.None? then [QuantityStock] else [])
      + (if form.brandName == "" then [BrandName] else [])))))
  {
    var p := EmptyIn(form);
    assert p(ProductName) == (form.productName == "") && p(ProductType) == (form.productType == "");
    assert p(SellingPrice) == form.sellingPrice.None? && p(Mrp) == form.mrp.None?;
    assert p(QuantityStock) == form.quantityStock.None? && p(BrandName) == (form.brandName == "");
    FilterSix(ProductName, ProductType, SellingPrice, Mrp, QuantityStock, BrandName, p);
    assert REQUIRED == [ProductName] + ([ProductType] + ([SellingPrice] + ([Mrp] + ([QuantityStock] + [BrandName]))));
  }

  /** A form missing only its name and one missing only its brand show the
      same error as written, but different ones once corrected. */
  lemma MissingFieldsNotReported(a: Form, b: Form, thrownMessage: string)
    requires a.productName == "" && b.productName != ""
    requires a.brandName != "" && b.brandName == ""
    requires a.productType != "" && a.sellingPrice.Some? && a.mrp.Some? && a.quantityStock.Some?
    requires b.productType != "" && b.sellingPrice.Some? && b.mrp.Some? && b.quantityStock.Some?
    ensures MissingErrorAsWritten(a, thrownMessage) == MissingErrorAsWritten(b, thrownMessage)
    ensures MissingErrorCorrected(a) == Some(MissingMessage([ProductName]))
    ensures MissingErrorCorrected(b) == Some(MissingMessage([BrandName]))
    ensures MissingErrorCorrected(a) != MissingErrorCorrected(b)
  {
    MissingSpelled(a);
    MissingSpelled(b);
    assert Missing(a) == [ProductName] && Missing(b) == [BrandName];
    OneMissing(ProductName);
    OneMissing(BrandName);
    assert "productName"[0] != "brandName"[0];
  }

  /** With one field missing, the message names its key. */
  lemma OneMissing(f: ItemField)
    ensures MissingMessage([f]) == "Missing required fields: " + Key(f)
  {
    assert Keys([f]) == [Key(f)];
  }

  // --------------------------------------------------------------- page

  class CreateItemPage {
    var form: Form
    var loading: bool
    var error: Option<string>

    constructor ()
      ensures form == INITIAL && !loading && error.None?
    {
      form := INITIAL;
      loading := false;
      error := None;
    }

    method HandleChange(f: ItemField, v: FieldValue)
      requires Fits(f, v)
      modifies this`form
      ensures form == With(old(form), f, v)
    {
      form := With(form, f, v);
    }

    /** `addItem`: with a field missing nothing is sent and the missing
        fields are named; otherwise the record goes out once, as JSON, and
        success returns to the product list. */
    method AddItem(reply: Reply<()>) returns (sent: Option<Prepared>, navigate: Option<Routing.Path>)
      modifies this`loading, this`error
      ensures !loading
      ensures Missing(form) != [] ==> sent.None? && navigate.None? && error == MissingErrorCorrected(form)
      ensures Missing(form) == [] ==> sent == Some(Json(ItemData(form)))
      ensures navigate.Some? <==> Missing(form) == [] && reply.Resolved?
      ensures navigate.Some? ==> navigate.value == Routing.PRODUCTS && error.None?
      ensures Missing(form) == [] && reply.Rejected? ==> error == Some(Or(reply.error.message, CREATE_FAILED))
    {
      loading := true;
      error := None;
      var missing := Missing(form);
      if |missing| > 0 {
        error := Some(MissingMessage(missing));
        loading := false;
        return None, None;
      }
      var data := ItemData(form);
      ItemDataShape(form);
      var prepared := PrepareData(data);
      sent := Some(prepared);
      match reply {
        case Resolved(_) =>
          navigate := Some(Routing.PRODUCTS);
        case Rejected(err) =>
          navigate := None;
          error := Some(Or(err.message, CREATE_FAILED));
      }
      loading := false;
    }
  }
}
