/** The edit-item page: the stored item is loaded into the item form, with
    only its first image kept as the URL input, and the whole form, the
    numbers parsed and the URL turned back into a list, is sent as the
    update. */
module EditItem {
  import opened Base
  import opened ItemService
  import opened ItemForm
  import Catalog
  import Routing

  const FETCH_FAILED := "Failed to fetch item"
  const UPDATE_FAILED := "Failed to update item"

  /** The form `fetchItem` fills in: every field falls back to its empty
      value (or to "No" and "unpublished") when the stored one is falsy, and
      the image input takes the first stored image, if any. */
  function FromItem(item: Catalog.Product): (form: Form)
    ensures form.imageInput == if |item.images| > 0 then item.images[0] else ""
    ensures form.exchangeEligibility != "" && form.status != ""
    ensures item.status != "" ==> form.status == item.status
    ensures item.exchangeEligibility != "" ==> form.exchangeEligibility == item.exchangeEligibility
    ensures form.sellingPrice.Some? <==> item.sellingPrice.Some? && item.sellingPrice.value != 0
    ensures form.mrp.Some? <==> item.mrp.Some? && item.mrp.value != 0
    ensures form.quantityStock.Some? <==> item.quantityStock.Some? && item.quantityStock.value != 0
    ensures form.sellingPrice.Some? ==> form.sellingPrice == item.sellingPrice
    ensures form.mrp.Some? ==> form.mrp == item.mrp
    ensures form.quantityStock.Some? ==> form.quantityStock == item.quantityStock
    ensures form.productName == item.productName && form.productType == item.productType
    ensures form.brandName == item.brandName && form.description == item.description
  {
    Form(
      item.productName, item.description,
      if |item.images| > 0 then item.images[0] else "",
      item.productType,
      OrEmpty(item.sellingPrice), OrEmpty(item.mrp), OrEmpty(item.quantityStock),
      item.brandName,
      Or(item.exchangeEligibility, "No"),
      Or(item.status, "unpublished"))
  }

  /** `itemData`: the spread of the whole form in its key order, including
      `imageInput`, with the three numbers parsed in place and `images`
      appended last. */
  function UpdateData(form: Form): Record {
    [ ("productName", Str(form.productName)),
      ("description", Str(form.description)),
      ("imageInput", Str(form.imageInput)),
      ("productType", Str(form.productType)),
      ("sellingPrice", Parsed(form.sellingPrice)),
      ("mrp", Parsed(form.mrp)),
      ("quantityStock", Parsed(form.quantityStock)),
      ("brandName", Str(form.brandName)),
      ("exchangeEligibility", Str(form.exchangeEligibility)),
      ("status", Str(form.status)),
      (IMAGES, Images(ImagesOf(form))) ]
  }

  /** The update carries distinct keys, still carries the URL input next to
      the list made from it, holds no file, and so always goes out as JSON. */
  lemma UpdateDataShape(form: Form)
    ensures var r := UpdateData(form);
      && DistinctKeys(r)
      && Get(r, "imageInput") == Str(form.imageInput)
      && Get(r, IMAGES) == Images(ImagesOf(form))
      && Get(r, "sellingPrice") == Parsed(form.sellingPrice)
      && Get(r, "mrp") == Parsed(form.mrp)
      && Get(r, "quantityStock") == Parsed(form.quantityStock)
      && Get(r, "status") == Str(form.status)
      && !HasFiles(r)
  {
    var r := UpdateData(form);
    UpdateDataKeys(form);
    GetIn(r, 2);
    GetIn(r, 4);
    GetIn(r, 5);
    GetIn(r, 6);
    GetIn(r, 9);
    GetIn(r, 10);
    HasFilesAt(r, 10);
  }

  lemma UpdateDataKeys(form: Form)
    ensures DistinctKeys(UpdateData(form))
  {
  }

  /** Loading an item and saving it untouched keeps at most its first image:
      every later stored image is dropped, and so is a first image that is
      the empty string. A stored number that is 0 comes back as NaN, and a
      missing status is sent as "unpublished". */
  lemma SaveUntouched(item: Catalog.Product)
    ensures var r := UpdateData(FromItem(item));
      && Get(r, IMAGES) == Images(if |item.images| > 0 && item.images[0] != "" then [UrlImage(item.images[0])] else [])
      && Get(r, "mrp") == (if item.mrp.Some? && item.mrp.value != 0 then Num(item.mrp.value) else NaN)
      && Get(r, "status") == Str(if item.status == "" then "unpublished" else item.status)
      && Get(r, "productName") == Str(item.productName)
  {
    var form := FromItem(item);
    UpdateDataShape(form);
    assert UpdateData(form)[0].0 == "productName";
  }

  // --------------------------------------------------------------- page

  class EditItemPage {
    const id: string
    var form: Form
    var loading: bool
    var saving: bool
    var error: Option<string>

    /** The page opens loading, on the initial form. */
    constructor (id: string)
      ensures this.id == id && form == INITIAL && loading && !saving && error.None?
    {
      this.id := id;
      form := INITIAL;
      loading := true;
      saving := false;
      error := None;
    }

    /** `fetchItem`: a loaded item replaces the form; a failed fetch keeps
        it and shows the error. Loading is over afterwards either way. */
    method FetchItem(reply: Reply<Catalog.Product>)
      modifies this`form, this`loading, this`error
      ensures !loading
      ensures reply.Resolved? ==> form == FromItem(reply.value) && error.None?
      ensures reply.Rejected? ==> form == old(form) && error == Some(Or(reply.error.message, FETCH_FAILED))
    {
      loading := true;
      error := None;
      match reply {
        case Resolved(item) =>
          form := FromItem(item);
        case Rejected(err) =>
          error := Some(Or(err.message, FETCH_FAILED));
      }
      loading := false;
    }

    method HandleChange(f: ItemField, v: FieldValue)
      requires Fits(f, v)
      modifies this`form
      ensures form == With(old(form), f, v)
    {
      form := With(form, f, v);
    }

    /** `handleSubmit`: the update is sent once, without any check, as JSON
        under the page's id; success returns to the product list. */
    method HandleSubmit(reply: Reply<()>) returns (sent: (string, Prepared), navigate: Option<Routing.Path>)
      modifies this`saving, this`error
      ensures !saving
      ensures sent == (id, Json(UpdateData(form)))
      ensures navigate.Some? <==> reply.Resolved?
      ensures navigate.Some? ==> navigate.value == Routing.PRODUCTS && error.None?
      ensures reply.Rejected? ==> error == Some(Or(reply.error.message, UPDATE_FAILED))
    {
      saving := true;
      error := None;
      UpdateDataShape(form);
      var prepared := PrepareData(UpdateData(form));
      sent := (id, prepared);
      match reply {
        case Resolved(_) =>
          navigate := Some(Routing.PRODUCTS);
        case Rejected(err) =>
          navigate := None;
          error := Some(Or(err.message, UPDATE_FAILED));
      }
      saving := false;
    }
  }
}
