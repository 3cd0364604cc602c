/** The form of the create- and edit-item pages: plain text inputs, number
    inputs for stock and prices, and a single image URL input. */
module ItemForm {
  import opened Base
  import opened ItemService
  import ProductForm

  datatype ItemField =
    ProductName | Description | ImageInput | ProductType | SellingPrice | Mrp
    | QuantityStock | BrandName | ExchangeEligibility | Status

  predicate IsNumeric(f: ItemField) {
    f == SellingPrice || f == Mrp || f == QuantityStock
  }

  type FieldValue = ProductForm.FieldValue

  /** A value the input of field `f` can produce. */
  predicate Fits(f: ItemField, v: FieldValue) {
    IsNumeric(f) <==> v.Number?
  }

  datatype Form = Form(
    productName: string, description: string, imageInput: string, productType: string,
    sellingPrice: Option<int>, mrp: Option<int>, quantityStock: Option<int>,
    brandName: string, exchangeEligibility: string, status: string)

  /** The form both pages start with. */
  const INITIAL := Form("", "", "", "", None, None, None, "", "No", "unpublished")

  /** The key each input is named by. */
  function Key(f: ItemField): string {
    match f
    case ProductName => "productName"
    case Description => "description"
    case ImageInput => "imageInput"
    case ProductType => "productType"
    case SellingPrice => "sellingPrice"
    case Mrp => "mrp"
    case QuantityStock => "quantityStock"
    case BrandName => "brandName"
    case ExchangeEligibility => "exchangeEligibility"
    case Status => "status"
  }

  function ValueOf(form: Form, f: ItemField): (v: FieldValue)
    ensures Fits(f, v)
  {
    match f
    case ProductName => ProductForm.Text(form.productName)
    case Description => ProductForm.Text(form.description)
    case ImageInput => ProductForm.Text(form.imageInput)
    case ProductType => ProductForm.Text(form.productType)
    case SellingPrice => ProductForm.Number(form.sellingPrice)
    case Mrp => ProductForm.Number(form.mrp)
    case QuantityStock => ProductForm.Number(form.quantityStock)
    case BrandName => ProductForm.Text(form.brandName)
    case ExchangeEligibility => ProductForm.Text(form.exchangeEligibility)
    case Status => ProductForm.Text(form.status)
  }

  /** `handleChange`: `{ ...prev, [name]: value }` touches only field `f`. */
  function With(form: Form, f: ItemField, v: FieldValue): (r: Form)
    requires Fits(f, v)
    ensures ValueOf(r, f) == v
    ensures forall g :: g != f ==> ValueOf(r, g) == ValueOf(form, g)
  {
    match f
    case ProductName => form.(productName := v.text)
    case Description => form.(description := v.text)
    case ImageInput => form.(imageInput := v.text)
    case ProductType => form.(productType := v.text)
    case SellingPrice => form.(sellingPrice := v.number)
    case Mrp => form.(mrp := v.number)
    case QuantityStock => form.(quantityStock := v.number)
    case BrandName => form.(brandName := v.text)
    case ExchangeEligibility => form.(exchangeEligibility := v.text)
    case Status => form.(status := v.text)
  }

  /** `formData.imageInput ? [formData.imageInput] : []`: at most one image,
      the URL typed in. */
  function ImagesOf(form: Form): (r: seq<Image>)
    ensures |r| <= 1
    ensures r == [] <==> form.imageInput == ""
    ensures r != [] ==> r[0] == UrlImage(form.imageInput)
  {
    if form.imageInput != "" then [UrlImage(form.imageInput)] else []
  }

  /** `parseInt`/`parseFloat` of a number input: the empty input is NaN. */
  function Parsed(n: Option<int>): (v: Value)
    ensures v.NaN? <==> n.None?
    ensures n.Some? ==> v == Num(n.value)
  {
    match n
    case Some(x) => Num(x)
    case None => NaN
  }
}
