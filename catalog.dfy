/** A product (an "item") as the backend returns it, and the publication
    status rule every page shares. Text fields that the backend leaves out
    are "" (both are falsy and every page treats them alike); a missing
    image list is []. */
module Catalog {
  import opened Base

  const PUBLISHED := "published"
  const UNPUBLISHED := "unpublished"

  /** `createdBy`: a populated user object (whose `_id` may be missing, "")
      or the creator's raw id. */
  datatype Creator = CreatorRecord(mongoId: string) | CreatorId(id: string)

  datatype Product = Product(
    mongoId: string,
    productName: string, productType: string,
    quantityStock: Option<int>, mrp: Option<int>, sellingPrice: Option<int>,
    brandName: string, images: seq<string>, exchangeEligibility: string,
    description: string, status: string, createdBy: Option<Creator>)

  /** The status a toggle asks for: published becomes unpublished, any other
      status (unpublished, empty, or unknown) becomes published. */
  function Toggled(status: string): (s: string)
    ensures s == PUBLISHED || s == UNPUBLISHED
    ensures s == UNPUBLISHED <==> status == PUBLISHED
  {
    if status == PUBLISHED then UNPUBLISHED else PUBLISHED
  }

  /** The toast after a toggle names the new status. */
  function ToggleToast(newStatus: string): (t: string)
    ensures t == "Product Published Successfully" <==> newStatus == PUBLISHED
    ensures t == "Product Unpublished Successfully" <==> newStatus != PUBLISHED
  {
    "Product " + (if newStatus == PUBLISHED then "Published" else "Unpublished") + " Successfully"
  }

  /** On the two known statuses the toggle is an involution. */
  lemma ToggleTwice(status: string)
    requires status == PUBLISHED || status == UNPUBLISHED
    ensures Toggled(Toggled(status)) == status
  {
  }
}
