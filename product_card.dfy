/** One product card: who sees its publish, edit and delete buttons, the
    label of the publish button, and the image strip with its dots. */
module ProductCard {
  import opened Base
  import opened Session
  import opened Catalog

  const ADMIN := "admin"

  /** `product.createdBy` is truthy: a populated record always is, a raw id
      only when it is not empty. */
  predicate HasCreator(p: Product) {
    match p.createdBy
    case None => false
    case Some(CreatorRecord(_)) => true
    case Some(CreatorId(id)) => id != ""
  }

  /** `createdBy._id || createdBy`: the record's id, or the raw id. A record
      without an id yields the object itself, which equals no string:
      `None`. */
  function CreatorKey(p: Product): (k: Option<string>)
    requires HasCreator(p)
    ensures k.Some? ==> k.value != ""
  {
    match p.createdBy.value
    case CreatorRecord(m) => if m != "" then Some(m) else None
    case CreatorId(id) => Some(id)
  }

  /** `currentUser.id || currentUser._id`. */
  function UserKey(u: User): string {
    Or(u.id, u.mongoId)
  }

  /** Whether the card shows its action buttons: a signed-in user and a
      known creator are needed, and then the user must be an admin or the
      creator. */
  predicate ShowActions(user: Option<User>, p: Product) {
    user.Some? && HasCreator(p)
    && (user.value.role == ADMIN || CreatorKey(p) == Some(UserKey(user.value)))
  }

  /** The rule spelled out: nobody sees actions on a product without a
      creator or while signed out; an admin sees them on every product with
      a creator; anyone else only on a product whose creator id is theirs. */
  lemma ActionsVisibility(user: Option<User>, p: Product)
    ensures user.None? || !HasCreator(p) ==> !ShowActions(user, p)
    ensures user.Some? && user.value.role == ADMIN ==> (ShowActions(user, p) <==> HasCreator(p))
    ensures user.Some? && user.value.role != ADMIN ==>
      (ShowActions(user, p) <==>
        exists k :: k != "" && k == UserKey(user.value)
          && (p.createdBy == Some(CreatorRecord(k)) || p.createdBy == Some(CreatorId(k))))
  {
    if user.Some? && user.value.role != ADMIN && ShowActions(user, p) {
      var k := UserKey(user.value);
      assert p.createdBy == Some(CreatorRecord(k)) || p.createdBy == Some(CreatorId(k));
    }
  }

  /** A populated creator and the same creator sent as a raw id give the
      same answer, for any user. */
  lemma CreatorFormsAgree(user: Option<User>, p: Product, k: string)
    requires k != ""
    ensures ShowActions(user, p.(createdBy := Some(CreatorRecord(k))))
        == ShowActions(user, p.(createdBy := Some(CreatorId(k))))
  {
  }

  /** The publish button reads "Unpublish" exactly when the product is
      published. */
  function StatusLabel(status: string): (text: string)
    ensures text == "Unpublish" <==> status == PUBLISHED
    ensures text == "Publish" <==> status != PUBLISHED
  {
    if status == PUBLISHED then "Unpublish" else "Publish"
  }

  /** The label names what a click asks for: "Unpublish" requests
      "unpublished" and "Publish" requests "published". */
  lemma LabelNamesToggle(status: string)
    ensures StatusLabel(status) == "Unpublish" <==> Toggled(status) == UNPUBLISHED
    ensures StatusLabel(status) == "Publish" <==> Toggled(status) == PUBLISHED
  {
  }

  /** The dots appear only with more than one image, one dot per image. */
  function DotCount(images: seq<string>): (n: nat)
    ensures n == 0 <==> |images| <= 1
    ensures n > 0 ==> n == |images|
  {
    if |images| > 1 then |images| else 0
  }

  // --------------------------------------------------------------- card

  /** What the image area draws: the placeholder when there are no images,
      an image, or an `<img>` whose `src` is undefined. */
  datatype Picture = Placeholder | Photo(url: string) | Broken

  /** `images.length > 0 ? <img src={images[currentImageIndex]}> : placeholder`:
      an index past the end reads `undefined`. */
  function ShownAt(images: seq<string>, index: nat): (p: Picture)
    ensures p == Placeholder <==> |images| == 0
    ensures p == Broken <==> 0 < |images| <= index
    ensures p.Photo? ==> index < |images| && p.url == images[index]
  {
    if |images| == 0 then Placeholder
    else if index < |images| then Photo(images[index])
    else Broken
  }

  /** The index a card keeps when it receives a new product, had it been
      reset whenever it no longer points at one of the new images. */
  function KeptIndex(images: seq<string>, index: nat): (k: nat)
    ensures ShownAt(images, k) != Broken
    ensures index < |images| ==> k == index
    ensures ShownAt(images, k) == if |images| == 0 then Placeholder else Photo(images[k])
  {
    if index < |images| then index else 0
  }

  /** As written: a mounted card showing its third image that is handed the
      same product with a single image draws a broken image, and draws no
      dot that could move the index back. */
  lemma StaleIndexAsWritten(before: seq<string>, after: seq<string>)
    requires |before| == 3 && |after| == 1
    ensures ShownAt(before, 2) == Photo(before[2])
    ensures ShownAt(after, 2) == Broken
    ensures DotCount(after) == 0
  {
  }

  /** Corrected: whatever the old index and the new images, the card shows
      the placeholder or one of the new images, and an index that still
      points at an image is kept. */
  lemma StaleIndexCorrected(images: seq<string>, index: nat)
    ensures ShownAt(images, KeptIndex(images, index)) != Broken
    ensures |images| > 0 ==> ShownAt(images, KeptIndex(images, index)).url in images
    ensures index < |images| ==> ShownAt(images, KeptIndex(images, index)) == ShownAt(images, index)
  {
  }

  /** A card keyed by the product's `_id`. A mounted card that is handed a
      new `product` keeps `currentImageIndex`. Both pages unmount their cards
      while a fetch is loading, so this happens only when a second fetch
      replies after the first one has already shown the grid. */
  class ProductCardView {
    var product: Product
    var currentImageIndex: nat

    constructor (p: Product)
      ensures product == p && currentImageIndex == 0
      ensures Shown() != Broken
    {
      product := p;
      currentImageIndex := 0;
    }

    /** What the image area draws now. */
    function Shown(): (pic: Picture)
      reads this
      ensures pic == Placeholder <==> |product.images| == 0
      ensures pic == Broken <==> 0 < |product.images| <= currentImageIndex
      ensures pic.Photo? ==> pic.url in product.images
    {
      ShownAt(product.images, currentImageIndex)
    }

    /** A dot click shows the image under that dot. Dots exist only with
        more than one image, one per image. */
    method SelectDot(index: nat)
      requires index < DotCount(product.images)
      modifies this`currentImageIndex
      ensures currentImageIndex == index
      ensures Shown() == Photo(product.images[index])
    {
      currentImageIndex := index;
    }

    /** As written: a new `product` prop on a mounted card, the index
        untouched. */
    method ReceiveAsWritten(p: Product)
      modifies this`product
      ensures product == p && currentImageIndex == old(currentImageIndex)
    {
      product := p;
    }

    /** Corrected: a new `product` prop, the index reset when it no longer
        points at one of the new images. */
    method Receive(p: Product)
      modifies this
      ensures product == p && currentImageIndex == KeptIndex(p.images, old(currentImageIndex))
      ensures Shown() != Broken
    {
      product := p;
      currentImageIndex := KeptIndex(p.images, currentImageIndex);
    }
  }
}
