/** The "edit product" modal: the form loaded from a product, an image list
    mixing stored URLs with `blob:` previews of newly picked files, and the
    resolution of that list into what is sent: stored URLs as they are, each
    preview replaced by its file. */
module EditProduct {
  import opened Base
  import opened ItemService
  import opened ProductForm
  import Catalog

  const BLOB := "blob:"
  const UPDATE_FAILED := "Failed to update product"

  /** A picked file with the preview URL shown for it. */
  datatype FileEntry = FileEntry(file: File, preview: string)

  // ------------------------------------------------------------ loading

  /** The effect that loads a product into the form: each field or its
      default ('' for text and numbers, [] for images, 'Yes' for exchange
      eligibility). */
  function FromProduct(p: Catalog.Product): (form: Form)
    ensures form.exchangeEligibility != ""
    ensures p.exchangeEligibility != "" ==> form.exchangeEligibility == p.exchangeEligibility
    ensures form.images == p.images
    ensures form.quantityStock.Some? <==> p.quantityStock.Some? && p.quantityStock.value != 0
    ensures form.mrp.Some? <==> p.mrp.Some? && p.mrp.value != 0
    ensures form.sellingPrice.Some? <==> p.sellingPrice.Some? && p.sellingPrice.value != 0
    ensures form.quantityStock.Some? ==> form.quantityStock == p.quantityStock
    ensures form.mrp.Some? ==> form.mrp == p.mrp
    ensures form.sellingPrice.Some? ==> form.sellingPrice == p.sellingPrice
    ensures form.productName == p.productName && form.productType == p.productType
    ensures form.brandName == p.brandName && form.description == p.description
  {
    Form(p.productName, p.productType,
         OrEmpty(p.quantityStock), OrEmpty(p.mrp), OrEmpty(p.sellingPrice),
         p.brandName, p.images, Or(p.exchangeEligibility, "Yes"), p.description)
  }

  /** A product that satisfies the six rules opens as a form that passes
      them, and one that breaks a rule opens as a form that fails it: the
      defaults never turn an invalid product valid (0 becomes '', which is
      rejected just like 0). */
  lemma LoadedFormValid(p: Catalog.Product)
    ensures Passes(FromProduct(p)) <==>
      !Blank(p.productName) && p.productType != ""
      && Positive(p.quantityStock) && Positive(p.mrp) && Positive(p.sellingPrice)
      && !Blank(p.brandName)
  {
  }

  // ------------------------------------------------------ image entries

  predicate IsBlob(url: string) {
    StartsWith(url, BLOB)
  }

  /** A URL the backend stores: neither a preview nor empty (the empty
      string is dropped by `.filter(Boolean)`). */
  predicate IsStored(url: string) {
    !IsBlob(url) && url != ""
  }

  /** `files.map(file => ({ file, preview }))` with one preview per file. */
  function Pair(files: seq<File>, previews: seq<string>): (r: seq<FileEntry>)
    requires |files| == |previews|
    ensures |r| == |files|
    ensures forall i :: 0 <= i < |r| ==> r[i] == FileEntry(files[i], previews[i])
  {
    if files == [] then [] else [FileEntry(files[0], previews[0])] + Pair(files[1..], previews[1..])
  }

  /** `imageFiles.find(e => e.preview === url)?.file`: the file of the first
      entry showing `url`. */
  function FindFile(entries: seq<FileEntry>, url: string): (r: Option<File>)
    ensures r.None? <==> forall i :: 0 <= i < |entries| ==> entries[i].preview != url
    ensures r.Some? ==> exists i :: 0 <= i < |entries| && entries[i] == FileEntry(r.value, url)
                                    && forall j :: 0 <= j < i ==> entries[j].preview != url
  {
    if entries == [] then None
    else if entries[0].preview == url then Some(entries[0].file)
    else
      var r := FindFile(entries[1..], url);
      assert forall i :: 1 <= i < |entries| ==> entries[1..][i - 1] == entries[i];
      if r.Some? then
        var k :| 0 <= k < |entries[1..]| && entries[1..][k] == FileEntry(r.value, url)
                 && forall j :: 0 <= j < k ==> entries[1..][j].preview != url;
        assert entries[k + 1] == FileEntry(r.value, url);
        r
      else r
  }

  /** What one element of `images` is sent as, if anything. */
  function ResolveOne(url: string, entries: seq<FileEntry>): Option<Image> {
    if IsBlob(url) then
      match FindFile(entries, url)
      case Some(f) => Some(FileImage(f))
      case None => None
    else if url == "" then None
    else Some(UrlImage(url))
  }

  /** `finalImages`: the images mapped one by one and the nulls (and empty
      strings) filtered out. */
  function Resolve(images: seq<string>, entries: seq<FileEntry>): (r: seq<Image>)
    ensures |r| <= |images|
  {
    if images == [] then []
    else
      (match ResolveOne(images[0], entries) case Some(x) => [x] case None => [])
      + Resolve(images[1..], entries)
  }

  /** The stored URLs among resolved images, in order. */
  function Urls(images: seq<Image>): seq<string> {
    if images == [] then []
    else (if images[0].UrlImage? then [images[0].url] else []) + Urls(images[1..])
  }

  /** Every stored URL survives resolution, in its original order, and no
      other URL appears: the URLs sent are exactly the stored ones. */
  lemma {:induction false} ResolveKeepsStoredUrls(images: seq<string>, entries: seq<FileEntry>)
    ensures Urls(Resolve(images, entries)) == Filter(images, IsStored)
  {
    if images != [] {
      ResolveKeepsStoredUrls(images[1..], entries);
      var head := match ResolveOne(images[0], entries) case Some(x) => [x] case None => [];
      UrlsConcat(head, Resolve(images[1..], entries));
    }
  }

  lemma {:induction false} UrlsConcat(a: seq<Image>, b: seq<Image>)
    ensures Urls(a + b) == Urls(a) + Urls(b)
  {
    if a != [] {
      assert (a + b)[1..] == a[1..] + b;
      UrlsConcat(a[1..], b);
    } else {
      assert a + b == b;
    }
  }

  /** An image list of stored URLs only is sent unchanged, one element per
      URL: editing a product without touching its images keeps them. */
  lemma {:induction false} ResolveStoredOnly(images: seq<string>, entries: seq<FileEntry>)
    requires forall i :: 0 <= i < |images| ==> IsStored(images[i])
    ensures |Resolve(images, entries)| == |images|
    ensures forall i :: 0 <= i < |images| ==> Resolve(images, entries)[i] == UrlImage(images[i])
  {
    if images != [] {
      ResolveStoredOnly(images[1..], entries);
      assert forall i :: 1 <= i < |images| ==> images[1..][i - 1] == images[i];
    }
  }

  /** Fresh previews (blob URLs not shown anywhere yet, pairwise distinct)
      do not change what the existing images resolve to, and each resolves
      to its own file: adding files appends exactly those files, in order,
      to what is sent. */
  lemma {:induction false} ResolveAppend(images: seq<string>, entries: seq<FileEntry>,
                                         files: seq<File>, previews: seq<string>)
    requires |files| == |previews|
    requires forall i :: 0 <= i < |previews| ==> IsBlob(previews[i]) && previews[i] !in images
    requires forall i :: 0 <= i < |previews| ==> forall e :: e in entries ==> e.preview != previews[i]
    requires forall i, j :: 0 <= i < j < |previews| ==> previews[i] != previews[j]
    ensures Resolve(images + previews, entries + Pair(files, previews))
            == Resolve(images, entries) + FileImages(files)
  {
    var all := entries + Pair(files, previews);
    ResolveConcat(images, previews, all);
    ResolveUnaffected(images, entries, Pair(files, previews));
    ResolveFresh(previews, entries, files, previews, 0);
  }

  lemma {:induction false} ResolveConcat(a: seq<string>, b: seq<string>, entries: seq<FileEntry>)
    ensures Resolve(a + b, entries) == Resolve(a, entries) + Resolve(b, entries)
  {
    if a != [] {
      assert (a + b)[1..] == a[1..] + b;
      ResolveConcat(a[1..], b, entries);
    } else {
      assert a + b == b;
    }
  }

  /** Entries whose previews none of `images` shows change nothing. */
  lemma {:induction false} ResolveUnaffected(images: seq<string>, entries: seq<FileEntry>, extra: seq<FileEntry>)
    requires forall e, u :: e in extra && u in images ==> e.preview != u
    ensures Resolve(images, entries + extra) == Resolve(images, entries)
  {
    if images != [] {
      var u := images[0];
      assert u in images;
      if FindFile(entries, u).None? {
        assert forall i :: 0 <= i < |entries + extra| ==> (entries + extra)[i].preview != u by {
          forall i | 0 <= i < |entries + extra|
            ensures (entries + extra)[i].preview != u
          {
            if i >= |entries| {
              assert (entries + extra)[i] in extra;
            }
          }
        }
      } else {
        var k :| 0 <= k < |entries| && entries[k] == FileEntry(FindFile(entries, u).value, u)
                 && forall j :: 0 <= j < k ==> entries[j].preview != u;
        FindFirst(entries + extra, k, u);
      }
      assert forall w :: w in images[1..] ==> w in images;
      ResolveUnaffected(images[1..], entries, extra);
    }
  }

  /** The entry at `k` is the first one showing `url`. */
  lemma FindFirst(entries: seq<FileEntry>, k: nat, url: string)
    requires k < |entries| && entries[k].preview == url
    requires forall j :: 0 <= j < k ==> entries[j].preview != url
    ensures FindFile(entries, url) == Some(entries[k].file)
  {
  }

  /** A fresh preview finds its own file among the entries. */
  lemma FreshFound(entries: seq<FileEntry>, files: seq<File>, previews: seq<string>, from: nat)
    requires |files| == |previews| && from < |previews|
    requires forall i :: 0 <= i < |previews| ==> forall e :: e in entries ==> e.preview != previews[i]
    requires forall i, j :: 0 <= i < j < |previews| ==> previews[i] != previews[j]
    ensures FindFile(entries + Pair(files, previews), previews[from]) == Some(files[from])
  {
    var all := entries + Pair(files, previews);
    var k := |entries| + from;
    assert all[k] == FileEntry(files[from], previews[from]);
    forall j | 0 <= j < k ensures all[j].preview != previews[from] {
      if j < |entries| {
        assert all[j] in entries;
      } else {
        assert all[j] == FileEntry(files[j - |entries|], previews[j - |entries|]);
      }
    }
    FindFirst(all, k, previews[from]);
  }

  /** A preview found among the entries is sent as its file. */
  lemma ResolveHead(images: seq<string>, entries: seq<FileEntry>, f: File)
    requires images != [] && IsBlob(images[0]) && FindFile(entries, images[0]) == Some(f)
    ensures Resolve(images, entries) == [FileImage(f)] + Resolve(images[1..], entries)
  {
  }

  /** Each fresh preview from position `from` on resolves to its own file. */
  lemma {:induction false} ResolveFresh(rest: seq<string>, entries: seq<FileEntry>,
                                        files: seq<File>, previews: seq<string>, from: nat)
    requires |files| == |previews| && from <= |previews| && rest == previews[from..]
    requires forall i :: 0 <= i < |previews| ==> IsBlob(previews[i])
    requires forall i :: 0 <= i < |previews| ==> forall e :: e in entries ==> e.preview != previews[i]
    requires forall i, j :: 0 <= i < j < |previews| ==> previews[i] != previews[j]
    ensures Resolve(rest, entries + Pair(files, previews)) == FileImages(files[from..])
    decreases |previews| - from
  {
    if from < |previews| {
      var all := entries + Pair(files, previews);
      FreshFound(entries, files, previews, from);
      ResolveHead(rest, all, files[from]);
      assert rest[1..] == previews[from + 1..];
      ResolveFresh(rest[1..], entries, files, previews, from + 1);
      assert files[from..][1..] == files[from + 1..];
    } else {
      assert files[from..] == [];
    }
  }

  /** `productData` of `handleSubmit`: the form with the resolved images and
      no status. */
  function UpdatePayload(form: Form, entries: seq<FileEntry>): Record
    requires Passes(form)
  {
    Payload(form, Resolve(form.images, entries), None)
  }

  /** Keeps picked files whose preview is not `url`. */
  function NotShowing(url: string): FileEntry -> bool {
    (e: FileEntry) => e.preview != url
  }

  class EditProductModal {
    /** `product._id`, the item the update goes to. */
    var productId: string
    var form: Form
    var errors: Errors
    var loading: bool
    var imageFiles: seq<FileEntry>

    ghost predicate Valid()
      reads this
    {
      !loading
    }

    /** The modal mounts with a product, and the load effect runs once. */
    constructor (product: Catalog.Product)
      ensures Valid()
      ensures productId == product.mongoId && form == FromProduct(product)
      ensures imageFiles == [] && errors == map[]
    {
      productId := product.mongoId;
      form := FromProduct(product);
      errors := map[];
      loading := false;
      imageFiles := [];
    }

    /** The load effect for a new product: the form is replaced and picked
        files are forgotten; errors stay. */
    method Load(product: Catalog.Product)
      requires Valid()
      modifies this
      ensures Valid()
      ensures productId == product.mongoId && form == FromProduct(product)
      ensures imageFiles == [] && errors == old(errors)
    {
      productId := product.mongoId;
      form := FromProduct(product);
      imageFiles := [];
    }

    /** `handleChange`: only the named field changes, and only its error is
        blanked. */
    method HandleChange(f: FieldName, v: FieldValue)
      requires Valid() && Fits(f, v)
      modifies this
      ensures Valid() && productId == old(productId)
      ensures form == With(old(form), f, v) && errors == ClearOnChange(old(errors), f)
      ensures imageFiles == old(imageFiles)
    {
      form := With(form, f, v);
      errors := ClearOnChange(errors, f);
    }

    /** `handleImageChange`: every picked file is appended with its preview,
        to both lists, in order and without any cap. */
    method HandleImageChange(files: seq<File>, previews: seq<string>)
      requires Valid() && |previews| == |files|
      modifies this
      ensures Valid() && productId == old(productId) && errors == old(errors)
      ensures imageFiles == old(imageFiles) + Pair(files, previews)
      ensures form == old(form).(images := old(form.images) + previews)
    {
      imageFiles := imageFiles + Pair(files, previews);
      form := form.(images := form.images + previews);
    }

    /** `removeImageFixed(index)`: exactly position `index` leaves the image
        list; the picked files showing that URL are dropped only when it is
        a preview. */
    method RemoveImageFixed(index: nat)
      requires Valid() && index < |form.images|
      modifies this
      ensures Valid() && productId == old(productId) && errors == old(errors)
      ensures form == old(form).(images := RemoveAt(old(form.images), index))
      ensures var url := old(form.images)[index];
        imageFiles == if IsBlob(url) then Filter(old(imageFiles), NotShowing(url)) else old(imageFiles)
    {
      var url := form.images[index];
      if StartsWith(url, BLOB) {
        imageFiles := Filter(imageFiles, NotShowing(url));
      }
      form := form.(images := RemoveAt(form.images, index));
    }

    /** `handleSubmit`: an invalid form only shows its errors; a valid one is
        sent once, to this product, with its images resolved. */
    method HandleSubmit(reply: Reply<()>) returns (sent: Option<(string, Prepared)>, succeeded: bool)
      requires Valid()
      modifies this
      ensures Valid() && form == old(form) && imageFiles == old(imageFiles) && productId == old(productId)
      ensures !Passes(form) ==> sent.None? && !succeeded
      ensures !Passes(form) ==> forall f :: FieldError(f) in errors <==> Fails(form, f)
      ensures !Passes(form) ==> forall k :: k in errors ==> k.FieldError? && errors[k] == Message(k.field)
      ensures Passes(form) ==> sent.Some? && sent.value.0 == productId
      ensures Passes(form) ==> (sent.value.1 ==
        if HasFiles(UpdatePayload(form, imageFiles))
        then Multipart(FormEntries(UpdatePayload(form, imageFiles)), MULTIPART)
        else Json(UpdatePayload(form, imageFiles)))
      ensures succeeded <==> Passes(form) && reply.Resolved?
      ensures Passes(form) && reply.Resolved? ==> errors == map[]
      ensures Passes(form) && reply.Rejected? ==> errors == map[SubmitError := ErrorText(reply.error, UPDATE_FAILED)]
    {
      var ok;
      errors, ok := Validate(form);
      if !ok {
        return None, false;
      }
      loading := true;
      var prepared := PrepareData(UpdatePayload(form, imageFiles));
      sent := Some((productId, prepared));
      match reply {
        case Resolved(_) =>
          succeeded := true;
        case Rejected(err) =>
          succeeded := false;
          errors := map[SubmitError := ErrorText(err, UPDATE_FAILED)];
      }
      loading := false;
    }
  }
}
