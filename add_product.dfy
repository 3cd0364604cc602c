/** The "add product" modal: the form, its errors, and the picked files kept
    in step with their previews (at most ten), submitted as a new,
    unpublished item. */
module AddProduct {
  import opened Base
  import opened ItemService
  import opened ProductForm
  import Catalog

  const MAX_IMAGES: nat := 10
  const CREATE_FAILED := "Failed to create product"

  /** `.slice(0, 10)`: the first ten files, or all of them. */
  function Capped(files: seq<File>): (r: seq<File>)
    ensures |r| == if |files| < MAX_IMAGES then |files| else MAX_IMAGES
    ensures r == files[..|r|]
  {
    if |files| <= MAX_IMAGES then files else files[..MAX_IMAGES]
  }

  /** `productData` of `handleSubmit`: the form with the picked files as its
      images and status 'unpublished'. */
  function CreatePayload(form: Form, files: seq<File>): Record
    requires Passes(form)
  {
    Payload(form, FileImages(files), Some(Catalog.UNPUBLISHED))
  }

  /** A created product is always unpublished, carries the picked files in
      order, and goes out as multipart exactly when a file was picked. */
  lemma CreatePayloadShape(form: Form, files: seq<File>)
    requires Passes(form)
    ensures var r := CreatePayload(form, files);
      && DistinctKeys(r)
      && Get(r, "status") == Str(Catalog.UNPUBLISHED)
      && Get(r, IMAGES) == Images(FileImages(files))
      && (HasFiles(r) <==> |files| > 0)
  {
    PayloadShape(form, FileImages(files), Some(Catalog.UNPUBLISHED));
    if |files| > 0 {
      assert FileImages(files)[0].FileImage?;
    }
  }

  class AddProductModal {
    var form: Form
    var errors: Errors
    var loading: bool
    var imageFiles: seq<File>

    /** One preview per picked file, at most ten files, and no request in
        flight between two handlers. */
    ghost predicate Valid()
      reads this
    {
      |form.images| == |imageFiles| <= MAX_IMAGES && !loading
    }

    constructor ()
      ensures Valid()
      ensures form == INITIAL && errors == map[] && imageFiles == []
    {
      form := INITIAL;
      errors := map[];
      loading := false;
      imageFiles := [];
    }

    /** `handleChange`: only the named field changes, and only its error is
        blanked. */
    method HandleChange(f: FieldName, v: FieldValue)
      requires Valid() && Fits(f, v)
      modifies this
      ensures Valid()
      ensures form == With(old(form), f, v) && errors == ClearOnChange(old(errors), f)
      ensures imageFiles == old(imageFiles)
    {
      form := With(form, f, v);
      errors := ClearOnChange(errors, f);
    }

    /** `handleImageChange`: the new files join the old ones, the list is cut
        to ten, and every kept file gets a fresh preview URL (`previews`, one
        per kept file, from `URL.createObjectURL`). */
    method HandleImageChange(files: seq<File>, previews: seq<string>)
      requires Valid() && |previews| == |Capped(imageFiles + files)|
      modifies this
      ensures Valid()
      ensures imageFiles == Capped(old(imageFiles) + files)
      ensures form == old(form).(images := previews) && errors == old(errors)
    {
      imageFiles := Capped(imageFiles + files);
      form := form.(images := previews);
    }

    /** `removeImage(index)`: the same position leaves both lists. */
    method RemoveImage(index: int)
      requires Valid()
      modifies this
      ensures Valid()
      ensures imageFiles == RemoveAt(old(imageFiles), index)
      ensures form == old(form).(images := RemoveAt(old(form.images), index)) && errors == old(errors)
    {
      imageFiles := RemoveAt(imageFiles, index);
      form := form.(images := RemoveAt(form.images, index));
    }

    /** `handleSubmit`: an invalid form only shows its errors and sends
        nothing; a valid one is sent once through `prepareData`, after which
        either the parent is told of the success or the submit error is
        shown. The form and the files stay as they were. */
    method HandleSubmit(reply: Reply<()>) returns (sent: Option<Prepared>, succeeded: bool)
      requires Valid()
      modifies this
      ensures Valid() && form == old(form) && imageFiles == old(imageFiles)
      ensures !Passes(form) ==> sent.None? && !succeeded
      ensures !Passes(form) ==> forall f :: FieldError(f) in errors <==> Fails(form, f)
      ensures !Passes(form) ==> forall k :: k in errors ==> k.FieldError? && errors[k] == Message(k.field)
      ensures Passes(form) ==> sent == Some(
        if HasFiles(CreatePayload(form, imageFiles))
        then Multipart(FormEntries(CreatePayload(form, imageFiles)), MULTIPART)
        else Json(CreatePayload(form, imageFiles)))
      ensures succeeded <==> Passes(form) && reply.Resolved?
      ensures Passes(form) && reply.Resolved? ==> errors == map[]
      ensures Passes(form) && reply.Rejected? ==> errors == map[SubmitError := ErrorText(reply.error, CREATE_FAILED)]
    {
      var ok;
      errors, ok := Validate(form);
      if !ok {
        return None, false;
      }
      loading := true;
      var prepared := PrepareData(CreatePayload(form, imageFiles));
      sent := Some(prepared);
      match reply {
        case Resolved(_) =>
          succeeded := true;
        case Rejected(err) =>
          succeeded := false;
          errors := map[SubmitError := ErrorText(err, CREATE_FAILED)];
      }
      loading := false;
    }
  }
}
