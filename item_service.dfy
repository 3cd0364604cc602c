/** `prepareData` of the item service: an item record is sent as it is,
    unless its `images` hold at least one `File`; then it becomes an ordered
    list of multipart form entries with a `multipart/form-data` header. */
module ItemService {
  import opened Base

  const IMAGES := "images"
  const MULTIPART := "multipart/form-data"

  /** A file the user picked; only its identity matters here. */
  datatype File = File(name: string, size: nat)

  /** An element of `images`: a freshly picked file or the URL of an image
      the backend already stores. */
  datatype Image = FileImage(file: File) | UrlImage(url: string)

  /** A property value of an item record; `NaN` is what `parseInt('')`
      yields. */
  datatype Value = Null | Undefined | NaN | Str(s: string) | Num(n: int) | Images(list: seq<Image>)

  /** A record as `Object.keys` lists it: (key, value) pairs in key order. */
  type Field = (string, Value)
  type Record = seq<Field>

  /** What one `formData.append(key, value)` receives. */
  datatype Part = ImagePart(image: Image) | ValuePart(value: Value)
  type Entry = (string, Part)

  /** Picked files as elements of `images`, in order. */
  function FileImages(files: seq<File>): (r: seq<Image>)
    ensures |r| == |files| && forall i :: 0 <= i < |r| ==> r[i] == FileImage(files[i])
  {
    if files == [] then [] else [FileImage(files[0])] + FileImages(files[1..])
  }

  /** The result of `prepareData`: the record itself, or the form entries
      with the content type to send them under. */
  datatype Prepared = Json(record: Record) | Multipart(entries: seq<Entry>, contentType: string)

  /** Objects never repeat a key. */
  predicate DistinctKeys(r: Record) {
    forall i, j :: 0 <= i < j < |r| ==> r[i].0 != r[j].0
  }

  /** `record[key]`: the value of the first field named `key`, `undefined`
      when there is none. */
  function Get(r: Record, key: string): Value {
    if r == [] then Undefined
    else if r[0].0 == key then r[0].1
    else Get(r[1..], key)
  }

  /** Reading the key of a field that no earlier field shares gives that
      field's value. */
  lemma {:induction false} GetAt(r: Record, i: nat)
    requires i < |r| && forall j :: 0 <= j < i ==> r[j].0 != r[i].0
    ensures Get(r, r[i].0) == r[i].1
  {
    if i > 0 {
      assert r[0].0 != r[i].0;
      assert r[1..][i - 1] == r[i];
      forall j | 0 <= j < i - 1 ensures r[1..][j].0 != r[i].0 {
        assert r[1..][j] == r[j + 1];
      }
      GetAt(r[1..], i - 1);
    }
  }

  /** In a record with distinct keys, reading any field's key gives its
      value. */
  lemma GetIn(r: Record, i: nat)
    requires DistinctKeys(r) && i < |r|
    ensures Get(r, r[i].0) == r[i].1
  {
    GetAt(r, i);
  }

  /** Reading a key no field has gives `undefined`. */
  lemma {:induction false} GetAbsent(r: Record, key: string)
    requires forall i :: 0 <= i < |r| ==> r[i].0 != key
    ensures Get(r, key) == Undefined
  {
    if r != [] {
      assert r[0].0 != key;
      forall i | 0 <= i < |r| - 1 ensures r[1..][i].0 != key {
        assert r[1..][i] == r[i + 1];
      }
      GetAbsent(r[1..], key);
    }
  }

  /** `itemData.images && itemData.images.some(img => img instanceof File)`. */
  predicate HasFiles(r: Record) {
    var v := Get(r, IMAGES);
    v.Images? && exists i :: 0 <= i < |v.list| && v.list[i].FileImage?
  }

  /** With distinct keys, `hasFiles` is decided by the `images` field alone:
      it holds iff that field is present, is a list, and holds a `File`. */
  lemma HasFilesAt(r: Record, i: nat)
    requires DistinctKeys(r) && i < |r| && r[i].0 == IMAGES
    ensures HasFiles(r) <==> r[i].1.Images? && exists k :: 0 <= k < |r[i].1.list| && r[i].1.list[k].FileImage?
  {
    GetIn(r, i);
  }

  /** The entries of one `images` list: one per image, in order, File or
      URL alike. */
  function ImageEntries(images: seq<Image>): seq<Entry> {
    seq(|images|, k requires 0 <= k < |images| => (IMAGES, ImagePart(images[k])))
  }

  /** The entries one field contributes. */
  function FieldEntries(f: Field): seq<Entry> {
    if f.0 == IMAGES then (if f.1.Images? then ImageEntries(f.1.list) else [])
    else if f.1.Null? || f.1.Undefined? then []
    else [(f.0, ValuePart(f.1))]
  }

  /** The entries of the fields of `r`, field after field. */
  function FormEntries(r: Record): seq<Entry> {
    if r == [] then [] else FieldEntries(r[0]) + FormEntries(r[1..])
  }

  /** `prepareData`: the loop over keys, with the inner loop over `images`,
      appends exactly `FormEntries`. */
  method PrepareData(r: Record) returns (p: Prepared)
    ensures !HasFiles(r) ==> p == Json(r)
    ensures HasFiles(r) ==> p == Multipart(FormEntries(r), MULTIPART)
  {
    if !HasFiles(r) {
      return Json(r);
    }
    var entries: seq<Entry> := [];
    var k := 0;
    while k < |r|
      invariant 0 <= k <= |r|
      invariant entries == FormEntries(r[..k])
    {
      var (key, v) := r[k];
      ghost var before := entries;
      if key == IMAGES {
        if v.Images? {
          var j := 0;
          while j < |v.list|
            invariant 0 <= j <= |v.list|
            invariant entries == before + ImageEntries(v.list[..j])
          {
            // Files and the URLs of stored images are appended alike.
            ImageEntriesSnoc(v.list, j);
            entries := entries + [(IMAGES, ImagePart(v.list[j]))];
            j := j + 1;
          }
          assert v.list[..j] == v.list;
        }
      } else if !(v.Null? || v.Undefined?) {
        entries := entries + [(key, ValuePart(v))];
      }
      assert entries == before + FieldEntries(r[k]);
      FormEntriesSnoc(r[..k], r[k]);
      assert r[..k + 1] == r[..k] + [r[k]];
      k := k + 1;
    }
    assert r[..|r|] == r;
    p := Multipart(entries, MULTIPART);
  }

  // ------------------------------------------------------------ lemmas

  /** The entries of consecutive fields follow each other: key order is
      kept. */
  lemma {:induction false} FormEntriesConcat(a: Record, b: Record)
    ensures FormEntries(a + b) == FormEntries(a) + FormEntries(b)
  {
    if a == [] {
      assert a + b == b;
    } else {
      assert (a + b)[1..] == a[1..] + b;
      FormEntriesConcat(a[1..], b);
    }
  }

  /** One more field appends its own entries. */
  lemma FormEntriesSnoc(r: Record, f: Field)
    ensures FormEntries(r + [f]) == FormEntries(r) + FieldEntries(f)
  {
    FormEntriesConcat(r, [f]);
    assert [f][1..] == [];
  }

  /** One more image appends its own entry. */
  lemma ImageEntriesSnoc(images: seq<Image>, j: nat)
    requires j < |images|
    ensures ImageEntries(images[..j + 1]) == ImageEntries(images[..j]) + [(IMAGES, ImagePart(images[j]))]
  {
  }

  /** The selector of entries under one key. */
  function KeyIs(key: string): Entry -> bool {
    (e: Entry) => e.0 == key
  }

  /** Every entry sits under the key of the field that produced it. */
  lemma {:induction false} NoFieldNoEntries(r: Record, key: string)
    requires forall i :: 0 <= i < |r| ==> r[i].0 != key
    ensures Filter(FormEntries(r), KeyIs(key)) == []
  {
    if r != [] {
      forall i | 0 <= i < |r| - 1 ensures r[1..][i].0 != key {
        assert r[1..][i] == r[i + 1];
      }
      NoFieldNoEntries(r[1..], key);
      var head := FieldEntries(r[0]);
      FilterConcat(head, FormEntries(r[1..]), KeyIs(key));
      assert forall k :: 0 <= k < |head| ==> head[k].0 == r[0].0;
      FilterAllOrNone(head, KeyIs(key));
    }
  }

  /** Fields without `key` around one field contribute nothing under
      `key`. */
  lemma FilterAround(before: Record, f: Field, after: Record, key: string)
    requires forall j :: 0 <= j < |before| ==> before[j].0 != key
    requires forall j :: 0 <= j < |after| ==> after[j].0 != key
    ensures Filter(FormEntries(before + [f] + after), KeyIs(key)) == Filter(FieldEntries(f), KeyIs(key))
  {
    FormEntriesConcat(before + [f], after);
    FormEntriesSnoc(before, f);
    NoFieldNoEntries(before, key);
    NoFieldNoEntries(after, key);
    var mine := FieldEntries(f);
    FilterConcat(FormEntries(before) + mine, FormEntries(after), KeyIs(key));
    FilterConcat(FormEntries(before), mine, KeyIs(key));
  }

  /** A field's own entries all sit under its key. */
  lemma FieldEntriesKeyed(f: Field)
    ensures Filter(FieldEntries(f), KeyIs(f.0)) == FieldEntries(f)
  {
    var mine := FieldEntries(f);
    assert forall k :: 0 <= k < |mine| ==> KeyIs(f.0)(mine[k]);
    FilterAllOrNone(mine, KeyIs(f.0));
  }

  /** The entries under the key of field `i` are exactly what that field
      contributes: for `images`, one entry per image in order; for any other
      key, one entry with its value unless it is null or undefined. */
  lemma EntriesOfField(r: Record, i: nat)
    requires DistinctKeys(r) && i < |r|
    ensures Filter(FormEntries(r), KeyIs(r[i].0)) == FieldEntries(r[i])
  {
    var before, after := r[..i], r[i + 1..];
    SplitAt(r, i, before, after);
    FilterAround(before, r[i], after, r[i].0);
    FieldEntriesKeyed(r[i]);
  }

  /** A record with distinct keys is the fields before `i`, field `i`, and
      the fields after it, none of the others sharing its key. */
  lemma SplitAt(r: Record, i: nat, before: Record, after: Record)
    requires DistinctKeys(r) && i < |r| && before == r[..i] && after == r[i + 1..]
    ensures r == before + [r[i]] + after
    ensures forall j :: 0 <= j < |before| ==> before[j].0 != r[i].0
    ensures forall j :: 0 <= j < |after| ==> after[j].0 != r[i].0
  {
    assert r[i..] == [r[i]] + after;
    assert r == before + r[i..];
    assert forall j :: 0 <= j < |after| ==> after[j] == r[i + 1 + j];
  }

  /** The images of the `images` field become the `images` entries, one per
      image and in order, File or URL alike. */
  lemma ImagesInOrder(r: Record, i: nat)
    requires DistinctKeys(r) && i < |r| && r[i].0 == IMAGES && r[i].1.Images?
    ensures var e := Filter(FormEntries(r), KeyIs(IMAGES));
            |e| == |r[i].1.list| && forall k :: 0 <= k < |e| ==> e[k] == (IMAGES, ImagePart(r[i].1.list[k]))
  {
    EntriesOfField(r, i);
  }

  /** Any other field yields one entry carrying its value, unless the value
      is null or undefined, in which case it yields none. */
  lemma OtherFieldOnce(r: Record, i: nat)
    requires DistinctKeys(r) && i < |r| && r[i].0 != IMAGES
    ensures Filter(FormEntries(r), KeyIs(r[i].0))
            == if r[i].1.Null? || r[i].1.Undefined? then [] else [(r[i].0, ValuePart(r[i].1))]
  {
    EntriesOfField(r, i);
  }
}
