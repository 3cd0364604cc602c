/** Values and string operations of the browser runtime that the pages rely on:
    optional values, the outcome of a service call, and the handful of
    `String`/`Array` methods the handlers use (`||` on strings, `trim`,
    `toLowerCase`, `includes`, `startsWith`, `join`, `filter`). */
module Base {

  datatype Option<+T> = None | Some(value: T) {
    function GetOr(default: T): T {
      match this
      case Some(v) => v
      case None => default
    }
  }

  /** What a rejected service call throws: the backend's `message` ("" when it
      is missing or empty, both falsy) and, when the backend sent an `errors`
      array, the `msg` of each of its entries in arrival order. */
  datatype Thrown = Thrown(message: string, errors: Option<seq<string>>)

  /** The settled outcome of one awaited service call. */
  datatype Reply<+T> = Resolved(value: T) | Rejected(error: Thrown)

  /** `s || fallback` for a string `s`: the empty string is falsy. */
  function Or(s: string, fallback: string): (r: string)
    ensures r == s || r == fallback
    ensures r != "" <== s != "" || fallback != ""
  {
    if s == "" then fallback else s
  }

  /** The message a form shows for a rejected call: the `msg`s of an `errors`
      array joined with ", ", otherwise the message, otherwise the fallback. */
  function ErrorText(err: Thrown, fallback: string): (r: string)
    ensures err.errors.None? ==> r == err.message || r == fallback
    ensures err.errors.None? && fallback != "" ==> r != ""
    ensures err.errors.Some? ==> r == JoinWith(err.errors.value, ", ")
    ensures err.errors.Some? && |err.errors.value| == 1 ==> r == err.errors.value[0]
  {
    match err.errors
    case Some(msgs) => JoinWith(msgs, ", ")
    case None => Or(err.message, fallback)
  }

  /** `n || ''` for a number: 0 and a missing number both become the empty
      input. */
  function OrEmpty(n: Option<int>): (r: Option<int>)
    ensures r.Some? <==> n.Some? && n.value != 0
    ensures r.Some? ==> r == n
  {
    if n.Some? && n.value != 0 then n else None
  }

  // ---------------------------------------------------------------- trim

  /** The characters `String.prototype.trim` removes: tab, vertical tab,
      form feed, the byte-order mark, every space separator (category Zs),
      and the four line terminators. */
  predicate IsSpace(c: char) {
    c == '\t' || c == '\U{000B}' || c == '\U{000C}' || c == '\U{FEFF}'
    || c == ' ' || c == '\U{00A0}' || c == '\U{1680}' || '\U{2000}' <= c <= '\U{200A}'
    || c == '\U{202F}' || c == '\U{205F}' || c == '\U{3000}'
    || c == '\n' || c == '\r' || c == '\U{2028}' || c == '\U{2029}'
  }

  /** Every character of `s` is white space (so `!s.trim()` holds). */
  predicate Blank(s: string) {
    forall i :: 0 <= i < |s| ==> IsSpace(s[i])
  }

  function TrimStart(s: string): (r: string)
    ensures |r| <= |s| && r == s[|s| - |r|..]
    ensures r == "" <==> Blank(s)
    ensures r != "" ==> !IsSpace(r[0])
  {
    if s == [] then s
    else if IsSpace(s[0]) then TrimStart(s[1..])
    else s
  }

  function TrimEnd(s: string): (r: string)
    ensures |r| <= |s| && r == s[..|r|]
    ensures r == "" <==> Blank(s)
    ensures r != "" ==> !IsSpace(r[|r| - 1])
  {
    if s == [] then s
    else if IsSpace(s[|s| - 1]) then TrimEnd(s[..|s| - 1])
    else s
  }

  /** `s.trim()`: a contiguous slice of `s` with no white space at either end;
      empty exactly when `s` is blank. */
  function Trim(s: string): (r: string)
    ensures |r| <= |s|
    ensures r == "" <==> Blank(s)
    ensures r != "" ==> !IsSpace(r[0]) && !IsSpace(r[|r| - 1])
    ensures exists i: nat :: OccursAt(s, r, i)
  {
    var t := TrimStart(s);
    var r := TrimEnd(t);
    assert r != "" ==> r[0] == t[0];
    assert OccursAt(s, r, |s| - |t|);
    r
  }

  /** `!s.trim()`: nothing is left once white space is trimmed. */
  method TrimsToEmpty(s: string) returns (empty: bool)
    ensures empty <==> Blank(s)
  {
    empty := Trim(s) == "";
  }

  // ---------------------------------------------------- case and search

  /** ASCII `toLowerCase` of one character. */
  function LowerChar(c: char): char {
    if 'A' <= c <= 'Z' then (c as int - 'A' as int + 'a' as int) as char else c
  }

  /** `s.toLowerCase()`, restricted to ASCII letters. */
  function Lower(s: string): (r: string)
    ensures |r| == |s|
    ensures forall i :: 0 <= i < |s| ==> r[i] == LowerChar(s[i])
    ensures forall i :: 0 <= i < |r| ==> !('A' <= r[i] <= 'Z')
  {
    if s == [] then [] else [LowerChar(s[0])] + Lower(s[1..])
  }

  /** Lower-casing twice is lower-casing once. */
  lemma {:induction false} LowerTwice(s: string)
    ensures Lower(Lower(s)) == Lower(s)
  {
    var r := Lower(s);
    assert forall i :: 0 <= i < |r| ==> LowerChar(r[i]) == r[i];
  }

  /** `needle` sits in `hay` starting at position `i`. */
  predicate OccursAt(hay: string, needle: string, i: nat) {
    i + |needle| <= |hay| && hay[i..i + |needle|] == needle
  }

  /** `hay.includes(needle)`: `needle` occurs in `hay` at some position. */
  predicate Contains(hay: string, needle: string) {
    exists i: nat | i <= |hay| :: OccursAt(hay, needle, i)
  }

  /** `s.startsWith(prefix)`. */
  predicate StartsWith(s: string, prefix: string) {
    |prefix| <= |s| && s[..|prefix|] == prefix
  }

  // ------------------------------------------------------------- join

  /** `parts.join(sep)`. */
  function JoinWith(parts: seq<string>, sep: string): string
  {
    if |parts| == 0 then ""
    else if |parts| == 1 then parts[0]
    else parts[0] + sep + JoinWith(parts[1..], sep)
  }

  /** Joining keeps arrival order: one more part lands at the end, after one
      separator. */
  lemma {:induction false} JoinWithAppend(parts: seq<string>, last: string, sep: string)
    requires |parts| > 0
    ensures JoinWith(parts + [last], sep) == JoinWith(parts, sep) + sep + last
  {
    if |parts| == 1 {
      assert (parts + [last])[1..] == [last];
    } else {
      assert (parts + [last])[1..] == parts[1..] + [last];
      JoinWithAppend(parts[1..], last, sep);
    }
  }

  /** `cells.join('')`. */
  function Concat(cells: seq<string>): string
  {
    if cells == [] then "" else cells[0] + Concat(cells[1..])
  }

  /** With cells of at most one character each, the joined string is exactly
      as long as the number of cells precisely when no cell is empty. */
  lemma {:induction false} ConcatFull(cells: seq<string>)
    requires forall i :: 0 <= i < |cells| ==> |cells[i]| <= 1
    ensures |Concat(cells)| <= |cells|
    ensures |Concat(cells)| == |cells| <==> forall i :: 0 <= i < |cells| ==> cells[i] != ""
  {
    if cells != [] {
      ConcatFull(cells[1..]);
      if |Concat(cells)| == |cells| {
        forall i | 0 <= i < |cells| ensures cells[i] != "" {
          if i > 0 { assert cells[1..][i - 1] == cells[i]; }
        }
      }
      if forall i :: 0 <= i < |cells| ==> cells[i] != "" {
        assert forall i :: 0 <= i < |cells[1..]| ==> cells[1..][i] == cells[i + 1];
      }
    }
  }

  /** `s.filter((_, i) => i !== index)`: position `index` is dropped and the
      rest keep their order; an index outside `s` drops nothing. */
  function RemoveAt<T>(s: seq<T>, index: int): (r: seq<T>)
    ensures 0 <= index < |s| ==> |r| == |s| - 1
    ensures 0 <= index < |s| ==> forall j :: 0 <= j < index ==> r[j] == s[j]
    ensures 0 <= index < |s| ==> forall j :: index <= j < |r| ==> r[j] == s[j + 1]
    ensures !(0 <= index < |s|) ==> r == s
  {
    if 0 <= index < |s| then s[..index] + s[index + 1..] else s
  }

  // ----------------------------------------------------------- filter

  /** `s.filter(p)`: the elements that satisfy `p`, in their original order. */
  function Filter<T>(s: seq<T>, p: T -> bool): seq<T>
  {
    if s == [] then []
    else (if p(s[0]) then [s[0]] else []) + Filter(s[1..], p)
  }

  /** A filter keeps exactly the elements that satisfy the predicate, and
      never grows the sequence. */
  lemma {:induction false} FilterMembers<T>(s: seq<T>, p: T -> bool)
    ensures |Filter(s, p)| <= |s|
    ensures forall x :: x in Filter(s, p) <==> x in s && p(x)
  {
    if s != [] {
      FilterMembers(s[1..], p);
      assert forall x :: x in s <==> x == s[0] || x in s[1..];
    }
  }

  /** Filtering with a predicate every element satisfies changes nothing;
      a filter leaves nothing exactly when no element satisfies it. */
  lemma {:induction false} FilterAllOrNone<T>(s: seq<T>, p: T -> bool)
    ensures (forall i :: 0 <= i < |s| ==> p(s[i])) ==> Filter(s, p) == s
    ensures Filter(s, p) == [] <==> forall i :: 0 <= i < |s| ==> !p(s[i])
  {
    if s != [] {
      FilterAllOrNone(s[1..], p);
      assert forall i :: 1 <= i < |s| ==> s[1..][i - 1] == s[i];
    }
  }

  /** Filtering a sequence with one more element in front. */
  lemma FilterCons<T>(x: T, s: seq<T>, p: T -> bool)
    ensures Filter([x] + s, p) == (if p(x) then [x] else []) + Filter(s, p)
  {
    assert ([x] + s)[1..] == s;
  }

  /** Filtering six elements, one at a time. */
  lemma FilterSix<T>(a: T, b: T, c: T, d: T, e: T, f: T, p: T -> bool)
    ensures Filter([a] + ([b] + ([c] + ([d] + ([e] + [f])))), p) ==
      (if p(a) then [a] else []) + ((if p(b) then [b] else []) + ((if p(c) then [c] else [])
      + ((if p(d) then [d] else []) + ((if p(e) then [e] else []) + (if p(f) then [f] else [])))))
  {
    var s4 := [e] + [f];
    var s3 := [d] + s4;
    var s2 := [c] + s3;
    var s1 := [b] + s2;
    calc {
      Filter([a] + s1, p);
      { FilterCons(a, s1, p); }
      (if p(a) then [a] else []) + Filter(s1, p);
      { FilterCons(b, s2, p); }
      (if p(a) then [a] else []) + ((if p(b) then [b] else []) + Filter(s2, p));
      { FilterCons(c, s3, p); }
      (if p(a) then [a] else []) + ((if p(b) then [b] else []) + ((if p(c) then [c] else []) + Filter(s3, p)));
      { FilterCons(d, s4, p); FilterCons(e, [f], p); FilterCons(f, [], p); assert [f] == [f] + []; }
      (if p(a) then [a] else []) + ((if p(b) then [b] else []) + ((if p(c) then [c] else [])
      + ((if p(d) then [d] else []) + ((if p(e) then [e] else []) + (if p(f) then [f] else [])))));
    }
  }

  /** Filtering distributes over concatenation, which is what "order is
      preserved" means for a filter. */
  lemma {:induction false} FilterConcat<T>(a: seq<T>, b: seq<T>, p: T -> bool)
    ensures Filter(a + b, p) == Filter(a, p) + Filter(b, p)
  {
    if a != [] {
      assert (a + b)[1..] == a[1..] + b;
      FilterConcat(a[1..], b, p);
    } else {
      assert a + b == b;
    }
  }
}
