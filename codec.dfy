/**
 * The conversions every message type of the API is built from: numbers,
 * strings, vectors and fixed arrays, record fields (required and
 * optional), and the tagged-union convention, in which a value of case
 * `L` is the object `{"L": payload}` and decoding looks only at the first
 * item of the object.
 */
module Codec {
  import opened Wrappers
  import opened Json

  /** The exceptions a conversion can throw. */
  datatype Error =
    | InvalidDefaultVariant     // encoding or copying the `Invalid` case
    | InvalidVariant            // a C-like tag outside its enumeration
    | InvalidJson               // decoding a union from a value with no items
    | TypeMismatch              // the library's type_error: wrong JSON type
    | KeyNotFound(key: string)  // the library's out_of_range from `at(key)`
    | IndexOutOfRange(index: nat)  // the library's out_of_range from `at(index)`

  type Outcome<T> = Result<T, Error>

  type u8 = x: int | 0 <= x < 0x100
  type u16 = x: int | 0 <= x < 0x1_0000
  type u32 = x: int | 0 <= x < 0x1_0000_0000
  type u64 = x: int | 0 <= x < 0x1_0000_0000_0000_0000

  /** A cast from floating point to an integer drops the fraction. */
  function Truncate(r: real): int
  {
    if r >= 0.0 then r.Floor else -((-r).Floor)
  }

  /**
   * The integer a JSON number converts to. Booleans convert to 0 or 1 for
   * the narrow unsigned types and `float`, but not for 64-bit values or
   * enumerations.
   */
  function IntegerOf(j: Json, booleans: bool): Outcome<int>
  {
    match j
    case Int(i) => Ok(i)
    case Float(r) => Ok(Truncate(r))
    case Bool(b) => if booleans then Ok(if b then 1 else 0) else Err(TypeMismatch)
    case _ => Err(TypeMismatch)
  }

  /**
   * Reading an unsigned field: the conversion keeps the low bits of the
   * integer, of a float's integer part, or of a boolean's 0 or 1, so a
   * value out of range wraps around (256 reads as 0, -1 as 255).
   */
  function U8FromJson(j: Json): (r: Outcome<u8>)
    ensures r.Ok? <==> (j.Int? || j.Float? || j.Bool?)
    ensures j.Int? && 0 <= j.i < 0x100 ==> r == Ok(j.i)
    ensures j.Int? ==> r == Ok(j.i % 0x100)
    ensures j.Float? ==> r == Ok(Truncate(j.r) % 0x100)
    ensures j.Bool? ==> r == Ok(if j.b then 1 else 0)
  {
    var n :- IntegerOf(j, true);
    Ok(n % 0x100)
  }

  function U16FromJson(j: Json): (r: Outcome<u16>)
    ensures r.Ok? <==> (j.Int? || j.Float? || j.Bool?)
    ensures j.Int? && 0 <= j.i < 0x1_0000 ==> r == Ok(j.i)
    ensures j.Int? ==> r == Ok(j.i % 0x1_0000)
    ensures j.Float? ==> r == Ok(Truncate(j.r) % 0x1_0000)
    ensures j.Bool? ==> r == Ok(if j.b then 1 else 0)
  {
    var n :- IntegerOf(j, true);
    Ok(n % 0x1_0000)
  }

  function U32FromJson(j: Json): (r: Outcome<u32>)
    ensures r.Ok? <==> (j.Int? || j.Float? || j.Bool?)
    ensures j.Int? && 0 <= j.i < 0x1_0000_0000 ==> r == Ok(j.i)
    ensures j.Int? ==> r == Ok(j.i % 0x1_0000_0000)
    ensures j.Float? ==> r == Ok(Truncate(j.r) % 0x1_0000_0000)
    ensures j.Bool? ==> r == Ok(if j.b then 1 else 0)
  {
    var n :- IntegerOf(j, true);
    Ok(n % 0x1_0000_0000)
  }

  function U64FromJson(j: Json): (r: Outcome<u64>)
    ensures r.Ok? <==> (j.Int? || j.Float?)
    ensures j.Int? && 0 <= j.i < 0x1_0000_0000_0000_0000 ==> r == Ok(j.i)
    ensures j.Int? ==> r == Ok(j.i % 0x1_0000_0000_0000_0000)
    ensures j.Float? ==> r == Ok(Truncate(j.r) % 0x1_0000_0000_0000_0000)
  {
    var n :- IntegerOf(j, false);
    Ok(n % 0x1_0000_0000_0000_0000)
  }

  /** Enumerations travel as their unsigned numeric value. */
  function EnumFromJson(j: Json): (r: Outcome<u32>)
    ensures r.Ok? <==> (j.Int? || j.Float?)
    ensures j.Int? && 0 <= j.i < 0x1_0000_0000 ==> r == Ok(j.i)
    ensures j.Int? ==> r == Ok(j.i % 0x1_0000_0000)
    ensures j.Float? ==> r == Ok(Truncate(j.r) % 0x1_0000_0000)
  {
    var n :- IntegerOf(j, false);
    Ok(n % 0x1_0000_0000)
  }

  function FloatFromJson(j: Json): (r: Outcome<real>)
    ensures r.Ok? <==> (j.Int? || j.Float? || j.Bool?)
    ensures j.Float? ==> r == Ok(j.r)
  {
    match j
    case Int(i) => Ok(i as real)
    case Float(r) => Ok(r)
    case Bool(b) => Ok(if b then 1.0 else 0.0)
    case _ => Err(TypeMismatch)
  }

  function BoolFromJson(j: Json): (r: Outcome<bool>)
    ensures r.Ok? <==> j.Bool?
    ensures r.Ok? ==> r.value == j.b
  {
    if j.Bool? then Ok(j.b) else Err(TypeMismatch)
  }

  function StringFromJson(j: Json): (r: Outcome<string>)
    ensures r.Ok? <==> j.Str?
    ensures r.Ok? ==> r.value == j.s
  {
    if j.Str? then Ok(j.s) else Err(TypeMismatch)
  }

  function U32ToJson(x: u32): Outcome<Json>
  {
    Ok(Int(x))
  }

  // ----- vectors and fixed arrays -----

  function EncodeEach<T>(s: seq<T>, enc: T -> Outcome<Json>): (r: Outcome<seq<Json>>)
    ensures r.Ok? ==> |r.value| == |s|
  {
    if |s| == 0 then Ok([])
    else
      var head :- enc(s[0]);
      var tail :- EncodeEach(s[1..], enc);
      Ok([head] + tail)
  }

  /** Decodes elements front to back; the first failure is the result. */
  function DecodeEach<T>(a: seq<Json>, dec: Json -> Outcome<T>): (r: Outcome<seq<T>>)
    ensures r.Ok? ==> |r.value| == |a|
  {
    if |a| == 0 then Ok([])
    else
      var head :- dec(a[0]);
      var tail :- DecodeEach(a[1..], dec);
      Ok([head] + tail)
  }

  /** A `std::vector` is a JSON array of its elements. */
  function SeqToJson<T>(s: seq<T>, enc: T -> Outcome<Json>): Outcome<Json>
  {
    var elems :- EncodeEach(s, enc);
    Ok(Arr(elems))
  }

  function SeqFromJson<T>(j: Json, dec: Json -> Outcome<T>): Outcome<seq<T>>
  {
    if j.Arr? then DecodeEach(j.elems, dec) else Err(TypeMismatch)
  }

  /** Encoding a vector fails exactly when encoding one of its elements fails. */
  lemma {:induction false} EncodeEachOk<T>(s: seq<T>, enc: T -> Outcome<Json>)
    ensures EncodeEach(s, enc).Ok? <==> forall i :: 0 <= i < |s| ==> enc(s[i]).Ok?
    ensures EncodeEach(s, enc).Ok? ==> forall i :: 0 <= i < |s| ==> EncodeEach(s, enc).value[i] == enc(s[i]).value
  {
    if |s| > 0 {
      EncodeEachOk(s[1..], enc);
      assert forall i :: 1 <= i < |s| ==> s[1..][i - 1] == s[i];
    }
  }

  lemma {:induction false} DecodeEachInverts<T>(s: seq<T>, a: seq<Json>, dec: Json -> Outcome<T>)
    requires |a| == |s|
    requires forall i :: 0 <= i < |s| ==> dec(a[i]) == Ok(s[i])
    ensures DecodeEach(a, dec) == Ok(s)
  {
    if |s| > 0 {
      DecodeEachInverts(s[1..], a[1..], dec);
      assert s == [s[0]] + s[1..];
    }
  }

  /** A vector reads back as written when each element does. */
  lemma SeqRoundTrip<T>(s: seq<T>, enc: T -> Outcome<Json>, dec: Json -> Outcome<T>)
    requires forall i :: 0 <= i < |s| ==> enc(s[i]).Ok? && dec(enc(s[i]).value) == Ok(s[i])
    ensures SeqToJson(s, enc).Ok?
    ensures SeqFromJson(SeqToJson(s, enc).value, dec) == Ok(s)
  {
    EncodeEachOk(s, enc);
    DecodeEachInverts(s, EncodeEach(s, enc).value, dec);
  }

  /**
   * A C array of `n` elements read with `at(i)` for `i` below `n`: the
   * value must be an array of at least `n` elements, and elements beyond
   * the first `n` are ignored.
   */
  function FixedFromJson<T>(j: Json, n: nat, dec: Json -> Outcome<T>): (r: Outcome<seq<T>>)
    requires n > 0
    ensures r.Ok? ==> |r.value| == n
  {
    if !j.Arr? then Err(TypeMismatch)
    else if |j.elems| < n then
      var _ :- DecodeEach(j.elems, dec);
      Err(IndexOutOfRange(|j.elems|))
    else DecodeEach(j.elems[..n], dec)
  }

  lemma FixedRoundTrip<T>(s: seq<T>, enc: T -> Outcome<Json>, dec: Json -> Outcome<T>)
    requires |s| > 0
    requires forall i :: 0 <= i < |s| ==> enc(s[i]).Ok? && dec(enc(s[i]).value) == Ok(s[i])
    ensures SeqToJson(s, enc).Ok?
    ensures FixedFromJson(SeqToJson(s, enc).value, |s|, dec) == Ok(s)
  {
    EncodeEachOk(s, enc);
    var a := EncodeEach(s, enc).value;
    assert a[..|s|] == a;
    DecodeEachInverts(s, a, dec);
  }

  // ----- record fields -----

  /** `j.at(k)`: only objects have keys, and a missing key is an error. */
  function At(j: Json, k: string): (r: Outcome<Json>)
    ensures r.Ok? <==> Get(j, k).Some?
    ensures r.Ok? ==> r.value == Get(j, k).value
    ensures !j.Obj? ==> r == Err(TypeMismatch)
    ensures j.Obj? && Get(j, k).None? ==> r == Err(KeyNotFound(k))
  {
    if !j.Obj? then Err(TypeMismatch)
    else if Get(j, k).None? then Err(KeyNotFound(k))
    else Ok(Get(j, k).value)
  }

  /**
   * An optional field whose current value is `prior`: a key that is not
   * there leaves it as it was, `null` clears it, anything else is decoded.
   */
  function OptionalAt<T>(j: Json, k: string, prior: Option<T>, dec: Json -> Outcome<T>): (r: Outcome<Option<T>>)
    ensures Get(j, k).None? ==> r == Ok(prior)
    ensures Get(j, k) == Some(Null) ==> r == Ok(None)
    ensures Get(j, k).Some? && !Get(j, k).value.Null? ==>
      (r.Ok? <==> dec(Get(j, k).value).Ok?) && (r.Ok? ==> r == Ok(Some(dec(Get(j, k).value).value)))
  {
    match Get(j, k)
    case None => Ok(prior)
    case Some(x) =>
      if x.Null? then Ok(None)
      else
        var t :- dec(x);
        Ok(Some(t))
  }

  /**
   * The encoding of a payload without fields: `{"<name>": null}`. The `{}`
   * inside `nlohmann::json{ { "<name>", {} } }` value-initialises one
   * element of the initializer list, which is a null value.
   */
  function MarkerJson(name: string): Json
  {
    Obj([(name, Null)])
  }

  // ----- tagged unions -----

  /** No label occurs twice. */
  predicate Distinct(labels: seq<string>)
  {
    forall i, k :: 0 <= i < k < |labels| ==> labels[i] != labels[k]
  }

  /**
   * The index of the last label equal to `key`: a union's `from_json`
   * tests every label in turn, so with repeated labels the last one wins.
   */
  function LastIndexOf(labels: seq<string>, key: string): (r: Option<nat>)
    ensures r.Some? ==> r.value < |labels| && labels[r.value] == key
    ensures r.Some? ==> forall k :: r.value < k < |labels| ==> labels[k] != key
    ensures r.None? <==> forall k :: 0 <= k < |labels| ==> labels[k] != key
  {
    if |labels| == 0 then None
    else if labels[|labels| - 1] == key then Some(|labels| - 1)
    else LastIndexOf(labels[..|labels| - 1], key)
  }

  /** What a union's `from_json` does with the items of `j`. */
  datatype Selection =
    | NoItems                               // no items: "invalid json"
    | Unlabelled                            // first key is no label: value unchanged
    | Selected(index: nat, payload: Json)   // first key is label `index` (from 1)

  /** Only the first item counts; its key picks the case. */
  function Select(labels: seq<string>, j: Json): (s: Selection)
    ensures s.Selected? ==> 1 <= s.index <= |labels|
  {
    var items := Items(j);
    if |items| == 0 then NoItems
    else
      match LastIndexOf(labels, items[0].0)
      case None => Unlabelled
      case Some(k) => Selected(k + 1, items[0].1)
  }

  /**
   * The loop of a union's `from_json`: the body runs for the first item and
   * returns, after testing the item's key against every label.
   */
  method SelectCase(labels: seq<string>, j: Json) returns (s: Selection)
    ensures s == Select(labels, j)
  {
    var items := Items(j);
    if |items| == 0 {
      return NoItems;
    }
    var (key, value) := items[0];
    s := Unlabelled;
    for k := 0 to |labels|
      invariant s == match LastIndexOf(labels[..k], key)
                     case None => Unlabelled
                     case Some(i) => Selected(i + 1, value)
    {
      assert labels[..k + 1][..k] == labels[..k];
      if key == labels[k] {
        s := Selected(k + 1, value);
      }
    }
    assert labels[..|labels|] == labels;
  }

  /** The object a union writes for case `index` is read back as that case. */
  lemma SelectEncoded(labels: seq<string>, index: nat, payload: Json)
    requires Distinct(labels) && 1 <= index <= |labels|
    ensures Select(labels, Obj([(labels[index - 1], payload)])) == Selected(index, payload)
  {
  }

  /** Only the first item matters: later members never change the outcome. */
  lemma SelectFirstItemOnly(labels: seq<string>, key: string, payload: Json, rest: seq<(string, Json)>)
    ensures Select(labels, Obj([(key, payload)] + rest)) == Select(labels, Obj([(key, payload)]))
  {
  }

  /**
   * In a well-formed object the first item has the least key, so a union
   * sent several keys decodes the one that sorts first.
   */
  lemma SelectLeastKey(labels: seq<string>, j: Json, k: string)
    requires j.Obj? && WellFormed(j) && |j.members| > 0
    requires Get(j, k).Some?
    requires Select(labels, j).Selected?
    ensures labels[Select(labels, j).index - 1] == k || KeyLess(labels[Select(labels, j).index - 1], k)
  {
    if Items(j)[0].0 != k {
      FirstItemHasLeastKey(j, k);
    }
  }
}
