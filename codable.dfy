/// JSON values as Swift's `JSONDecoder` hands them to a `Decodable` initialiser,
/// and the keyed-container operations that every record decoder of the app is
/// written with: `decode(_:forKey:)`, `decodeIfPresent(_:forKey:)` and `try?`.
module Codable {

  datatype Option<+T> = None | Some(value: T) {
    /// Swift's `??`
    function GetOr(default: T): T {
      if Some? then value else default
    }
  }

  /// The error a `Decodable` initialiser throws.  The key names the coding key
  /// the error is reported for ("" when it is about the value itself).
  datatype DecodeError =
    | KeyNotFound(key: string)
    | ValueNotFound(key: string)
    | TypeMismatch(key: string)
    | DataCorrupted(key: string)

  /// What a throwing decoder returns: a value, or the error it throws.
  datatype Result<+T> = Ok(value: T) | Err(error: DecodeError) {
    predicate IsFailure() {
      Err?
    }

    function PropagateFailure<U>(): Result<U>
      requires Err?
    {
      Err(error)
    }

    function Extract(): T
      requires Ok?
    {
      value
    }
  }

  /// A JSON value.  A number literal written without fraction or exponent is a
  /// `JInt`, any other number literal a `JNum`; Swift decodes both as `Double`.
  datatype Json =
    | JNull
    | JBool(b: bool)
    | JInt(i: int)
    | JNum(r: real)
    | JStr(s: string)
    | JArr(items: seq<Json>)
    | JObj(fields: map<string, Json>)

  /// Swift's `Int` and `UInt` on a 64-bit platform.
  type Int64 = i: int | -0x8000_0000_0000_0000 <= i < 0x8000_0000_0000_0000
  type UInt64 = n: int | 0 <= n < 0x1_0000_0000_0000_0000

  /// A Foundation `Date`, as seconds since 1970-01-01 00:00:00 UTC.
  datatype Date = Date(since1970: real)

  /// The Foundation services the decoders call and this model does not
  /// interpret: `Double(String)`, `UInt(String)`, `UUID(uuidString:)` followed
  /// by `.uuidString`, `ISO8601DateFormatter` in both directions, a
  /// `DateFormatter` with format `yyyy-MM-dd HH:mm:ss` in locale `en_US_POSIX`,
  /// and an error's `localizedDescription`.
  datatype Foundation = Foundation(
    parseDouble: string -> Option<real>,
    parseUInt: string -> Option<UInt64>,
    parseUuid: string -> Option<string>,
    parseIso8601: string -> Option<Date>,
    formatIso8601: Date -> string,
    parsePosixDate: string -> Option<Date>,
    describe: DecodeError -> string)

  // ---------------------------------------------------------------------------
  // Single values: what `decode(T.self)` accepts for each primitive type T.

  function AsString(j: Json): (r: Option<string>)
    ensures r.Some? <==> j.JStr?
    ensures r.Some? ==> r.value == j.s
  {
    if j.JStr? then Some(j.s) else None
  }

  function AsBool(j: Json): (r: Option<bool>)
    ensures r.Some? <==> j.JBool?
    ensures r.Some? ==> r.value == j.b
  {
    if j.JBool? then Some(j.b) else None
  }

  /// `Double` accepts every JSON number, integral or not.
  function AsDouble(j: Json): (r: Option<real>)
    ensures r.Some? <==> j.JNum? || j.JInt?
    ensures j.JNum? ==> r == Some(j.r)
    ensures j.JInt? ==> r == Some(j.i as real)
  {
    match j
    case JNum(x) => Some(x)
    case JInt(i) => Some(i as real)
    case _ => None
  }

  predicate IsIntegral(x: real) {
    x == x.Floor as real
  }

  /// `Int` accepts a number whose value is a whole number that fits in 64 bits.
  function AsInt(j: Json): (r: Option<Int64>)
    ensures j.JInt? ==> (r.Some? <==> -0x8000_0000_0000_0000 <= j.i < 0x8000_0000_0000_0000)
    ensures j.JInt? && r.Some? ==> r.value == j.i
    ensures r.Some? ==> j.JInt? || j.JNum?
  {
    match j
    case JInt(i) =>
      if -0x8000_0000_0000_0000 <= i < 0x8000_0000_0000_0000 then Some(i) else None
    case JNum(x) =>
      if IsIntegral(x) && -0x8000_0000_0000_0000 <= x.Floor < 0x8000_0000_0000_0000 then Some(x.Floor) else None
    case _ => None
  }

  /// `UInt` accepts a number whose value is a whole number in 0 ..< 2^64.
  function AsUInt(j: Json): (r: Option<UInt64>)
    ensures j.JInt? ==> (r.Some? <==> 0 <= j.i < 0x1_0000_0000_0000_0000)
    ensures j.JInt? && r.Some? ==> r.value == j.i
    ensures r.Some? ==> j.JInt? || j.JNum?
  {
    match j
    case JInt(i) =>
      if 0 <= i < 0x1_0000_0000_0000_0000 then Some(i) else None
    case JNum(x) =>
      if IsIntegral(x) && 0 <= x.Floor < 0x1_0000_0000_0000_0000 then Some(x.Floor) else None
    case _ => None
  }

  // ---------------------------------------------------------------------------
  // Keyed containers.

  /// `decoder.container(keyedBy:)`: only a JSON object has keys.
  function Container(j: Json): (r: Result<map<string, Json>>)
    ensures r.Ok? <==> j.JObj?
    ensures r.Ok? ==> r.value == j.fields
  {
    if j.JObj? then Ok(j.fields) else Err(TypeMismatch(""))
  }

  predicate HoldsString(o: map<string, Json>, k: string) {
    k in o && o[k].JStr?
  }

  /// The key holds a value that `read` accepts, so a strict decode succeeds.
  predicate Readable<T>(o: map<string, Json>, k: string, read: Json -> Option<T>) {
    k in o && o[k] != JNull && read(o[k]).Some?
  }

  /// The key is absent, null, or holds a value that `read` accepts, so
  /// `decodeIfPresent` succeeds.
  predicate ReadableIfPresent<T>(o: map<string, Json>, k: string, read: Json -> Option<T>) {
    k !in o || o[k] == JNull || read(o[k]).Some?
  }

  /// `try container.decode(T.self, forKey: k)` for a primitive T read by `read`.
  function Required<T>(o: map<string, Json>, k: string, read: Json -> Option<T>): (r: Result<T>)
    ensures r.Ok? <==> Readable(o, k, read)
    ensures r.Ok? ==> r.value == read(o[k]).value
    ensures k !in o ==> r == Err(KeyNotFound(k))
    ensures k in o && o[k] == JNull ==> r == Err(ValueNotFound(k))
  {
    if k !in o then Err(KeyNotFound(k))
    else if o[k] == JNull then Err(ValueNotFound(k))
    else if read(o[k]).None? then Err(TypeMismatch(k))
    else Ok(read(o[k]).value)
  }

  /// `try container.decodeIfPresent(T.self, forKey: k)` for a primitive T:
  /// an absent key and an explicit `null` both give `nil`.
  function IfPresent<T>(o: map<string, Json>, k: string, read: Json -> Option<T>): (r: Result<Option<T>>)
    ensures r.Ok? <==> ReadableIfPresent(o, k, read)
    ensures (k !in o || o[k] == JNull) ==> r == Ok(None)
    ensures k in o && o[k] != JNull ==>
      r == (if read(o[k]).Some? then Ok(Some(read(o[k]).value)) else Err(TypeMismatch(k)))
  {
    if k !in o || o[k] == JNull then Ok(None)
    else if read(o[k]).None? then Err(TypeMismatch(k))
    else Ok(Some(read(o[k]).value))
  }

  /// `try container.decode(T.self, forKey: k)` for a T with its own decoder.
  function RequiredWith<T>(o: map<string, Json>, k: string, dec: Json -> Result<T>): (r: Result<T>)
    ensures k !in o ==> r == Err(KeyNotFound(k))
    ensures k in o && o[k] == JNull ==> r == Err(ValueNotFound(k))
    ensures k in o && o[k] != JNull ==> r == dec(o[k])
  {
    if k !in o then Err(KeyNotFound(k))
    else if o[k] == JNull then Err(ValueNotFound(k))
    else dec(o[k])
  }

  /// `try container.decodeIfPresent(T.self, forKey: k)` for a T with its own decoder.
  function IfPresentWith<T>(o: map<string, Json>, k: string, dec: Json -> Result<T>): (r: Result<Option<T>>)
    ensures (k !in o || o[k] == JNull) ==> r == Ok(None)
    ensures k in o && o[k] != JNull ==>
      r == (if dec(o[k]).Ok? then Ok(Some(dec(o[k]).value)) else Err(dec(o[k]).error))
  {
    if k !in o || o[k] == JNull then Ok(None)
    else
      var v :- dec(o[k]);
      Ok(Some(v))
  }

  /// Swift's `try?`: the error is dropped.
  function Attempt<T>(r: Result<T>): (a: Option<T>)
    ensures a.Some? <==> r.Ok?
    ensures a.Some? ==> a.value == r.value
  {
    if r.Ok? then Some(r.value) else None
  }

  // ---------------------------------------------------------------------------
  // Arrays.  An element decoder is told the element's index, so that decoders
  // which draw a fresh identifier or read the clock can draw once per element.

  /// `decode([T].self)`: every element must decode, in order; the error is that
  /// of the first element that does not.
  function DecodeArray<T>(j: Json, dec: (nat, Json) -> Result<T>): (r: Result<seq<T>>)
    ensures r.Ok? <==> j.JArr? && forall k :: 0 <= k < |j.items| ==> dec(k, j.items[k]).Ok?
    ensures r.Ok? ==> |r.value| == |j.items|
    ensures r.Ok? ==> forall k :: 0 <= k < |j.items| ==> r.value[k] == dec(k, j.items[k]).value
  {
    if j.JArr? then DecodeElements(j.items, dec, 0) else Err(TypeMismatch(""))
  }

  function DecodeElements<T>(items: seq<Json>, dec: (nat, Json) -> Result<T>, from: nat): (r: Result<seq<T>>)
    requires from <= |items|
    ensures r.Ok? <==> forall k :: from <= k < |items| ==> dec(k, items[k]).Ok?
    ensures r.Ok? ==> |r.value| == |items| - from
    ensures r.Ok? ==> forall k :: from <= k < |items| ==> r.value[k - from] == dec(k, items[k]).value
    ensures r.Err? ==> exists k :: from <= k < |items| && dec(k, items[k]) == Err(r.error)
                                  && forall m :: from <= m < k ==> dec(m, items[m]).Ok?
    decreases |items| - from
  {
    if from == |items| then Ok([])
    else
      var x :- dec(from, items[from]);
      var rest :- DecodeElements(items, dec, from + 1);
      Ok([x] + rest)
  }

  /// `encode([T])`: one element per value, in order.
  function EncodeArray<T>(xs: seq<T>, enc: T -> Json): (j: Json)
    ensures j.JArr? && |j.items| == |xs|
    ensures forall k :: 0 <= k < |xs| ==> j.items[k] == enc(xs[k])
  {
    JArr(seq(|xs|, k requires 0 <= k < |xs| => enc(xs[k])))
  }

  /// An array of values whose element encoding round-trips, round-trips.
  lemma ArrayRoundTrip<T>(xs: seq<T>, enc: T -> Json, dec: (nat, Json) -> Result<T>)
    requires forall k :: 0 <= k < |xs| ==> dec(k, enc(xs[k])) == Ok(xs[k])
    ensures DecodeArray(EncodeArray(xs, enc), dec) == Ok(xs)
  {
    var r := DecodeArray(EncodeArray(xs, enc), dec);
    assert r.Ok?;
    assert r.value == xs;
  }
}
