/// `Position`: one open position, decoded leniently field by field.  Only a
/// non-object makes the record fail; every field has a fallback.
module PositionModel {
  import opened Codable
  import opened Decimal
  import opened Lenient
  import opened SymbolModel
  import SignalsSignal

  type Signal = SignalsSignal.Signal

  datatype Position = Position(
    id: string,
    symbol: Symbol,
    signal: Option<Signal>,
    quantity: real,
    price: real,
    stopLoss: Option<real>,
    takeProfit: Option<real>,
    annotation: Option<string>,
    createdAt: Date,
    profit: real,
    duration: UInt64)

  // ---------------------------------------------------------------------------
  // Computed properties.

  /// `unrealizedPnL`: (current price - entry price) * quantity, nil without a
  /// current price.
  function UnrealizedPnL(p: Position): (r: Option<real>)
    ensures r.None? <==> p.symbol.price.None?
    ensures r.Some? ==> r.value == (p.symbol.price.value - p.price) * p.quantity
  {
    match p.symbol.price
    case None => None
    case Some(current) => Some((current - p.price) * p.quantity)
  }

  /// `unrealizedPnLPercent`: the price move as a percentage of the entry price;
  /// nil without a current price and nil for a zero entry price.
  function UnrealizedPnLPercent(p: Position): (r: Option<real>)
    ensures r.None? <==> p.price == 0.0 || p.symbol.price.None?
    ensures r.Some? ==> r.value * p.price == (p.symbol.price.value - p.price) * 100.0
  {
    if p.price == 0.0 || p.symbol.price.None? then None
    else Some(((p.symbol.price.value - p.price) / p.price) * 100.0)
  }

  /// The percentage is the profit per unit of position value.
  lemma PnLPercentMatchesPnL(p: Position)
    requires UnrealizedPnLPercent(p).Some?
    ensures UnrealizedPnL(p).value == UnrealizedPnLPercent(p).value / 100.0 * p.price * p.quantity
  {
  }

  // ---------------------------------------------------------------------------
  // Field decoders.

  /// UUID's decoder reads a string and parses it as a UUID.
  function AsUuid(fd: Foundation): (parse: Json -> Option<string>)
    ensures forall j: Json :: !j.JStr? ==> parse(j).None?
    ensures forall s :: parse(JStr(s)) == fd.parseUuid(s)
  {
    (j: Json) => if j.JStr? then fd.parseUuid(j.s) else None
  }

  /// id: a string, else an integer spelled in decimal, else a UUID, else a
  /// freshly generated id.  It never fails.
  function DecodeId(o: map<string, Json>, fd: Foundation, freshId: string): (id: string)
    ensures HoldsString(o, "id") ==> id == o["id"].s
    ensures !HoldsString(o, "id") && "id" in o && AsInt(o["id"]).Some? ==> id == IntToString(AsInt(o["id"]).value)
    ensures "id" !in o || (!o["id"].JStr? && AsInt(o["id"]).None?) ==> id == freshId
  {
    match Attempt(Required(o, "id", AsString))
    case Some(s) => s
    case None =>
      match Attempt(Required(o, "id", AsInt))
      case Some(i) => IntToString(i)
      case None =>
        match Attempt(Required(o, "id", AsUuid(fd)))
        case Some(u) => u
        case None => freshId
  }

  /// symbol: a nested symbol, else a bare ticker, else the empty placeholder.
  function DecodePositionSymbol(o: map<string, Json>, fd: Foundation): (s: Symbol)
    ensures NestedOrTicker(o, "symbol", fd).Some? ==> s == NestedOrTicker(o, "symbol", fd).value
    ensures NestedOrTicker(o, "symbol", fd).None? ==> s == BareTicker("")
  {
    NestedOrTicker(o, "symbol", fd).GetOr(BareTicker(""))
  }

  /// signal: a nested signal that decodes, else nil.
  function DecodePositionSignal(o: map<string, Json>, fd: Foundation): (s: Option<Signal>)
    ensures s.Some? <==> "signal" in o && o["signal"] != JNull && SignalsSignal.DecodeSignal(o["signal"], fd).Ok?
    ensures s.Some? ==> s.value == SignalsSignal.DecodeSignal(o["signal"], fd).value
  {
    Attempt(RequiredWith(o, "signal", j => SignalsSignal.DecodeSignal(j, fd)))
  }

  /// annotation: `try? decodeIfPresent(String.self)`, so a non-string is nil.
  function DecodeAnnotation(o: map<string, Json>): (a: Option<string>)
    ensures a.Some? <==> HoldsString(o, "annotation")
    ensures a.Some? ==> a.value == o["annotation"].s
  {
    var r := IfPresent(o, "annotation", AsString);
    if r.Ok? then r.value else None
  }

  /// The outcome of converting with `UInt(_: Int)`, which stops the program
  /// (a runtime trap) for a negative argument.
  datatype Conversion = Converted(n: UInt64) | Trapped

  /// `UInt(i)`.
  function ConvertToUInt(i: Int64): (c: Conversion)
    ensures c.Trapped? <==> i < 0
    ensures c.Converted? ==> c.n == i
  {
    if i >= 0 then Converted(i) else Trapped
  }

  function NonNegativeOrZero(i: Int64): (n: UInt64)
    ensures i >= 0 ==> n == i
    ensures i < 0 ==> n == 0
  {
    if i >= 0 then i else 0
  }

  /// duration AS WRITTEN: `UInt`, else `Int` converted with `UInt(_)`, else
  /// `UInt(String)`, else 0.  The `Int` attempt is reached only when the `UInt`
  /// attempt failed, that is for a negative whole number, so it always traps.
  function DurationAsWritten(o: map<string, Json>, fd: Foundation): (c: Conversion)
    ensures c.Trapped? <==> "duration" in o && AsUInt(o["duration"]).None? && AsInt(o["duration"]).Some?
  {
    match Attempt(Required(o, "duration", AsUInt))
    case Some(n) => Converted(n)
    case None =>
      match Attempt(Required(o, "duration", AsInt))
      case Some(i) => ConvertToUInt(i)
      case None =>
        match Attempt(Required(o, "duration", AsString))
        case Some(s) => Converted(fd.parseUInt(s).GetOr(0))
        case None => Converted(0)
  }

  /// `{"duration": -1}` stops the app instead of decoding.
  lemma NegativeDurationTraps(fd: Foundation)
    ensures DurationAsWritten(map["duration" := JInt(-1)], fd) == Trapped
  {
  }

  /// duration as evidently intended: the same chain, with a negative whole
  /// number taking the default 0 like every other unusable value.
  function DecodeDuration(o: map<string, Json>, fd: Foundation): (d: UInt64)
    ensures DurationAsWritten(o, fd).Converted? ==> d == DurationAsWritten(o, fd).n
    ensures DurationAsWritten(o, fd).Trapped? ==> d == 0
    ensures "duration" in o && AsUInt(o["duration"]).Some? ==> d == AsUInt(o["duration"]).value
    ensures HoldsString(o, "duration") ==> d == fd.parseUInt(o["duration"].s).GetOr(0)
  {
    match Attempt(Required(o, "duration", AsUInt))
    case Some(n) => n
    case None =>
      match Attempt(Required(o, "duration", AsInt))
      case Some(i) => NonNegativeOrZero(i)
      case None =>
        match Attempt(Required(o, "duration", AsString))
        case Some(s) => fd.parseUInt(s).GetOr(0)
        case None => 0
  }

  /// `Position.init(from:)`.  It fails only when the value is not an object.
  function DecodePosition(j: Json, fd: Foundation, now: Date, freshId: string): (r: Result<Position>)
    ensures r.Ok? <==> j.JObj?
    ensures r.Ok? ==> r.value.id == DecodeId(j.fields, fd, freshId)
    ensures r.Ok? ==> r.value.symbol == DecodePositionSymbol(j.fields, fd)
    ensures r.Ok? ==> r.value.signal == DecodePositionSignal(j.fields, fd)
    ensures r.Ok? ==> r.value.quantity == LenientNumber(j.fields, "quantity", fd).GetOr(0.0)
    ensures r.Ok? ==> r.value.price == LenientNumber(j.fields, "price", fd).GetOr(0.0)
    ensures r.Ok? ==> r.value.stopLoss == LenientNumber(j.fields, "stop_loss", fd)
    ensures r.Ok? ==> r.value.takeProfit == LenientNumber(j.fields, "take_profit", fd)
    ensures r.Ok? ==> r.value.annotation == DecodeAnnotation(j.fields)
    ensures r.Ok? ==> r.value.createdAt == LenientDate(j.fields, "created_at", fd, now)
    ensures r.Ok? ==> r.value.profit == LenientNumber(j.fields, "profit", fd).GetOr(0.0)
    ensures r.Ok? ==> r.value.duration == DecodeDuration(j.fields, fd)
  {
    var o :- Container(j);
    Ok(Position(
      DecodeId(o, fd, freshId),
      DecodePositionSymbol(o, fd),
      DecodePositionSignal(o, fd),
      LenientNumber(o, "quantity", fd).GetOr(0.0),
      LenientNumber(o, "price", fd).GetOr(0.0),
      LenientNumber(o, "stop_loss", fd),
      LenientNumber(o, "take_profit", fd),
      DecodeAnnotation(o),
      LenientDate(o, "created_at", fd, now),
      LenientNumber(o, "profit", fd).GetOr(0.0),
      DecodeDuration(o, fd)))
  }

  /// An empty object decodes to the all-defaults position.
  lemma EmptyObjectDefaults(fd: Foundation, now: Date, freshId: string)
    ensures DecodePosition(JObj(map[]), fd, now, freshId) ==
      Ok(Position(freshId, BareTicker(""), None, 0.0, 0.0, None, None, None, now, 0.0, 0))
  {
  }

  // ---------------------------------------------------------------------------
  // Encoding.

  function OptionalField<T>(o: map<string, Json>, k: string, v: Option<T>, enc: T -> Json): (r: map<string, Json>)
    ensures v.None? ==> r == o
    ensures v.Some? ==> r == o[k := enc(v.value)]
    ensures r.Keys == o.Keys + (if v.Some? then {k} else {})
  {
    if v.Some? then o[k := enc(v.value)] else o
  }

  /// The keys `Position.encode(to:)` always writes.
  function RequiredFields(p: Position, fd: Foundation): (m: map<string, Json>)
    ensures "id" in m && m["id"] == JStr(p.id)
    ensures "symbol" in m && m["symbol"] == JStr(p.symbol.ticker)
    ensures "quantity" in m && m["quantity"] == JNum(p.quantity)
    ensures "price" in m && m["price"] == JNum(p.price)
    ensures "created_at" in m && m["created_at"] == JStr(fd.formatIso8601(p.createdAt))
    ensures "profit" in m && m["profit"] == JNum(p.profit)
    ensures "duration" in m && m["duration"] == JInt(p.duration)
    ensures m.Keys == {"id", "symbol", "quantity", "price", "created_at", "profit", "duration"}
  {
    map[
      "id" := JStr(p.id),
      "symbol" := JStr(p.symbol.ticker),
      "quantity" := JNum(p.quantity),
      "price" := JNum(p.price),
      "created_at" := JStr(fd.formatIso8601(p.createdAt)),
      "profit" := JNum(p.profit),
      "duration" := JInt(p.duration)]
  }

  /// `Position.encode(to:)`: the symbol as its bare ticker; the signal, stop
  /// loss, take profit and annotation only when present; the creation date as
  /// an ISO-8601 string.
  function EncodePosition(p: Position, fd: Foundation): (j: Json)
    ensures j.JObj?
    ensures RequiredFields(p, fd).Keys <= j.fields.Keys
    ensures j.fields.Keys == RequiredFields(p, fd).Keys
                             + (if p.signal.Some? then {"signal"} else {})
                             + (if p.stopLoss.Some? then {"stop_loss"} else {})
                             + (if p.takeProfit.Some? then {"take_profit"} else {})
                             + (if p.annotation.Some? then {"annotation"} else {})
    ensures j.fields["id"] == JStr(p.id)
    ensures j.fields["symbol"] == JStr(p.symbol.ticker)
    ensures j.fields["quantity"] == JNum(p.quantity) && j.fields["price"] == JNum(p.price)
    ensures j.fields["profit"] == JNum(p.profit) && j.fields["duration"] == JInt(p.duration)
    ensures j.fields["created_at"] == JStr(fd.formatIso8601(p.createdAt))
    ensures ("signal" in j.fields <==> p.signal.Some?) &&
            (p.signal.Some? ==> j.fields["signal"] == SignalsSignal.EncodeSignal(p.signal.value))
    ensures ("stop_loss" in j.fields <==> p.stopLoss.Some?) &&
            (p.stopLoss.Some? ==> j.fields["stop_loss"] == JNum(p.stopLoss.value))
    ensures ("take_profit" in j.fields <==> p.takeProfit.Some?) &&
            (p.takeProfit.Some? ==> j.fields["take_profit"] == JNum(p.takeProfit.value))
    ensures ("annotation" in j.fields <==> p.annotation.Some?) &&
            (p.annotation.Some? ==> j.fields["annotation"] == JStr(p.annotation.value))
  {
    var required := RequiredFields(p, fd);
    var withSignal := OptionalField(required, "signal", p.signal, SignalsSignal.EncodeSignal);
    var withStop := OptionalField(withSignal, "stop_loss", p.stopLoss, (x: real) => JNum(x));
    var withTake := OptionalField(withStop, "take_profit", p.takeProfit, (x: real) => JNum(x));
    JObj(OptionalField(withTake, "annotation", p.annotation, (s: string) => JStr(s)))
  }

  /// What survives a write and a read: the symbol (and the signal's symbol)
  /// keep only their ticker.
  function Reread(p: Position): Position {
    p.(symbol := BareTicker(p.symbol.ticker),
       signal := if p.signal.Some? then Some(SignalsSignal.TickerOnly(p.signal.value)) else None)
  }

  /// Re-decoding an encoded position gives it back with the symbol's name and
  /// price dropped, provided the ISO-8601 formatter reads its own output back.
  lemma PositionReDecode(p: Position, fd: Foundation, now: Date, freshId: string)
    requires fd.parseIso8601(fd.formatIso8601(p.createdAt)) == Some(p.createdAt)
    ensures DecodePosition(EncodePosition(p, fd), fd, now, freshId) == Ok(Reread(p))
  {
    var j := EncodePosition(p, fd);
    var o := j.fields;
    assert DecodeId(o, fd, freshId) == p.id;
    SymbolReDecodes(p, fd);
    SignalReDecodes(p, fd);
    assert DecodeAnnotation(o) == p.annotation;
    assert LenientNumber(o, "stop_loss", fd) == p.stopLoss;
    assert LenientNumber(o, "take_profit", fd) == p.takeProfit;
    assert LenientDate(o, "created_at", fd, now) == p.createdAt;
    assert DecodeDuration(o, fd) == p.duration;
    var r := DecodePosition(j, fd, now, freshId);
    assert r.Ok?;
  }

  lemma SymbolReDecodes(p: Position, fd: Foundation)
    ensures DecodePositionSymbol(EncodePosition(p, fd).fields, fd) == BareTicker(p.symbol.ticker)
  {
    var o := EncodePosition(p, fd).fields;
    assert NestedOrTicker(o, "symbol", fd) == Some(BareTicker(p.symbol.ticker));
  }

  lemma SignalReDecodes(p: Position, fd: Foundation)
    ensures DecodePositionSignal(EncodePosition(p, fd).fields, fd) == Reread(p).signal
  {
    if p.signal.Some? {
      SignalsSignal.SignalReDecode(p.signal.value, fd);
    }
  }
}
