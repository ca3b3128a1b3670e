/// `Symbol`: a ticker, a display name and an optional last price, decoded
/// from either a "ticker" or a legacy "symbol" key.
module SymbolModel {
  import opened Codable

  datatype Symbol = Symbol(ticker: string, name: string, price: Option<real>)

  /// The symbol a record falls back to when only a bare ticker is known.
  function BareTicker(ticker: string): (s: Symbol)
    ensures s.ticker == ticker && s.name == "" && s.price == None
  {
    Symbol(ticker, "", None)
  }

  /// "ticker" if it holds a string, else "symbol" if it does, else
  /// `keyNotFound(ticker)`.
  function DecodeTicker(o: map<string, Json>): (r: Result<string>)
    ensures r.Ok? <==> HoldsString(o, "ticker") || HoldsString(o, "symbol")
    ensures r.Ok? ==> r.value == if HoldsString(o, "ticker") then o["ticker"].s else o["symbol"].s
    ensures r.Err? ==> r.error == KeyNotFound("ticker")
  {
    match Attempt(Required(o, "ticker", AsString))
    case Some(t) => Ok(t)
    case None =>
      match Attempt(Required(o, "symbol", AsString))
      case Some(s) => Ok(s)
      case None => Err(KeyNotFound("ticker"))
  }

  /// The price: a number, else a string that `Double(String)` reads, else nil.
  function DecodePrice(o: map<string, Json>, fd: Foundation): (p: Option<real>)
    ensures "price" !in o ==> p == None
    ensures "price" in o && o["price"].JStr? ==> p == fd.parseDouble(o["price"].s)
    ensures "price" in o && !o["price"].JStr? ==> p == AsDouble(o["price"])
  {
    // `try?` flattens the optional that `decodeIfPresent` returns
    var number := IfPresent(o, "price", AsDouble);
    if number.Ok? && number.value.Some? then number.value
    else
      var text := IfPresent(o, "price", AsString);
      if text.Ok? && text.value.Some? then fd.parseDouble(text.value.value) else None
  }

  /// `Symbol.init(from:)`.  Only the ticker can make it fail; the name
  /// defaults to "" and the price to nil.
  function DecodeSymbol(j: Json, fd: Foundation): (r: Result<Symbol>)
    ensures r.Ok? <==> j.JObj? && (HoldsString(j.fields, "ticker") || HoldsString(j.fields, "symbol"))
    ensures j.JObj? && r.Err? ==> r.error == KeyNotFound("ticker")
    ensures r.Ok? ==> r.value.ticker ==
                      (if HoldsString(j.fields, "ticker") then j.fields["ticker"].s else j.fields["symbol"].s)
    ensures r.Ok? ==> r.value.name == if HoldsString(j.fields, "name") then j.fields["name"].s else ""
    ensures r.Ok? ==> r.value.price == DecodePrice(j.fields, fd)
  {
    var o :- Container(j);
    var ticker :- DecodeTicker(o);
    Ok(Symbol(ticker, Attempt(Required(o, "name", AsString)).GetOr(""), DecodePrice(o, fd)))
  }

  /// `Symbol.encode(to:)`: "ticker" and "name" always, "price" only when
  /// present, never "symbol".
  function EncodeSymbol(s: Symbol): (j: Json)
    ensures j.JObj?
    ensures j.fields.Keys == {"ticker", "name"} + (if s.price.Some? then {"price"} else {})
    ensures "symbol" !in j.fields
    ensures j.fields["ticker"] == JStr(s.ticker) && j.fields["name"] == JStr(s.name)
    ensures s.price.Some? ==> j.fields["price"] == JNum(s.price.value)
  {
    var base := map["ticker" := JStr(s.ticker), "name" := JStr(s.name)];
    JObj(if s.price.Some? then base["price" := JNum(s.price.value)] else base)
  }

  lemma SymbolRoundTrip(s: Symbol, fd: Foundation)
    ensures DecodeSymbol(EncodeSymbol(s), fd) == Ok(s)
  {
  }

  /// A nested `Symbol`, else a bare ticker string, else nothing: the chain
  /// that `Signal` and `Position` both apply to their "symbol" key.
  function NestedOrTicker(o: map<string, Json>, k: string, fd: Foundation): (r: Option<Symbol>)
    ensures r.Some? <==> k in o && (o[k].JStr? || DecodeSymbol(o[k], fd).Ok?)
    ensures k in o && o[k].JStr? ==> r == Some(BareTicker(o[k].s))
    ensures k in o && DecodeSymbol(o[k], fd).Ok? ==> r == Some(DecodeSymbol(o[k], fd).value)
  {
    match Attempt(RequiredWith(o, k, j => DecodeSymbol(j, fd)))
    case Some(nested) => Some(nested)
    case None =>
      match Attempt(Required(o, k, AsString))
      case Some(t) => Some(BareTicker(t))
      case None => None
  }

  /// A symbol written as its bare ticker comes back with its ticker only:
  /// the name and the price are lost.
  lemma TickerOnlySurvives(s: Symbol, k: string, fd: Foundation)
    ensures NestedOrTicker(map[k := JStr(s.ticker)], k, fd) == Some(BareTicker(s.ticker))
    ensures NestedOrTicker(map[k := JStr(s.ticker)], k, fd) == Some(s) <==> s.name == "" && s.price == None
  {
  }
}
