/// The `Metric` and `Signal` records the signals screen decodes: a metric is
/// labelled by "key", and a signal carries its own strict "id" and "type".
module SignalsSignal {
  import opened Codable
  import opened Lenient
  import opened SymbolModel
  import opened SignalTypes

  datatype Metric = Metric(key: string, value: real)

  /// `Metric.init(from:)`: "key" is required; "value" goes through the number
  /// chain and defaults to 0.0, so it never makes the record fail.
  function DecodeMetric(j: Json, fd: Foundation): (r: Result<Metric>)
    ensures r.Ok? <==> j.JObj? && HoldsString(j.fields, "key")
    ensures r.Ok? ==> r.value.key == j.fields["key"].s
    ensures r.Ok? ==> r.value.value == LenientNumber(j.fields, "value", fd).GetOr(0.0)
  {
    var o :- Container(j);
    var key :- Required(o, "key", AsString);
    Ok(Metric(key, LenientNumber(o, "value", fd).GetOr(0.0)))
  }

  /// `Metric.encode(to:)`: the key, and the value always as a number.
  function EncodeMetric(m: Metric): (j: Json)
    ensures j.JObj? && j.fields.Keys == {"key", "value"}
    ensures j.fields["value"].JNum?
  {
    JObj(map["key" := JStr(m.key), "value" := JNum(m.value)])
  }

  lemma MetricRoundTrip(m: Metric, fd: Foundation)
    ensures DecodeMetric(EncodeMetric(m), fd) == Ok(m)
  {
  }

  /// A metrics list decodes only as a whole: every element must be a metric
  /// with a "key", and then the list keeps the elements' order.
  function DecodeMetrics(j: Json, fd: Foundation): (r: Result<seq<Metric>>)
    ensures r.Ok? <==> j.JArr? && forall k :: 0 <= k < |j.items| ==> DecodeMetric(j.items[k], fd).Ok?
    ensures r.Ok? ==> |r.value| == |j.items| &&
                      forall k :: 0 <= k < |j.items| ==> Ok(r.value[k]) == DecodeMetric(j.items[k], fd)
  {
    DecodeArray(j, (_, x) => DecodeMetric(x, fd))
  }

  /// The metrics as an array of encoded metrics, in order.
  function EncodeMetrics(ms: seq<Metric>): (j: Json)
    ensures j.JArr? && |j.items| == |ms|
    ensures forall k :: 0 <= k < |ms| ==> j.items[k] == EncodeMetric(ms[k])
  {
    EncodeArray(ms, EncodeMetric)
  }

  /// Metrics round-trip exactly, list and order included.
  lemma MetricsRoundTrip(ms: seq<Metric>, fd: Foundation)
    ensures DecodeMetrics(EncodeMetrics(ms), fd) == Ok(ms)
  {
    forall k | 0 <= k < |ms|
      ensures ((_, x) => DecodeMetric(x, fd))(k, EncodeMetric(ms[k])) == Ok(ms[k])
    {
      MetricRoundTrip(ms[k], fd);
    }
    ArrayRoundTrip(ms, EncodeMetric, (_, x) => DecodeMetric(x, fd));
  }

  datatype Signal = Signal(id: string, symbol: Symbol, confidence: real, signalType: SignalType, metrics: seq<Metric>)

  /// A "symbol" that is a nested symbol or a bare ticker, else `keyNotFound(symbol)`.
  function DecodeSignalSymbol(o: map<string, Json>, fd: Foundation): (r: Result<Symbol>)
    ensures r.Ok? <==> NestedOrTicker(o, "symbol", fd).Some?
    ensures r.Ok? ==> r.value == NestedOrTicker(o, "symbol", fd).value
    ensures r.Err? ==> r.error == KeyNotFound("symbol")
  {
    match NestedOrTicker(o, "symbol", fd)
    case Some(s) => Ok(s)
    case None => Err(KeyNotFound("symbol"))
  }

  /// `Signal.init(from:)`: "id" must be a string, "symbol" a symbol or a
  /// ticker, "confidence" a number and "type" one of the five raw values; an
  /// absent or null "metrics" is the empty list.
  function DecodeSignal(j: Json, fd: Foundation): (r: Result<Signal>)
    ensures !j.JObj? ==> r.Err?
    ensures j.JObj? && !HoldsString(j.fields, "id") ==> r.Err?
    ensures j.JObj? && HoldsString(j.fields, "id") && NestedOrTicker(j.fields, "symbol", fd).None? ==>
              r == Err(KeyNotFound("symbol"))
    ensures j.JObj? && ("confidence" !in j.fields || AsDouble(j.fields["confidence"]).None?) ==> r.Err?
    ensures j.JObj? && ("type" !in j.fields || DecodeSignalType(j.fields["type"]).Err?) ==> r.Err?
    ensures (j.JObj? && HoldsString(j.fields, "id") && NestedOrTicker(j.fields, "symbol", fd).Some? &&
             "confidence" in j.fields && AsDouble(j.fields["confidence"]).Some? &&
             "type" in j.fields && DecodeSignalType(j.fields["type"]).Ok? &&
             ("metrics" !in j.fields || j.fields["metrics"] == JNull ||
              DecodeMetrics(j.fields["metrics"], fd).Ok?)) ==> r.Ok?
    ensures r.Ok? ==> r.value.id == j.fields["id"].s
    ensures r.Ok? ==> r.value.symbol == NestedOrTicker(j.fields, "symbol", fd).value
    ensures r.Ok? ==> "confidence" in j.fields && AsDouble(j.fields["confidence"]) == Some(r.value.confidence)
    ensures r.Ok? ==> j.fields["type"] == JStr(RawValue(r.value.signalType))
    ensures r.Ok? && ("metrics" !in j.fields || j.fields["metrics"] == JNull) ==> r.value.metrics == []
    ensures r.Ok? && "metrics" in j.fields && j.fields["metrics"] != JNull ==>
              DecodeMetrics(j.fields["metrics"], fd) == Ok(r.value.metrics)
  {
    var o :- Container(j);
    var id :- Required(o, "id", AsString);
    var symbol :- DecodeSignalSymbol(o, fd);
    var confidence :- Required(o, "confidence", AsDouble);
    var signalType :- RequiredWith(o, "type", DecodeSignalType);
    var metrics :- IfPresentWith(o, "metrics", m => DecodeMetrics(m, fd));
    Ok(Signal(id, symbol, confidence, signalType, metrics.GetOr([])))
  }

  /// `Signal.encode(to:)`: the symbol as its bare ticker string; the metrics
  /// always, even when empty.
  function EncodeSignal(s: Signal): (j: Json)
    ensures j.JObj? && j.fields.Keys == {"id", "symbol", "confidence", "type", "metrics"}
    ensures j.fields["symbol"] == JStr(s.symbol.ticker)
  {
    JObj(map[
      "id" := JStr(s.id),
      "symbol" := JStr(s.symbol.ticker),
      "confidence" := JNum(s.confidence),
      "type" := EncodeSignalType(s.signalType),
      "metrics" := EncodeMetrics(s.metrics)])
  }

  /// What survives a write and a read: everything but the symbol's name and
  /// price.
  function TickerOnly(s: Signal): Signal {
    s.(symbol := BareTicker(s.symbol.ticker))
  }

  lemma SignalReDecode(s: Signal, fd: Foundation)
    ensures DecodeSignal(EncodeSignal(s), fd) == Ok(TickerOnly(s))
  {
    MetricsRoundTrip(s.metrics, fd);
    var o := EncodeSignal(s).fields;
    assert NestedOrTicker(o, "symbol", fd) == Some(BareTicker(s.symbol.ticker));
  }

  /// So a signal round-trips exactly when its symbol is a bare ticker.
  lemma SignalRoundTripExactly(s: Signal, fd: Foundation)
    ensures DecodeSignal(EncodeSignal(s), fd) == Ok(s) <==> s.symbol.name == "" && s.symbol.price == None
  {
    SignalReDecode(s, fd);
  }
}
