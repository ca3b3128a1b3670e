/// The other declaration of `Metric` and `Signal`: a metric is labelled by
/// "name", and a signal has no "id" key of its own (its id is its ticker) and
/// a "type" that defaults to hold.
module SharedSignal {
  import opened Codable
  import opened Lenient
  import opened SymbolModel
  import opened SignalTypes

  datatype Metric = Metric(name: string, value: real)

  /// `Metric.init(from:)`: "name" is required; "value" goes through the number
  /// chain and defaults to 0.0.
  function DecodeMetric(j: Json, fd: Foundation): (r: Result<Metric>)
    ensures r.Ok? <==> j.JObj? && HoldsString(j.fields, "name")
    ensures r.Ok? ==> r.value.name == j.fields["name"].s
    ensures r.Ok? ==> r.value.value == LenientNumber(j.fields, "value", fd).GetOr(0.0)
  {
    var o :- Container(j);
    var name :- Required(o, "name", AsString);
    Ok(Metric(name, LenientNumber(o, "value", fd).GetOr(0.0)))
  }

  function EncodeMetric(m: Metric): (j: Json)
    ensures j.JObj? && j.fields.Keys == {"name", "value"}
    ensures "key" !in j.fields
  {
    JObj(map["name" := JStr(m.name), "value" := JNum(m.value)])
  }

  lemma MetricRoundTrip(m: Metric, fd: Foundation)
    ensures DecodeMetric(EncodeMetric(m), fd) == Ok(m)
  {
  }

  /// A metrics list decodes only as a whole: every element must be a metric
  /// with a "name", and then the list keeps the elements' order.
  function DecodeMetrics(j: Json, fd: Foundation): (r: Result<seq<Metric>>)
    ensures r.Ok? <==> j.JArr? && forall k :: 0 <= k < |j.items| ==> DecodeMetric(j.items[k], fd).Ok?
    ensures r.Ok? ==> |r.value| == |j.items| &&
                      forall k :: 0 <= k < |j.items| ==> Ok(r.value[k]) == DecodeMetric(j.items[k], fd)
  {
    DecodeArray(j, (_, x) => DecodeMetric(x, fd))
  }

  /// The metrics as an array of encoded metrics, in order.
  function EncodeMetrics(ms: seq<Metric>): (j: Json)
    ensures j.JArr? && |j.items| == |ms|
    ensures forall k :: 0 <= k < |ms| ==> j.items[k] == EncodeMetric(ms[k])
  {
    EncodeArray(ms, EncodeMetric)
  }

  lemma MetricsRoundTrip(ms: seq<Metric>, fd: Foundation)
    ensures DecodeMetrics(EncodeMetrics(ms), fd) == Ok(ms)
  {
    forall k | 0 <= k < |ms|
      ensures ((_, x) => DecodeMetric(x, fd))(k, EncodeMetric(ms[k])) == Ok(ms[k])
    {
      MetricRoundTrip(ms[k], fd);
    }
    ArrayRoundTrip(ms, EncodeMetric, (_, x) => DecodeMetric(x, fd));
  }

  datatype Signal = Signal(id: string, symbol: Symbol, confidence: real, signalType: SignalType, metrics: seq<Metric>)

  /// Every signal this declaration builds is identified by its ticker.
  predicate IdIsTicker(s: Signal) {
    s.id == s.symbol.ticker
  }

  /// The memberwise `init(symbol:confidence:type:metrics:)`.
  function MakeSignal(symbol: Symbol, confidence: real, signalType: SignalType, metrics: seq<Metric>): (s: Signal)
    ensures IdIsTicker(s)
    ensures s.symbol == symbol && s.confidence == confidence && s.signalType == signalType && s.metrics == metrics
  {
    Signal(symbol.ticker, symbol, confidence, signalType, metrics)
  }

  /// `Signal.init(from:)`: the symbol is required (a symbol or a bare ticker,
  /// else `keyNotFound(symbol)`), the id is its ticker, "confidence" must be a
  /// number, a missing or unknown "type" is hold, and an absent "metrics" is
  /// the empty list.
  function DecodeSignal(j: Json, fd: Foundation): (r: Result<Signal>)
    ensures r.Ok? ==> IdIsTicker(r.value)
    ensures !j.JObj? ==> r.Err?
    ensures j.JObj? && NestedOrTicker(j.fields, "symbol", fd).None? ==> r == Err(KeyNotFound("symbol"))
    ensures j.JObj? && ("confidence" !in j.fields || AsDouble(j.fields["confidence"]).None?) ==> r.Err?
    ensures r.Ok? ==> r.value.symbol == NestedOrTicker(j.fields, "symbol", fd).value
    ensures r.Ok? ==> "confidence" in j.fields && AsDouble(j.fields["confidence"]) == Some(r.value.confidence)
    ensures r.Ok? ==> r.value.signalType ==
                      (if "type" in j.fields && DecodeSignalType(j.fields["type"]).Ok?
                       then DecodeSignalType(j.fields["type"]).value else Hold)
    ensures r.Ok? && ("metrics" !in j.fields || j.fields["metrics"] == JNull) ==> r.value.metrics == []
    ensures r.Ok? && "metrics" in j.fields && j.fields["metrics"] != JNull ==>
              DecodeMetrics(j.fields["metrics"], fd) == Ok(r.value.metrics)
    ensures (j.JObj? && NestedOrTicker(j.fields, "symbol", fd).Some? &&
             "confidence" in j.fields && AsDouble(j.fields["confidence"]).Some? &&
             ("metrics" !in j.fields || j.fields["metrics"] == JNull ||
              DecodeMetrics(j.fields["metrics"], fd).Ok?)) ==> r.Ok?
  {
    var o :- Container(j);
    var symbol :-
      (match NestedOrTicker(o, "symbol", fd)
       case Some(s) => Ok(s)
       case None => Err(KeyNotFound("symbol")));
    var confidence :- Required(o, "confidence", AsDouble);
    var signalType := Attempt(RequiredWith(o, "type", DecodeSignalType)).GetOr(Hold);
    var metrics :- IfPresentWith(o, "metrics", m => DecodeMetrics(m, fd));
    Ok(MakeSignal(symbol, confidence, signalType, metrics.GetOr([])))
  }

  /// The type never makes decoding fail: a record with a usable symbol and
  /// confidence decodes whatever its "type" holds, provided its metrics are
  /// absent, null or a list of decodable metrics.
  lemma TypeNeverFails(o: map<string, Json>, fd: Foundation)
    requires NestedOrTicker(o, "symbol", fd).Some?
    requires "confidence" in o && AsDouble(o["confidence"]).Some?
    requires "metrics" !in o || o["metrics"] == JNull || DecodeMetrics(o["metrics"], fd).Ok?
    ensures DecodeSignal(JObj(o), fd).Ok?
    ensures "type" !in o ==> DecodeSignal(JObj(o), fd).value.signalType == Hold
  {
  }

  /// `Signal.encode(to:)`: no "id" key; the symbol as its bare ticker.
  function EncodeSignal(s: Signal): (j: Json)
    ensures j.JObj? && j.fields.Keys == {"symbol", "confidence", "type", "metrics"}
    ensures "id" !in j.fields
  {
    JObj(map[
      "symbol" := JStr(s.symbol.ticker),
      "confidence" := JNum(s.confidence),
      "type" := EncodeSignalType(s.signalType),
      "metrics" := EncodeMetrics(s.metrics)])
  }

  /// Although the id is not written, reading the record back restores it,
  /// because both sides derive it from the ticker; the symbol keeps only its
  /// ticker.
  lemma SignalReDecode(s: Signal, fd: Foundation)
    requires IdIsTicker(s)
    ensures DecodeSignal(EncodeSignal(s), fd) == Ok(s.(symbol := BareTicker(s.symbol.ticker)))
    ensures DecodeSignal(EncodeSignal(s), fd).value.id == s.id
  {
    MetricsRoundTrip(s.metrics, fd);
    var o := EncodeSignal(s).fields;
    assert NestedOrTicker(o, "symbol", fd) == Some(BareTicker(s.symbol.ticker));
  }
}
