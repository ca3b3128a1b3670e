/// The standalone metric script: it decodes a fixed four-record array with a
/// copy of the signals screen's `Metric` and re-encodes what it decoded.  Its
/// copy of `Metric` is identical to the one in `SignalsSignal`, which is used
/// here.
module MetricScript {
  import opened Codable
  import opened SignalsSignal

  /// What the script reports: that decoding failed, or the decoded metrics and
  /// their re-encoding.
  datatype Outcome = DecodingFailed | Decoded(metrics: seq<Metric>, reencoded: Json)

  /// The script's steps: decode `[Metric]`; on success re-encode.
  function Run(input: Json, fd: Foundation): (out: Outcome)
    ensures out.DecodingFailed? <==> DecodeMetrics(input, fd).Err?
    ensures out.Decoded? ==> DecodeMetrics(input, fd) == Ok(out.metrics)
    ensures out.Decoded? ==> out.reencoded == EncodeMetrics(out.metrics)
    ensures out.Decoded? ==> DecodeMetrics(out.reencoded, fd) == Ok(out.metrics)
  {
    match DecodeMetrics(input, fd)
    case Ok(ms) =>
      MetricsRoundTrip(ms, fd);
      Decoded(ms, EncodeMetrics(ms))
    case Err(_) => DecodingFailed
  }

  /// The script's input: a number with a fraction, an integer, a numeric
  /// string and a non-numeric string.
  function Sample(): Json {
    JArr([
      JObj(map["key" := JStr("a"), "value" := JNum(1.23)]),
      JObj(map["key" := JStr("b"), "value" := JInt(2)]),
      JObj(map["key" := JStr("c"), "value" := JStr("3.45")]),
      JObj(map["key" := JStr("d"), "value" := JStr("not_a_number")])])
  }

  /// Every record of the sample decodes: each value form is accepted, and the
  /// non-numeric string becomes 0.0 instead of failing the array.
  lemma SampleDecodes(fd: Foundation)
    requires fd.parseDouble("3.45") == Some(3.45)
    requires fd.parseDouble("not_a_number") == None
    ensures Run(Sample(), fd) ==
      Decoded([Metric("a", 1.23), Metric("b", 2.0), Metric("c", 3.45), Metric("d", 0.0)],
              EncodeMetrics([Metric("a", 1.23), Metric("b", 2.0), Metric("c", 3.45), Metric("d", 0.0)]))
  {
    var items := Sample().items;
    assert DecodeMetric(items[0], fd) == Ok(Metric("a", 1.23));
    assert DecodeMetric(items[1], fd) == Ok(Metric("b", 2.0));
    assert DecodeMetric(items[2], fd) == Ok(Metric("c", 3.45));
    assert DecodeMetric(items[3], fd) == Ok(Metric("d", 0.0));
  }

  /// One record without a "key" makes the whole array fail: the script then
  /// reports a decoding failure and encodes nothing.
  lemma MissingKeyFailsAll(input: Json, i: nat, fd: Foundation)
    requires input.JArr? && i < |input.items|
    requires input.items[i].JObj? && "key" !in input.items[i].fields
    ensures Run(input, fd) == DecodingFailed
  {
    assert DecodeMetric(input.items[i], fd).Err?;
  }
}
