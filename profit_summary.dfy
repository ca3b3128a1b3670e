/// `ProfitSummary`: one aggregated trading period of the profit history.
module ProfitSummaryModel {
  import opened Codable
  import opened Lenient

  datatype ProfitSummary = ProfitSummary(
    id: string,
    startTime: Date,
    endTime: Date,
    profit: real,
    tradeCount: Int64,
    winRate: real,
    winningTrades: Int64,
    losingTrades: Int64)

  /// `ProfitSummary.init(from:)`: the id and every figure are strict; the two
  /// period bounds go through the tolerant date chain and never fail.
  function DecodeProfitSummary(j: Json, fd: Foundation, now: Date): (r: Result<ProfitSummary>)
    ensures r.Ok? <==>
      j.JObj? && Readable(j.fields, "id", AsString) &&
      Readable(j.fields, "profit", AsDouble) && Readable(j.fields, "trade_count", AsInt) &&
      Readable(j.fields, "win_rate", AsDouble) && Readable(j.fields, "winning_trades", AsInt) &&
      Readable(j.fields, "losing_trades", AsInt)
    ensures j.JObj? && "id" !in j.fields ==> r == Err(KeyNotFound("id"))
    ensures r.Ok? ==> r.value.id == j.fields["id"].s
    ensures r.Ok? ==> r.value.startTime == LenientDate(j.fields, "start_time", fd, now)
    ensures r.Ok? ==> r.value.endTime == LenientDate(j.fields, "end_time", fd, now)
    ensures r.Ok? ==> AsDouble(j.fields["profit"]) == Some(r.value.profit)
    ensures r.Ok? ==> AsInt(j.fields["trade_count"]) == Some(r.value.tradeCount)
    ensures r.Ok? ==> AsDouble(j.fields["win_rate"]) == Some(r.value.winRate)
    ensures r.Ok? ==> AsInt(j.fields["winning_trades"]) == Some(r.value.winningTrades)
    ensures r.Ok? ==> AsInt(j.fields["losing_trades"]) == Some(r.value.losingTrades)
  {
    var o :- Container(j);
    var id :- Required(o, "id", AsString);
    var startTime := LenientDate(o, "start_time", fd, now);
    var endTime := LenientDate(o, "end_time", fd, now);
    var profit :- Required(o, "profit", AsDouble);
    var tradeCount :- Required(o, "trade_count", AsInt);
    var winRate :- Required(o, "win_rate", AsDouble);
    var winningTrades :- Required(o, "winning_trades", AsInt);
    var losingTrades :- Required(o, "losing_trades", AsInt);
    Ok(ProfitSummary(id, startTime, endTime, profit, tradeCount, winRate, winningTrades, losingTrades))
  }

  /// `ProfitSummary.encode(to:)`: all eight keys; the dates in whatever form
  /// the encoder's date strategy gives them (`encodeDate`).
  function EncodeProfitSummary(s: ProfitSummary, encodeDate: Date -> Json): (j: Json)
    ensures j.JObj?
    ensures j.fields.Keys == {"id", "start_time", "end_time", "profit", "trade_count",
                              "win_rate", "winning_trades", "losing_trades"}
    ensures j.fields["start_time"] == encodeDate(s.startTime)
    ensures j.fields["end_time"] == encodeDate(s.endTime)
  {
    JObj(map[
      "id" := JStr(s.id),
      "start_time" := encodeDate(s.startTime),
      "end_time" := encodeDate(s.endTime),
      "profit" := JNum(s.profit),
      "trade_count" := JInt(s.tradeCount),
      "win_rate" := JNum(s.winRate),
      "winning_trades" := JInt(s.winningTrades),
      "losing_trades" := JInt(s.losingTrades)])
  }

  /// Whatever the date encoding, a written summary reads back, and everything
  /// but the two dates comes back unchanged.
  lemma ProfitSummaryReDecode(s: ProfitSummary, encodeDate: Date -> Json, fd: Foundation, now: Date)
    ensures DecodeProfitSummary(EncodeProfitSummary(s, encodeDate), fd, now).Ok?
    ensures DecodeProfitSummary(EncodeProfitSummary(s, encodeDate), fd, now).value.(startTime := s.startTime, endTime := s.endTime) == s
  {
  }

  /// When dates are written as epoch seconds they come back exactly, so the
  /// whole summary round-trips.
  lemma ProfitSummaryEpochRoundTrip(s: ProfitSummary, fd: Foundation, now: Date)
    ensures DecodeProfitSummary(EncodeProfitSummary(s, (d: Date) => JNum(d.since1970)), fd, now) == Ok(s)
  {
  }

  /// Written with the encoder's default date strategy, both dates read back
  /// 31 years early and everything else survives.
  lemma ProfitSummaryDefaultDatesShift(s: ProfitSummary, fd: Foundation, now: Date)
    ensures DecodeProfitSummary(EncodeProfitSummary(s, DeferredToDate), fd, now) ==
            Ok(s.(startTime := Date(s.startTime.since1970 - ReferenceDateOffset),
                  endTime := Date(s.endTime.since1970 - ReferenceDateOffset)))
    ensures DecodeProfitSummary(EncodeProfitSummary(s, DeferredToDate), fd, now) != Ok(s)
  {
  }
}
