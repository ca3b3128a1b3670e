/// `ProfitLog`: one point of the equity curve, identified by its time.
module ProfitLogModel {
  import opened Codable
  import opened Lenient

  datatype ProfitLog = ProfitLog(time: Date, equity: real, invested: real, runningPositions: Int64)

  /// `id`: the log's time stamp.
  function Id(l: ProfitLog): Date {
    l.time
  }

  /// `ProfitLog.init(from:)`: the time goes through the tolerant date chain;
  /// the three figures are strict.
  function DecodeProfitLog(j: Json, fd: Foundation, now: Date): (r: Result<ProfitLog>)
    ensures r.Ok? <==>
      j.JObj? && Readable(j.fields, "equity", AsDouble) && Readable(j.fields, "invested", AsDouble) &&
      Readable(j.fields, "running_positions", AsInt)
    ensures j.JObj? && "equity" !in j.fields ==> r == Err(KeyNotFound("equity"))
    ensures r.Ok? ==> Id(r.value) == LenientDate(j.fields, "time", fd, now)
    ensures r.Ok? ==> AsDouble(j.fields["equity"]) == Some(r.value.equity)
    ensures r.Ok? ==> AsDouble(j.fields["invested"]) == Some(r.value.invested)
    ensures r.Ok? ==> AsInt(j.fields["running_positions"]) == Some(r.value.runningPositions)
  {
    var o :- Container(j);
    var time := LenientDate(o, "time", fd, now);
    var equity :- Required(o, "equity", AsDouble);
    var invested :- Required(o, "invested", AsDouble);
    var runningPositions :- Required(o, "running_positions", AsInt);
    Ok(ProfitLog(time, equity, invested, runningPositions))
  }

  /// `ProfitLog.encode(to:)`: exactly the four keys (no "id").
  function EncodeProfitLog(l: ProfitLog, encodeDate: Date -> Json): (j: Json)
    ensures j.JObj? && j.fields.Keys == {"time", "equity", "invested", "running_positions"}
    ensures j.fields["time"] == encodeDate(Id(l))
  {
    JObj(map[
      "time" := encodeDate(l.time),
      "equity" := JNum(l.equity),
      "invested" := JNum(l.invested),
      "running_positions" := JInt(l.runningPositions)])
  }

  /// Whatever the date encoding, a written log reads back with its figures.
  lemma ProfitLogReDecode(l: ProfitLog, encodeDate: Date -> Json, fd: Foundation, now: Date)
    ensures DecodeProfitLog(EncodeProfitLog(l, encodeDate), fd, now).Ok?
    ensures DecodeProfitLog(EncodeProfitLog(l, encodeDate), fd, now).value.(time := l.time) == l
  {
  }

  /// Written as epoch seconds, the time and so the identity survive too.
  lemma ProfitLogEpochRoundTrip(l: ProfitLog, fd: Foundation, now: Date)
    ensures DecodeProfitLog(EncodeProfitLog(l, (d: Date) => JNum(d.since1970)), fd, now) == Ok(l)
  {
  }

  /// Written with the encoder's default date strategy, the log reads back 31
  /// years early: the decoder takes seconds since 2001 for seconds since 1970.
  lemma ProfitLogDefaultDateShifts(l: ProfitLog, fd: Foundation, now: Date)
    ensures DecodeProfitLog(EncodeProfitLog(l, DeferredToDate), fd, now) ==
            Ok(l.(time := Date(l.time.since1970 - ReferenceDateOffset)))
    ensures DecodeProfitLog(EncodeProfitLog(l, DeferredToDate), fd, now) != Ok(l)
  {
  }
}
