/// `SignalType`, the five-valued recommendation enum with string raw values.
/// Both signal files declare it with the same cases and raw values.
module SignalTypes {
  import opened Codable

  datatype SignalType = StrongSell | Sell | Hold | Buy | StrongBuy

  function RawValue(t: SignalType): string {
    match t
    case StrongSell => "strong_sell"
    case Sell => "sell"
    case Hold => "hold"
    case Buy => "buy"
    case StrongBuy => "strong_buy"
  }

  /// `SignalType(rawValue:)`: an exact, case-sensitive match or nil.
  function FromRawValue(s: string): (r: Option<SignalType>)
    ensures r.Some? <==> s in {"strong_sell", "sell", "hold", "buy", "strong_buy"}
    ensures r.Some? ==> RawValue(r.value) == s
  {
    if s == "strong_sell" then Some(StrongSell)
    else if s == "sell" then Some(Sell)
    else if s == "hold" then Some(Hold)
    else if s == "buy" then Some(Buy)
    else if s == "strong_buy" then Some(StrongBuy)
    else None
  }

  lemma RawValueRoundTrip(t: SignalType)
    ensures FromRawValue(RawValue(t)) == Some(t)
  {
  }

  /// The raw values are distinct.
  lemma RawValueInjective(t: SignalType, u: SignalType)
    requires RawValue(t) == RawValue(u)
    ensures t == u
  {
    RawValueRoundTrip(t);
    RawValueRoundTrip(u);
  }

  /// `decode(SignalType.self)` of a present value: a string that is one of the
  /// raw values, else `dataCorrupted`; a non-string is a type mismatch.
  function DecodeSignalType(j: Json): (r: Result<SignalType>)
    ensures r.Ok? <==> j.JStr? && FromRawValue(j.s).Some?
    ensures r.Ok? ==> RawValue(r.value) == j.s
    ensures j.JStr? && r.Err? ==> r.error == DataCorrupted("type")
  {
    if !j.JStr? then Err(TypeMismatch("type"))
    else if FromRawValue(j.s).None? then Err(DataCorrupted("type"))
    else Ok(FromRawValue(j.s).value)
  }

  function EncodeSignalType(t: SignalType): (j: Json)
    ensures DecodeSignalType(j) == Ok(t)
  {
    RawValueRoundTrip(t);
    JStr(RawValue(t))
  }
}
