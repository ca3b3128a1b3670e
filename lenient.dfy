/// The two tolerant field decoders that several record types repeat verbatim:
/// the number chain (Double, then Int, then numeric String) and the date chain
/// (epoch Double, epoch Int, ISO-8601 string, "yyyy-MM-dd HH:mm:ss" string,
/// then the current time).  Each is a sequence of `try?` attempts; the first
/// attempt that succeeds wins and none of them throws.
module Lenient {
  import opened Codable

  /// `Double`, then `Int` widened to `Double`, then `Double(String)`; `nil`
  /// when every attempt fails.  Callers supply the default with `??`.
  function LenientNumber(o: map<string, Json>, k: string, fd: Foundation): (r: Option<real>)
    ensures r.Some? <==>
      k in o && (o[k].JNum? || o[k].JInt? || (o[k].JStr? && fd.parseDouble(o[k].s).Some?))
    ensures k in o && o[k].JNum? ==> r == Some(o[k].r)
    ensures k in o && o[k].JInt? ==> r == Some(o[k].i as real)
    ensures k in o && o[k].JStr? ==> r == fd.parseDouble(o[k].s)
  {
    match Attempt(Required(o, k, AsDouble))
    case Some(d) => Some(d)
    case None =>
      match Attempt(Required(o, k, AsInt))
      case Some(i) => Some(i as real)
      case None =>
        match Attempt(Required(o, k, AsString))
        case Some(s) => fd.parseDouble(s)
        case None => None
  }

  /// Seconds from 1970-01-01 to 2001-01-01, Foundation's reference date.
  const ReferenceDateOffset: real := 978307200.0

  /// `JSONEncoder`'s default date strategy (`deferredToDate`): the date as
  /// seconds since the reference date, not since 1970.
  function DeferredToDate(d: Date): (j: Json)
    ensures j.JNum? && j.r + ReferenceDateOffset == d.since1970
  {
    JNum(d.since1970 - ReferenceDateOffset)
  }

  /// `decodeDate(_:)`: `Date(timeIntervalSince1970:)` of a number, else the
  /// ISO-8601 reading of a string, else its "yyyy-MM-dd HH:mm:ss" reading,
  /// else `now` (Swift's `Date()`).  It never fails.
  function LenientDate(o: map<string, Json>, k: string, fd: Foundation, now: Date): (d: Date)
    ensures k in o && o[k].JNum? ==> d == Date(o[k].r)
    ensures k in o && o[k].JInt? ==> d == Date(o[k].i as real)
    ensures k in o && o[k].JStr? && fd.parseIso8601(o[k].s).Some? ==> d == fd.parseIso8601(o[k].s).value
    ensures k in o && o[k].JStr? && fd.parseIso8601(o[k].s).None? ==> d == fd.parsePosixDate(o[k].s).GetOr(now)
    ensures k !in o || !(o[k].JNum? || o[k].JInt? || o[k].JStr?) ==> d == now
  {
    match Attempt(Required(o, k, AsDouble))
    case Some(epoch) => Date(epoch)
    case None =>
      match Attempt(Required(o, k, AsInt))
      case Some(epoch) => Date(epoch as real)
      case None =>
        match Attempt(Required(o, k, AsString))
        case Some(s) =>
          (match fd.parseIso8601(s)
           case Some(iso) => iso
           case None => fd.parsePosixDate(s).GetOr(now))
        case None => now
  }

  /// The same logical value in every accepted encoding decodes to the same
  /// number: `2`, `2.0` and `"2"` (when `Double("2")` is 2) all give 2.0.
  lemma NumberEncodingsAgree(k: string, fd: Foundation)
    requires fd.parseDouble("2") == Some(2.0)
    ensures LenientNumber(map[k := JInt(2)], k, fd) == Some(2.0)
    ensures LenientNumber(map[k := JNum(2.0)], k, fd) == Some(2.0)
    ensures LenientNumber(map[k := JStr("2")], k, fd) == Some(2.0)
  {
  }

  /// An unparseable numeric string gives `nil`, never an error; with the
  /// caller's `?? 0.0` it becomes 0.0.
  lemma UnparseableNumberIsDefault(k: string, fd: Foundation)
    requires fd.parseDouble("not_a_number") == None
    ensures LenientNumber(map[k := JStr("not_a_number")], k, fd).GetOr(0.0) == 0.0
  {
  }
}
