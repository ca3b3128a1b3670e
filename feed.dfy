/// What the two polling screens (signals and positions) share: the outcome of
/// one GraphQL request, the `{ "data": { <list>: [...] } }` envelope, the
/// `fetchOnce` transition over `(items, isLoading, errorMessage)`, and the
/// polling handle.
module Feed {
  import opened Codable
  import opened Decimal

  /// What `Date()` and `UUID()` return while one response is being decoded:
  /// one clock reading, and a fresh identifier per list element.
  datatype Env = Env(now: Date, freshIds: nat -> string)

  /// How one request ended.  `body` is `None` when the response bytes are not
  /// JSON at all.  `Failed` is any other thrown error, with its description.
  datatype FetchOutcome =
    | Response(status: int, body: Option<Json>, env: Env)
    | Cancelled
    | Failed(description: string)

  /// `(200...299).contains(statusCode)`
  predicate IsSuccessStatus(code: int)
    ensures IsSuccessStatus(code) <==> code / 100 == 2
  {
    200 <= code <= 299
  }

  const HttpErrorPrefix: string := "HTTP error: "

  /// `"HTTP error: \(statusCode)"`: the prefix, then the code, which can be
  /// read back from the message.
  function HttpErrorMessage(code: int): (m: string)
    ensures |m| > |HttpErrorPrefix| && m[..|HttpErrorPrefix|] == HttpErrorPrefix
    ensures ParseInt(m[|HttpErrorPrefix|..]) == Some(code)
  {
    var m := HttpErrorPrefix + IntToString(code);
    IntToStringRoundTrip(code);
    assert m[|HttpErrorPrefix|..] == IntToString(code);
    m
  }

  /// Distinct status codes give distinct messages.
  lemma HttpErrorMessageInjective(a: int, b: int)
    requires HttpErrorMessage(a) == HttpErrorMessage(b)
    ensures a == b
  {
  }

  /// The synthesized decoder of a response wrapper whose `data` is optional and
  /// holds one required list under `key`: an absent or null `data` is the
  /// empty list.
  function DecodeEnvelope<T>(j: Json, key: string, dec: (nat, Json) -> Result<T>): (r: Result<seq<T>>)
    ensures !j.JObj? ==> r.Err?
    ensures j.JObj? && ("data" !in j.fields || j.fields["data"] == JNull) ==> r == Ok([])
    ensures r.Ok? && "data" in j.fields && j.fields["data"] != JNull ==>
              j.fields["data"].JObj? && key in j.fields["data"].fields &&
              DecodeArray(j.fields["data"].fields[key], dec) == r
    ensures j.JObj? && "data" in j.fields && j.fields["data"].JObj? && key !in j.fields["data"].fields ==>
              r == Err(KeyNotFound(key))
    ensures j.JObj? && "data" in j.fields && j.fields["data"].JObj? && key in j.fields["data"].fields &&
            j.fields["data"].fields[key] != JNull ==>
              r == DecodeArray(j.fields["data"].fields[key], dec)
    ensures j.JObj? && "data" in j.fields && j.fields["data"] != JNull && !j.fields["data"].JObj? ==> r.Err?
  {
    var o :- Container(j);
    var list :- IfPresentWith(o, "data", (d: Json) =>
      var c :- Container(d);
      RequiredWith(c, key, (a: Json) => DecodeArray(a, dec)));
    Ok(list.GetOr([]))
  }

  /// The body of a successful response, decoded with this response's clock
  /// and identifiers; bytes that are not JSON are a corrupted-data error.
  function DecodeBody<T>(body: Option<Json>, env: Env, key: string, dec: (Env, nat, Json) -> Result<T>): (r: Result<seq<T>>)
    ensures body.None? ==> r == Err(DataCorrupted(""))
    ensures body.Some? ==> r == DecodeEnvelope(body.value, key, (k: nat, x: Json) => dec(env, k, x))
  {
    match body
    case None => Err(DataCorrupted(""))
    case Some(j) => DecodeEnvelope(j, key, (k: nat, x: Json) => dec(env, k, x))
  }

  /// The observable state of a polling screen.
  datatype FeedState<T> = FeedState(items: seq<T>, isLoading: bool, errorMessage: Option<string>)

  /// The list a fetch puts on screen, if it puts one there: the fixture in
  /// debug mode, otherwise the decoded list of a successful response.
  function Delivered<T>(fixture: Option<seq<T>>, o: FetchOutcome, key: string, dec: (Env, nat, Json) -> Result<T>): (d: Option<seq<T>>)
    ensures fixture.Some? ==> d == fixture
    ensures fixture.None? && d.Some? ==> o.Response? && IsSuccessStatus(o.status)
  {
    if fixture.Some? then fixture
    else if o.Response? && IsSuccessStatus(o.status) && DecodeBody(o.body, o.env, key, dec).Ok? then
      Some(DecodeBody(o.body, o.env, key, dec).value)
    else None
  }

  /// `fetchOnce` after its opening `isLoading = true; errorMessage = nil`:
  /// debug mode shows the fixture; a non-2xx status reports the code; a
  /// decoded body replaces the list; a decoding or transport error reports
  /// its description; a cancellation reports nothing.  Every path ends with
  /// `isLoading = false`, and only a delivered list changes the items.
  function Fetched<T>(s: FeedState<T>, fixture: Option<seq<T>>, o: FetchOutcome, key: string,
                      dec: (Env, nat, Json) -> Result<T>, describe: DecodeError -> string): (r: FeedState<T>)
    ensures !r.isLoading
    ensures r.items == Delivered(fixture, o, key, dec).GetOr(s.items)
    ensures r.errorMessage.None? <==> Delivered(fixture, o, key, dec).Some? || (fixture.None? && o.Cancelled?)
    ensures fixture.None? && o.Response? && !IsSuccessStatus(o.status) ==>
              r.errorMessage == Some(HttpErrorMessage(o.status))
    ensures fixture.None? && o.Response? && IsSuccessStatus(o.status) && DecodeBody(o.body, o.env, key, dec).Err? ==>
              r.errorMessage == Some(describe(DecodeBody(o.body, o.env, key, dec).error))
    ensures fixture.None? && o.Failed? ==> r.errorMessage == Some(o.description)
  {
    if fixture.Some? then FeedState(fixture.value, false, None)
    else
      match o
      case Response(status, body, env) =>
        if !IsSuccessStatus(status) then FeedState(s.items, false, Some(HttpErrorMessage(status)))
        else
          (match DecodeBody(body, env, key, dec)
           case Ok(xs) => FeedState(xs, false, None)
           case Err(e) => FeedState(s.items, false, Some(describe(e))))
      case Cancelled => FeedState(s.items, false, None)
      case Failed(description) => FeedState(s.items, false, Some(description))
  }

  /// The state after a polling loop has run `outcomes`, one fetch each, in
  /// order.
  function Replay<T>(s: FeedState<T>, fixture: Option<seq<T>>, outcomes: seq<FetchOutcome>, key: string,
                     dec: (Env, nat, Json) -> Result<T>, describe: DecodeError -> string): FeedState<T>
    decreases |outcomes|
  {
    if outcomes == [] then s
    else Fetched(Replay(s, fixture, outcomes[..|outcomes| - 1], key, dec, describe),
                 fixture, outcomes[|outcomes| - 1], key, dec, describe)
  }

  /// The list of the most recent fetch that delivered one, or `fallback`.
  function LastDelivered<T>(fallback: seq<T>, fixture: Option<seq<T>>, outcomes: seq<FetchOutcome>, key: string,
                            dec: (Env, nat, Json) -> Result<T>): seq<T>
    decreases |outcomes|
  {
    if outcomes == [] then fallback
    else
      match Delivered(fixture, outcomes[|outcomes| - 1], key, dec)
      case Some(xs) => xs
      case None => LastDelivered(fallback, fixture, outcomes[..|outcomes| - 1], key, dec)
  }

  /// A polling screen always shows the list of the latest fetch that
  /// delivered one: failed, rejected and cancelled fetches in between never
  /// clear or alter it.
  lemma {:induction false} ReplayShowsLastDelivered<T>(s: FeedState<T>, fixture: Option<seq<T>>, outcomes: seq<FetchOutcome>,
                                                       key: string, dec: (Env, nat, Json) -> Result<T>, describe: DecodeError -> string)
    ensures Replay(s, fixture, outcomes, key, dec, describe).items == LastDelivered(s.items, fixture, outcomes, key, dec)
    decreases |outcomes|
  {
    if outcomes != [] {
      ReplayShowsLastDelivered(s, fixture, outcomes[..|outcomes| - 1], key, dec, describe);
    }
  }

  /// The error message on screen is that of the latest fetch alone: earlier
  /// errors never linger, whatever state the screen was in.
  lemma ReplayErrorIsLastFetchs<T>(s: FeedState<T>, t: FeedState<T>, fixture: Option<seq<T>>, outcomes: seq<FetchOutcome>,
                                   key: string, dec: (Env, nat, Json) -> Result<T>, describe: DecodeError -> string)
    requires outcomes != []
    ensures Replay(s, fixture, outcomes, key, dec, describe).errorMessage ==
            Fetched(t, fixture, outcomes[|outcomes| - 1], key, dec, describe).errorMessage
    ensures !Replay(s, fixture, outcomes, key, dec, describe).isLoading
  {
  }

  /// The handle of a polling loop: a `Task` whose only observable state is
  /// whether it has been cancelled, and the pause between two fetches.
  class PollingTask {
    var cancelled: bool
    const intervalSeconds: nat

    constructor(intervalSeconds: nat)
      ensures !cancelled && this.intervalSeconds == intervalSeconds
    {
      this.intervalSeconds := intervalSeconds;
      cancelled := false;
    }

    /// `Task.cancel()`: idempotent.
    method Cancel()
      modifies this
      ensures cancelled
    {
      cancelled := true;
    }
  }
}
