/// `PositionsViewModel`: the open positions, refreshed every 15 seconds, and
/// their total unrealized profit.
module PositionsFeed {
  import opened Codable
  import opened Feed
  import opened PositionModel

  const PollIntervalSeconds: nat := 15

  /// How each element of `data.Positions` is decoded: with the response's
  /// clock and a fresh identifier of its own.
  function PositionDecoder(fd: Foundation): (Env, nat, Json) -> Result<Position> {
    (env: Env, k: nat, j: Json) => DecodePosition(j, fd, env.now, env.freshIds(k))
  }

  /// `fetchOnce` as a transition of the screen's state; there is no debug mode.
  function PositionsFetched(s: FeedState<Position>, o: FetchOutcome, fd: Foundation): FeedState<Position> {
    Fetched(s, None, o, "Positions", PositionDecoder(fd), fd.describe)
  }

  /// A list decodes as soon as every element is a JSON object: a position
  /// never rejects a field.
  lemma ObjectsAlwaysDecode(s: FeedState<Position>, items: seq<Json>, env: Env, fd: Foundation)
    requires forall k :: 0 <= k < |items| ==> items[k].JObj?
    ensures PositionsFetched(s, Response(200, Some(JObj(map["data" := JObj(map["Positions" := JArr(items)])])), env), fd).errorMessage == None
    ensures |PositionsFetched(s, Response(200, Some(JObj(map["data" := JObj(map["Positions" := JArr(items)])])), env), fd).items| == |items|
  {
    var body := JObj(map["data" := JObj(map["Positions" := JArr(items)])]);
    var dec := (k: nat, x: Json) => PositionDecoder(fd)(env, k, x);
    forall k | 0 <= k < |items|
      ensures dec(k, items[k]).Ok?
    {
      assert PositionDecoder(fd)(env, k, items[k]) == DecodePosition(items[k], fd, env.now, env.freshIds(k));
      assert dec(k, items[k]) == PositionDecoder(fd)(env, k, items[k]);
    }
    assert DecodeArray(JArr(items), dec).Ok?;
    assert DecodeEnvelope(body, "Positions", dec).Ok?;
  }

  /// `totalUnrealizedPnL`: `reduce(0.0)` over the positions, adding
  /// (current price - entry price) * quantity for each position that has a
  /// current price.
  function TotalUnrealizedPnL(ps: seq<Position>): (total: real)
    ensures ps != [] ==> total == TotalUnrealizedPnL(ps[..|ps| - 1]) + UnrealizedPnL(ps[|ps| - 1]).GetOr(0.0)
    ensures (forall i :: 0 <= i < |ps| ==> ps[i].symbol.price.None?) ==> total == 0.0
    decreases |ps|
  {
    if ps == [] then 0.0
    else
      var total := TotalUnrealizedPnL(ps[..|ps| - 1]);
      var p := ps[|ps| - 1];
      match p.symbol.price
      case Some(currentPrice) => total + (currentPrice - p.price) * p.quantity
      case None => total
  }

  /// The positions that have a current price.
  function Priced(ps: seq<Position>): (qs: seq<Position>)
    ensures forall i :: 0 <= i < |qs| ==> qs[i].symbol.price.Some?
    ensures |qs| <= |ps|
    ensures forall p :: multiset(qs)[p] == if p.symbol.price.Some? then multiset(ps)[p] else 0
    ensures (forall i :: 0 <= i < |ps| ==> ps[i].symbol.price.Some?) ==> qs == ps
    decreases |ps|
  {
    if ps == [] then []
    else
      assert ps == [ps[0]] + ps[1..];
      if ps[0].symbol.price.Some? then [ps[0]] + Priced(ps[1..]) else Priced(ps[1..])
  }

  /// The sum of each position's own `unrealizedPnL`, taken in list order.
  function SumPnL(ps: seq<Position>): real
    decreases |ps|
  {
    if ps == [] then 0.0 else UnrealizedPnL(ps[0]).GetOr(0.0) + SumPnL(ps[1..])
  }

  lemma {:induction false} TotalAppend(a: seq<Position>, b: seq<Position>)
    ensures TotalUnrealizedPnL(a + b) == TotalUnrealizedPnL(a) + TotalUnrealizedPnL(b)
    decreases |b|
  {
    if b == [] {
      assert a + b == a;
    } else {
      TotalAppend(a, b[..|b| - 1]);
      assert (a + b)[..|a + b| - 1] == a + b[..|b| - 1];
      assert (a + b)[|a + b| - 1] == b[|b| - 1];
    }
  }

  /// The running total is the sum of the positions' unrealized profits.
  lemma {:induction false} TotalIsSumOfPnL(ps: seq<Position>)
    ensures TotalUnrealizedPnL(ps) == SumPnL(ps)
    decreases |ps|
  {
    if ps != [] {
      TotalIsSumOfPnL(ps[1..]);
      TotalAppend([ps[0]], ps[1..]);
      assert [ps[0]] + ps[1..] == ps;
    }
  }

  /// Positions without a current price contribute nothing: dropping them
  /// leaves the total unchanged.
  lemma {:induction false} UnpricedContributeNothing(ps: seq<Position>)
    ensures TotalUnrealizedPnL(ps) == TotalUnrealizedPnL(Priced(ps))
    decreases |ps|
  {
    TotalIsSumOfPnL(ps);
    TotalIsSumOfPnL(Priced(ps));
    PricedSum(ps);
  }

  lemma {:induction false} PricedSum(ps: seq<Position>)
    ensures SumPnL(ps) == SumPnL(Priced(ps))
    decreases |ps|
  {
    if ps != [] {
      PricedSum(ps[1..]);
      if ps[0].symbol.price.Some? {
        assert ([ps[0]] + Priced(ps[1..]))[1..] == Priced(ps[1..]);
      }
    }
  }

  class PositionsViewModel {
    var positions: seq<Position>
    var isLoading: bool
    var errorMessage: Option<string>
    var pollingTask: PollingTask?
    const fd: Foundation

    function State(): FeedState<Position>
      reads this
    {
      FeedState(positions, isLoading, errorMessage)
    }

    constructor(fd: Foundation)
      ensures State() == FeedState([], false, None)
      ensures pollingTask == null && this.fd == fd
    {
      positions := [];
      isLoading := false;
      errorMessage := None;
      pollingTask := null;
      this.fd := fd;
    }

    /// `startPolling()`: a no-op while a task exists; otherwise a fresh,
    /// uncancelled 15-second loop.
    method StartPolling()
      modifies this
      ensures old(pollingTask) != null ==> pollingTask == old(pollingTask)
      ensures old(pollingTask) == null ==>
                pollingTask != null && fresh(pollingTask) && !pollingTask.cancelled &&
                pollingTask.intervalSeconds == PollIntervalSeconds
      ensures State() == old(State())
    {
      if pollingTask != null {
        return;
      }
      pollingTask := new PollingTask(PollIntervalSeconds);
    }

    /// `stopPolling()`: cancels the running task, if any, and drops the
    /// handle; safe to repeat.
    method StopPolling()
      modifies this, pollingTask
      ensures pollingTask == null
      ensures old(pollingTask) != null ==> old(pollingTask).cancelled
      ensures State() == old(State())
    {
      if pollingTask != null {
        pollingTask.Cancel();
      }
      pollingTask := null;
    }

    /// The opening of `fetchOnce`: loading, and no error.
    method BeginFetch()
      modifies this
      ensures isLoading && errorMessage == None && positions == old(positions)
      ensures pollingTask == old(pollingTask)
    {
      isLoading := true;
      errorMessage := None;
    }

    /// `fetchOnce()`, with the request's outcome as input.
    method FetchOnce(o: FetchOutcome)
      modifies this
      ensures State() == PositionsFetched(old(State()), o, fd)
      ensures pollingTask == old(pollingTask)
    {
      BeginFetch();
      match o {
        case Response(status, body, env) =>
          if !IsSuccessStatus(status) {
            errorMessage := Some(HttpErrorMessage(status));
            isLoading := false;
            return;
          }
          match DecodeBody(body, env, "Positions", PositionDecoder(fd)) {
            case Ok(xs) =>
              positions := xs;
              isLoading := false;
            case Err(e) =>
              isLoading := false;
              errorMessage := Some(fd.describe(e));
          }
        case Cancelled =>
          isLoading := false;
        case Failed(description) =>
          isLoading := false;
          errorMessage := Some(description);
      }
    }

    /// The body of the polling task: one fetch straight away, then, until the
    /// task is cancelled, a pause followed by another fetch.  Returns how many
    /// fetches ran.
    method Poll(task: PollingTask, outcomes: seq<FetchOutcome>) returns (fetches: nat)
      requires |outcomes| >= 1
      modifies this
      ensures fetches == (if task.cancelled then 1 else |outcomes|)
      ensures State() == Replay(old(State()), None, outcomes[..fetches], "Positions", PositionDecoder(fd), fd.describe)
      ensures pollingTask == old(pollingTask)
    {
      ghost var start := State();
      FetchOnce(outcomes[0]);
      fetches := 1;
      assert outcomes[..1][..0] == [];
      while fetches < |outcomes| && !task.cancelled
        invariant 1 <= fetches <= |outcomes|
        invariant task.cancelled ==> fetches == 1
        invariant pollingTask == old(pollingTask)
        invariant State() == Replay(start, None, outcomes[..fetches], "Positions", PositionDecoder(fd), fd.describe)
      {
        // The pause of `task.intervalSeconds` ended without cancellation.
        FetchOnce(outcomes[fetches]);
        assert outcomes[..fetches + 1][..fetches] == outcomes[..fetches];
        fetches := fetches + 1;
      }
    }
  }
}
