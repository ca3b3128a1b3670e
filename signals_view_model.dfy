/// `SignalsViewModel`: the signals screen's state, its debug switch, its
/// polling handle and the fetch that refreshes it every 60 seconds.
module SignalsFeed {
  import opened Codable
  import opened Feed
  import opened SymbolModel
  import opened SignalTypes
  import opened SignalsSignal

  const PollIntervalSeconds: nat := 60

  /// The four fixed signals that debug mode shows.
  function MockSignals(): (ms: seq<Signal>)
    ensures |ms| == 4
    ensures ms[0].id == "tqqq" && ms[1].id == "spy" && ms[2].id == "qqq" && ms[3].id == "aapl"
    ensures forall i :: 0 <= i < |ms| ==> 0.0 <= ms[i].confidence <= 1.0
  {
    var metrics1 := [Metric("RSI (14)", 34.2), Metric("BB Proximity", 0.95), Metric("Volume Ratio", 1.8)];
    var metrics2 := [Metric("RSI (14)", 62.1), Metric("Rotation Δ", 0.34), Metric("Volume Ratio", 0.9)];
    [ Signal("tqqq", Symbol("TQQQ", "ProShares Ultra QQQ", Some(102.2)), 0.87, StrongBuy, metrics1),
      Signal("spy", Symbol("SPY", "SPDR S&P 500 ETF Trust", Some(603.05)), 0.42, Hold, metrics2),
      Signal("qqq", Symbol("QQQ", "Invesco QQQ Trust", None), 0.65, Buy, metrics1),
      Signal("aapl", Symbol("AAPL", "Apple Inc.", None), 0.33, Sell, metrics2) ]
  }

  /// What a fetch shows instead of asking the network: the mock signals in
  /// debug mode, nothing otherwise.
  function Fixture(debugMode: bool): (f: Option<seq<Signal>>)
    ensures f.Some? <==> debugMode
    ensures f.Some? ==> f.value == MockSignals()
  {
    if debugMode then Some(MockSignals()) else None
  }

  /// How each element of `data.signals` is decoded.
  function SignalDecoder(fd: Foundation): (Env, nat, Json) -> Result<Signal> {
    (env: Env, k: nat, j: Json) => DecodeSignal(j, fd)
  }

  /// `fetchOnce` as a transition of the screen's state.
  function SignalsFetched(s: FeedState<Signal>, debugMode: bool, o: FetchOutcome, fd: Foundation): FeedState<Signal> {
    Fetched(s, Fixture(debugMode), o, "signals", SignalDecoder(fd), fd.describe)
  }

  /// In debug mode every fetch shows exactly the mock signals and no error,
  /// whatever the network would have answered.
  lemma DebugFetchShowsMocks(s: FeedState<Signal>, o: FetchOutcome, fd: Foundation)
    ensures SignalsFetched(s, true, o, fd) == FeedState(MockSignals(), false, None)
  {
  }

  /// A successful response without a `data` envelope empties the list.
  lemma MissingEnvelopeEmptiesList(s: FeedState<Signal>, env: Env, fd: Foundation)
    ensures SignalsFetched(s, false, Response(200, Some(JObj(map[])), env), fd) == FeedState([], false, None)
  {
    assert DecodeBody(Some(JObj(map[])), env, "signals", SignalDecoder(fd)) == Ok([]);
  }

  class SignalsViewModel {
    var signals: seq<Signal>
    var isLoading: bool
    var errorMessage: Option<string>
    var debugMode: bool
    /// The persisted "signals.debug" flag.
    var storedDebugMode: bool
    var pollingTask: PollingTask?
    const fd: Foundation

    function State(): FeedState<Signal>
      reads this
    {
      FeedState(signals, isLoading, errorMessage)
    }

    /// `init(endpoint:)`: debug mode starts as persisted.
    constructor(storedDebugMode: bool, fd: Foundation)
      ensures State() == FeedState([], false, None)
      ensures debugMode == storedDebugMode && this.storedDebugMode == storedDebugMode
      ensures pollingTask == null && this.fd == fd
    {
      signals := [];
      isLoading := false;
      errorMessage := None;
      debugMode := storedDebugMode;
      this.storedDebugMode := storedDebugMode;
      pollingTask := null;
      this.fd := fd;
    }

    /// `setDebugMode(_:)`: applies and persists the switch, so a view model
    /// created later starts in the same mode.
    method SetDebugMode(enabled: bool)
      modifies this
      ensures debugMode == enabled && storedDebugMode == enabled
      ensures State() == old(State()) && pollingTask == old(pollingTask)
    {
      debugMode := enabled;
      storedDebugMode := enabled;
    }

    /// `startPolling()`: a no-op while a task exists, so at most one loop runs;
    /// otherwise a fresh, uncancelled 60-second loop.
    method StartPolling()
      modifies this
      ensures old(pollingTask) != null ==> pollingTask == old(pollingTask)
      ensures old(pollingTask) == null ==>
                pollingTask != null && fresh(pollingTask) && !pollingTask.cancelled &&
                pollingTask.intervalSeconds == PollIntervalSeconds
      ensures State() == old(State()) && debugMode == old(debugMode) && storedDebugMode == old(storedDebugMode)
    {
      if pollingTask != null {
        return;
      }
      pollingTask := new PollingTask(PollIntervalSeconds);
    }

    /// `stopPolling()`: cancels the running task, if any, and drops the
    /// handle; safe to repeat.
    method StopPolling()
      modifies this, pollingTask
      ensures pollingTask == null
      ensures old(pollingTask) != null ==> old(pollingTask).cancelled
      ensures State() == old(State()) && debugMode == old(debugMode) && storedDebugMode == old(storedDebugMode)
    {
      if pollingTask != null {
        pollingTask.Cancel();
      }
      pollingTask := null;
    }

    /// The opening of `fetchOnce`: loading, and no error.
    method BeginFetch()
      modifies this
      ensures isLoading && errorMessage == None && signals == old(signals)
      ensures debugMode == old(debugMode) && storedDebugMode == old(storedDebugMode) && pollingTask == old(pollingTask)
    {
      isLoading := true;
      errorMessage := None;
    }

    /// `fetchOnce()`, with the request's outcome as input.
    method FetchOnce(o: FetchOutcome)
      modifies this
      ensures State() == SignalsFetched(old(State()), old(debugMode), o, fd)
      ensures debugMode == old(debugMode) && storedDebugMode == old(storedDebugMode) && pollingTask == old(pollingTask)
    {
      BeginFetch();
      if debugMode {
        signals := MockSignals();
        isLoading := false;
        return;
      }
      match o {
        case Response(status, body, env) =>
          if !IsSuccessStatus(status) {
            errorMessage := Some(HttpErrorMessage(status));
            isLoading := false;
            return;
          }
          match DecodeBody(body, env, "signals", SignalDecoder(fd)) {
            case Ok(xs) =>
              signals := xs;
              isLoading := false;
            case Err(e) =>
              isLoading := false;
              errorMessage := Some(fd.describe(e));
          }
        case Cancelled =>
          isLoading := false;
        case Failed(description) =>
          isLoading := false;
          errorMessage := Some(description);
      }
    }

    /// The body of the polling task: one fetch straight away, then, until the
    /// task is cancelled, a pause followed by another fetch.  `outcomes` are
    /// the fetches that happen before the loop ends; an error in one of them
    /// does not end it.  Returns how many fetches ran.
    method Poll(task: PollingTask, outcomes: seq<FetchOutcome>) returns (fetches: nat)
      requires |outcomes| >= 1
      modifies this
      ensures fetches == (if task.cancelled then 1 else |outcomes|)
      ensures State() == Replay(old(State()), Fixture(old(debugMode)), outcomes[..fetches], "signals", SignalDecoder(fd), fd.describe)
      ensures debugMode == old(debugMode) && storedDebugMode == old(storedDebugMode) && pollingTask == old(pollingTask)
    {
      ghost var start := State();
      FetchOnce(outcomes[0]);
      fetches := 1;
      assert outcomes[..1][..0] == [];
      while fetches < |outcomes| && !task.cancelled
        invariant 1 <= fetches <= |outcomes|
        invariant task.cancelled ==> fetches == 1
        invariant debugMode == old(debugMode) && storedDebugMode == old(storedDebugMode) && pollingTask == old(pollingTask)
        invariant State() == Replay(start, Fixture(debugMode), outcomes[..fetches], "signals", SignalDecoder(fd), fd.describe)
      {
        // The pause of `task.intervalSeconds` ended without cancellation.
        FetchOnce(outcomes[fetches]);
        assert outcomes[..fetches + 1][..fetches] == outcomes[..fetches];
        fetches := fetches + 1;
      }
    }
  }
}
