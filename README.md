# Sentio data layer, modelled in Dafny

Sentio is an iOS trading dashboard with three screens:
- **Signals**: buy and sell recommendations with indicator metrics.
- **Positions**: open positions with their unrealized profit.
- **Profits history**: a paginated list of daily profit summaries.

Each screen is driven by a view model. The view model polls or pages a GraphQL endpoint and decodes the response with tolerant, hand-written `Codable` initialisers. This project models that data layer and proves what it guarantees:

- **Tolerant decoders.** `Symbol`, `Position`, both `Metric`/`Signal` declarations, `PageInfo`, `ProfitSummary` and `ProfitLog` each have a decoder and an encoder.
  - The proofs state which alternative of each fallback chain wins.
  - They state exactly when a record fails, and with which error.
  - They state which encode/decode round trips hold and what is lost in the others.
- **Feed state machines.**
  - The two polling view models (`SignalsViewModel`, `PositionsViewModel`) are Dafny classes. Each has a polling handle, a `fetchOnce` transition and a loop proved against a replay function.
  - The profits `ViewModel` is a class with an in-flight guard. Its cursor decides between replacing and appending.
- **Tab selection.** The persisted raw `Int` maps to the four tabs, and the getter falls back to the signals tab.

Layout, one module per file:
- `codable.dfy`: the JSON value and `JSONDecoder`'s keyed-container primitives, as Swift's Foundation behaves.
- `decimal.dfy`: decimal rendering of integers.
- `lenient.dfy`: the shared number chain and date chain.
- One file per record type.
- `feed.dfy`: what the two polling screens share.
- `signals_view_model.dfy`, `positions_view_model.dfy`, `profits_view_model.dfy`: the three view models.
- `metric_test.dfy`: the standalone metric script. Its copy of `Metric` is identical to the signals screen's, so `SignalsSignal.Metric` and its decoder serve for both.
- `content_view.dfy`: the tab mapping.

Conventions:
- **Foundation services** are fields of a `Foundation` value and are not interpreted: `Double(String)`, `UInt(String)`, `UUID(uuidString:)`, the ISO-8601 and `yyyy-MM-dd HH:mm:ss` formatters, and `localizedDescription`. `Date()` and `UUID()` are parameters.
- **Numbers.** Swift's `Double` is a `real`. `Int` and `UInt` are 64-bit subset types.
- **Network.** The response to a request is an input, `FetchOutcome`.

Behaviour worth noting, which the model follows:
- **Profits decode errors.** A decode error in the profits feed sets no error.
- **Profits error is sticky.** The profits error is never cleared, not even by a later success.
- **Envelope without the list.** In the polling feeds, a `data` object that lacks the list key is a decode error, not an empty list.
- **Appending needs a cursor.** `loadMore` appends only when it is given a cursor.
- **Transport errors.** They are reported by their description, with no error kinds.
- **Timeouts.** The app sets no timeout of its own, so `URLRequest`'s default of 60 seconds applies. A time-out is an ordinary transport failure (`Failed`).

## Model

| member | source | states |
|---|---|---|
| SymbolModel.DecodeTicker | Sentio/Sentio/Shared/Symbol.swift:33-40 | the ticker is "ticker" when that holds a string, else "symbol"; fails with keyNotFound(ticker) exactly when neither holds a string |
| SymbolModel.DecodePrice | Sentio/Sentio/Shared/Symbol.swift:46-52 | absent price is nil; a number is taken as is; a string goes through Double(String), nil when unparseable; never fails |
| SymbolModel.DecodeSymbol | Sentio/Sentio/Shared/Symbol.swift:29-53 | succeeds exactly for an object with a string ticker or symbol key; name is the string "name" or ""; price from the price chain |
| SymbolModel.EncodeSymbol | Sentio/Sentio/Shared/Symbol.swift:56-61 | writes exactly ticker and name, plus price only when non-nil, never "symbol" |
| SymbolModel.SymbolRoundTrip | Sentio/Sentio/Shared/Symbol.swift:29-61 | decoding the encoding of any symbol gives it back |
| SymbolModel.BareTicker | Sentio/Sentio/Shared/Position.swift:99 | the placeholder symbol built from a ticker has empty name and no price |
| SymbolModel.NestedOrTicker | Sentio/Sentio/Shared/Position.swift:96-99 | a nested symbol wins, else a bare ticker string; nothing otherwise |
| SymbolModel.TickerOnlySurvives | Sentio/Sentio/Shared/Position.swift:174 | a symbol written as its ticker reads back with name and price lost; exact only for a bare ticker |
| Lenient.LenientNumber | Sentio/Sentio/Shared/Position.swift:124-129 | number, else integer widened, else Double(String) of a string; nil exactly when none applies |
| Lenient.LenientDate | Sentio/Sentio/Shared/Position.swift:137-154 | epoch double, else epoch int, else ISO-8601, else yyyy-MM-dd HH:mm:ss, else now; never fails |
| Lenient.NumberEncodingsAgree | Sentio/Sentio/Signals/Signal.swift:35-40 | 2, 2.0 and "2" decode to the same 2.0 |
| Lenient.UnparseableNumberIsDefault | Sentio/Sentio/Signals/Signal.swift:39-43 | an unparseable string becomes the default 0.0, not an error |
| Decimal.IntToString | Sentio/Sentio/Shared/Position.swift:87 | String(i) is non-empty and starts with '-' exactly for negatives |
| Decimal.IntToStringRoundTrip | Sentio/Sentio/Shared/Position.swift:87 | the decimal rendering of an integer id reads back to the same integer |
| Decimal.IntToStringInjective | Sentio/Sentio/Shared/Position.swift:87 | distinct integer ids give distinct string ids |
| PositionModel.UnrealizedPnL | Sentio/Sentio/Shared/Position.swift:55-58 | nil exactly when the symbol has no price; else (current - entry) * quantity |
| PositionModel.UnrealizedPnLPercent | Sentio/Sentio/Shared/Position.swift:60-63 | nil exactly when the entry price is 0 or there is no current price; else the move is that percentage of the entry price |
| PositionModel.PnLPercentMatchesPnL | Sentio/Sentio/Shared/Position.swift:55-63 | for every position with a percentage, the percentage times entry price times quantity is the unrealized profit |
| PositionModel.AsUuid | Sentio/Sentio/Shared/Position.swift:88 | only a string can be read as a UUID, and a string is read by the UUID parser |
| PositionModel.DecodeId | Sentio/Sentio/Shared/Position.swift:84-93 | a string id wins, else an integer in decimal, else the fresh id when no string or integer is there |
| PositionModel.DecodePositionSymbol | Sentio/Sentio/Shared/Position.swift:96-103 | nested symbol, else bare ticker, else the empty placeholder |
| PositionModel.DecodePositionSignal | Sentio/Sentio/Shared/Position.swift:106-110 | some signal exactly when a non-null "signal" decodes as a Signal; nil otherwise, never a failure |
| PositionModel.DecodeAnnotation | Sentio/Sentio/Shared/Position.swift:134 | the annotation is present exactly when "annotation" holds a string |
| PositionModel.DurationAsWritten | Sentio/Sentio/Shared/Position.swift:159-167 | the chain traps exactly when the value is a whole number that UInt rejects and Int accepts |
| PositionModel.NegativeDurationTraps | Sentio/Sentio/Shared/Position.swift:161-162 | {"duration": -1} traps |
| PositionModel.DecodeDuration | Sentio/Sentio/Shared/Position.swift:159-167 | agrees with the written chain wherever that does not trap, gives 0 where it does; UInt and numeric strings are taken as is |
| PositionModel.DecodePosition | Sentio/Sentio/Shared/Position.swift:80-168 | fails exactly for a non-object; each field is its chain: quantity, price and profit default to 0.0, stop loss and take profit to nil, created_at via the date chain; duration is the corrected chain, so a negative whole duration gives 0 where the code as written traps (see Findings) |
| PositionModel.EmptyObjectDefaults | Sentio/Sentio/Shared/Position.swift:80-168 | {} decodes to the fresh id, the empty symbol, zeros, nils and now |
| PositionModel.RequiredFields | Sentio/Sentio/Shared/Position.swift:172-191 | the keys always written and their values: symbol as ticker, created_at as an ISO-8601 string |
| PositionModel.EncodePosition | Sentio/Sentio/Shared/Position.swift:170-192 | writes exactly the required keys plus signal, stop_loss, take_profit and annotation, each present exactly when non-nil |
| PositionModel.PositionReDecode | Sentio/Sentio/Shared/Position.swift:170-192 | re-decoding an encoded position gives it back with the symbol (and its signal's symbol) cut to the bare ticker |
| SignalTypes.FromRawValue | Sentio/Sentio/Signals/Signal.swift:6-12 | a raw value is recognised exactly when it is one of the five strings, case-sensitively |
| SignalTypes.RawValueRoundTrip | Sentio/Sentio/Signals/Signal.swift:6-12 | every type is recognised from its raw value |
| SignalTypes.RawValueInjective | Sentio/Sentio/Signals/Signal.swift:6-12 | the five raw values are distinct |
| SignalTypes.DecodeSignalType | Sentio/Sentio/Signals/Signal.swift:93 | succeeds exactly for a string that is a raw value; another string is dataCorrupted |
| SignalTypes.EncodeSignalType | Sentio/Sentio/Signals/Signal.swift:103 | the written type decodes back to itself |
| SignalsSignal.DecodeMetric | Sentio/Sentio/Signals/Signal.swift:30-44 | succeeds exactly for an object with a string "key"; the value is the number chain or 0.0 |
| SignalsSignal.EncodeMetric | Sentio/Sentio/Signals/Signal.swift:46-50 | writes exactly key and value, the value always as a number |
| SignalsSignal.MetricRoundTrip | Sentio/Sentio/Signals/Signal.swift:30-50 | a metric round-trips exactly |
| SignalsSignal.DecodeMetrics | Sentio/Sentio/Signals/Signal.swift:94 | a metrics array decodes exactly when each element is a metric with a "key", keeping length and order |
| SignalsSignal.EncodeMetrics | Sentio/Sentio/Signals/Signal.swift:104 | an array of the encoded metrics, in order |
| SignalsSignal.MetricsRoundTrip | Sentio/Sentio/Signals/Signal.swift:94-104 | a metric list round-trips exactly, order included |
| SignalsSignal.DecodeSignalSymbol | Sentio/Sentio/Signals/Signal.swift:83-90 | nested symbol or bare ticker; otherwise keyNotFound(symbol) |
| SignalsSignal.DecodeSignal | Sentio/Sentio/Signals/Signal.swift:78-95 | decodes exactly when there is a string id, a usable symbol, a number confidence, a raw-value type and absent, null or decodable metrics; absent or null metrics is [] |
| SignalsSignal.EncodeSignal | Sentio/Sentio/Signals/Signal.swift:97-105 | writes exactly id, symbol (as the ticker), confidence, type and metrics |
| SignalsSignal.SignalReDecode | Sentio/Sentio/Signals/Signal.swift:78-105 | re-decoding gives the signal with its symbol cut to the ticker |
| SignalsSignal.SignalRoundTripExactly | Sentio/Sentio/Signals/Signal.swift:78-105 | a signal round-trips exactly when its symbol has no name and no price |
| SharedSignal.DecodeMetric | Sentio/Sentio/Shared/Signal.swift:34-48 | succeeds exactly for an object with a string "name"; value via the number chain or 0.0 |
| SharedSignal.EncodeMetric | Sentio/Sentio/Shared/Signal.swift:50-54 | writes name and value, never "key" |
| SharedSignal.MetricRoundTrip | Sentio/Sentio/Shared/Signal.swift:34-54 | a metric round-trips exactly |
| SharedSignal.DecodeMetrics | Sentio/Sentio/Shared/Signal.swift:98 | a metrics array decodes exactly when each element is a metric with a "name", keeping length and order |
| SharedSignal.EncodeMetrics | Sentio/Sentio/Shared/Signal.swift:108 | an array of the encoded metrics, in order |
| SharedSignal.MetricsRoundTrip | Sentio/Sentio/Shared/Signal.swift:98-108 | a metric list round-trips exactly |
| SharedSignal.MakeSignal | Sentio/Sentio/Shared/Signal.swift:73-79 | the memberwise init makes the id the ticker |
| SharedSignal.DecodeSignal | Sentio/Sentio/Shared/Signal.swift:81-99 | the id is always the ticker; a bad symbol is keyNotFound(symbol); confidence required; a missing or unknown type is hold; absent metrics is [], present metrics decode as a list; a usable symbol and confidence suffice when metrics are absent |
| SharedSignal.TypeNeverFails | Sentio/Sentio/Shared/Signal.swift:97-98 | with a usable symbol and confidence, and metrics that are absent, null or a list of decodable metrics, the record decodes whatever "type" holds, and no type is hold |
| SharedSignal.EncodeSignal | Sentio/Sentio/Shared/Signal.swift:101-109 | writes symbol, confidence, type and metrics and no id |
| SharedSignal.SignalReDecode | Sentio/Sentio/Shared/Signal.swift:94 | although no id is written, re-decoding restores it |
| MetricScript.Run | metric_test.swift:54-66 | the script fails exactly when the array does not decode; otherwise it reports the decoded list and its encoding, which decodes back to the same list |
| MetricScript.SampleDecodes | metric_test.swift:40-47 | the four sample records decode, in order, to a 1.23, b 2.0, c 3.45, d 0.0 |
| MetricScript.MissingKeyFailsAll | metric_test.swift:20 | one record without "key" makes the whole array, and the script, fail |
| PageInfoModel.DecodePageInfo | Sentio/Sentio/Shared/PageInfo.swift:25-31 | cursors optional but string when present; both flags required booleans; a missing has_next_page is keyNotFound |
| PageInfoModel.EncodePageInfo | Sentio/Sentio/Shared/PageInfo.swift:33-39 | both flags always, each cursor exactly when non-nil |
| PageInfoModel.PageInfoRoundTrip | Sentio/Sentio/Shared/PageInfo.swift:25-39 | decode(encode(p)) == p |
| PageInfoModel.EqualIsIdentity | Sentio/Sentio/Shared/PageInfo.swift:50-55 | the field-wise == holds exactly for identical values |
| PageInfoModel.EqualHashesEqual | Sentio/Sentio/Shared/PageInfo.swift:43-55 | equal values hash equally whatever the hasher |
| PageInfoModel.Equal | Sentio/Sentio/Shared/PageInfo.swift:50-55 | `==` compares the four fields; it carries no contract of its own (EqualIsIdentity proves it is identity) |
| PageInfoModel.HashInputs | Sentio/Sentio/Shared/PageInfo.swift:43-48 | what `hash(into:)` combines, in order; no contract of its own (HashInputsDetermineValue proves it determines the value) |
| PageInfoModel.Hash | Sentio/Sentio/Shared/PageInfo.swift:43-48 | the hash is the hasher's final function of those inputs; no contract of its own (EqualHashesEqual relates it to `==`) |
| PageInfoModel.HashInputsDetermineValue | Sentio/Sentio/Shared/PageInfo.swift:43-48 | the hasher is fed all four compared fields |
| ProfitSummaryModel.DecodeProfitSummary | Sentio/Sentio/Shared/ProfitSummary.swift:51-82 | succeeds exactly when id, profit, trade_count, win_rate, winning_trades and losing_trades are all readable; dates via the date chain |
| ProfitSummaryModel.EncodeProfitSummary | Sentio/Sentio/Shared/ProfitSummary.swift:84-94 | writes exactly the eight keys |
| ProfitSummaryModel.ProfitSummaryReDecode | Sentio/Sentio/Shared/ProfitSummary.swift:51-94 | whatever the date encoding, a written summary reads back with every non-date field unchanged |
| ProfitSummaryModel.ProfitSummaryEpochRoundTrip | Sentio/Sentio/Shared/ProfitSummary.swift:55-60 | with epoch dates the whole summary round-trips |
| ProfitSummaryModel.ProfitSummaryDefaultDatesShift | Sentio/Sentio/Shared/ProfitSummary.swift:87-88 | written with the encoder's default date strategy, both dates read back 978307200 seconds early and the rest survives |
| ProfitLogModel.DecodeProfitLog | Sentio/Sentio/Shared/ProfitLog.swift:34-61 | succeeds exactly when equity, invested and running_positions are readable; the id is the date-chain time |
| ProfitLogModel.EncodeProfitLog | Sentio/Sentio/Shared/ProfitLog.swift:63-69 | writes exactly time, equity, invested, running_positions |
| ProfitLogModel.ProfitLogReDecode | Sentio/Sentio/Shared/ProfitLog.swift:34-69 | whatever the date encoding, a written log reads back with its figures |
| ProfitLogModel.Id | Sentio/Sentio/Shared/ProfitLog.swift:16-18 | the id is the time stamp; no contract of its own (DecodeProfitLog and EncodeProfitLog state it through `Id`) |
| ProfitLogModel.ProfitLogEpochRoundTrip | Sentio/Sentio/Shared/ProfitLog.swift:16-18 | with epoch dates the time, and so the id, survives too |
| ProfitLogModel.ProfitLogDefaultDateShifts | Sentio/Sentio/Shared/ProfitLog.swift:65 | written with the encoder's default date strategy, the time reads back 978307200 seconds early, so the log does not round-trip |
| Feed.IsSuccessStatus | Sentio/Sentio/Signals/SignalsViewModel.swift:130 | a status succeeds exactly when it is in the 2xx class |
| Feed.HttpErrorMessage | Sentio/Sentio/Signals/SignalsViewModel.swift:131 | the message is "HTTP error: " followed by the code, which reads back from it |
| Feed.DecodeEnvelope | Sentio/Sentio/Signals/SignalsViewModel.swift:7-12 | absent or null data is []; a data object without the list is keyNotFound, with it the decoded list; a data that is not an object fails |
| Feed.DecodeBody | Sentio/Sentio/Signals/SignalsViewModel.swift:136 | bytes that are not JSON are corrupted data; JSON goes through the envelope |
| Feed.Delivered | Sentio/Sentio/Signals/SignalsViewModel.swift:94-137 | only debug mode or a 2xx response can put a list on screen |
| Feed.Fetched | Sentio/Sentio/Signals/SignalsViewModel.swift:89-146 | ends not loading; items change only to a delivered list; no error exactly on delivery or cancellation; HTTP, decode and transport errors give their messages |
| Feed.ReplayShowsLastDelivered | Sentio/Sentio/Signals/SignalsViewModel.swift:45-57 | after any run of fetches the screen shows the list of the latest fetch that delivered one |
| Feed.ReplayErrorIsLastFetchs | Sentio/Sentio/Signals/SignalsViewModel.swift:90-91 | the error shown is that of the latest fetch alone |
| Feed.PollingTask.Cancel | Sentio/Sentio/Signals/SignalsViewModel.swift:62 | cancelling marks the task cancelled |
| SignalsFeed.MockSignals | Sentio/Sentio/Signals/SignalsViewModel.swift:67-86 | four signals tqqq, spy, qqq, aapl with confidences in 0..1 |
| SignalsFeed.Fixture | Sentio/Sentio/Signals/SignalsViewModel.swift:94-103 | debug mode, and only debug mode, substitutes the mock signals |
| SignalsFeed.DebugFetchShowsMocks | Sentio/Sentio/Signals/SignalsViewModel.swift:94-103 | in debug mode a fetch shows exactly the mocks and no error, whatever the network says |
| SignalsFeed.MissingEnvelopeEmptiesList | Sentio/Sentio/Signals/SignalsViewModel.swift:136-138 | a 2xx response without data empties the list |
| SignalsFeed.SignalsViewModel.constructor | Sentio/Sentio/Signals/SignalsViewModel.swift:29-33 | empty, idle, no task, debug mode as persisted |
| SignalsFeed.SignalsViewModel.SetDebugMode | Sentio/Sentio/Signals/SignalsViewModel.swift:36-39 | applies and persists the switch; nothing else changes |
| SignalsFeed.SignalsViewModel.StartPolling | Sentio/Sentio/Signals/SignalsViewModel.swift:41-59 | keeps an existing task; otherwise a fresh uncancelled 60 s task |
| SignalsFeed.SignalsViewModel.StopPolling | Sentio/Sentio/Signals/SignalsViewModel.swift:61-64 | cancels the task if any and drops the handle |
| SignalsFeed.SignalsViewModel.BeginFetch | Sentio/Sentio/Signals/SignalsViewModel.swift:90-91 | loading, no error, list kept |
| SignalsFeed.SignalsViewModel.FetchOnce | Sentio/Sentio/Signals/SignalsViewModel.swift:89-146 | the new state is the fetch transition of the old state, the debug mode and the outcome |
| SignalsFeed.SignalsViewModel.Poll | Sentio/Sentio/Signals/SignalsViewModel.swift:45-57 | one fetch, then one per completed pause until cancelled; the state is the replay of those fetches |
| PositionsFeed.ObjectsAlwaysDecode | Sentio/Sentio/Positions/PositionsViewModel.swift:106-107 | a list of objects always decodes, one position per element, with no error; this rests on the corrected duration chain, as the code as written traps on a negative whole duration (see Findings) |
| PositionsFeed.TotalUnrealizedPnL | Sentio/Sentio/Positions/PositionsViewModel.swift:57-66 | each step of the reduction adds the last position's own unrealized profit, or nothing when it has no current price; a list with no priced position totals 0 |
| PositionsFeed.Priced | Sentio/Sentio/Positions/PositionsViewModel.swift:59 | keeps every position that has a current price, as often as it occurs, and drops every other; a fully priced list is kept as is |
| PositionsFeed.TotalAppend | Sentio/Sentio/Positions/PositionsViewModel.swift:57-66 | the total over a concatenation is the sum of the totals |
| PositionsFeed.TotalIsSumOfPnL | Sentio/Sentio/Positions/PositionsViewModel.swift:57-66 | the total is the sum of each position's unrealized profit |
| PositionsFeed.UnpricedContributeNothing | Sentio/Sentio/Positions/PositionsViewModel.swift:59-64 | dropping positions without a price leaves the total unchanged |
| PositionsFeed.PricedSum | Sentio/Sentio/Positions/PositionsViewModel.swift:59-64 | positions without a price add nothing to the sum |
| PositionsFeed.PositionsViewModel.constructor | Sentio/Sentio/Positions/PositionsViewModel.swift:28-30 | empty, idle, no task |
| PositionsFeed.PositionsViewModel.StartPolling | Sentio/Sentio/Positions/PositionsViewModel.swift:32-50 | keeps an existing task; otherwise a fresh uncancelled 15 s task |
| PositionsFeed.PositionsViewModel.StopPolling | Sentio/Sentio/Positions/PositionsViewModel.swift:52-55 | cancels the task if any and drops the handle |
| PositionsFeed.PositionsViewModel.BeginFetch | Sentio/Sentio/Positions/PositionsViewModel.swift:69-70 | loading, no error, list kept |
| PositionsFeed.PositionsViewModel.FetchOnce | Sentio/Sentio/Positions/PositionsViewModel.swift:68-115 | the new state is the fetch transition (no debug mode) of the old state and the outcome |
| PositionsFeed.PositionsViewModel.Poll | Sentio/Sentio/Positions/PositionsViewModel.swift:36-49 | one fetch, then one per completed pause until cancelled; the state is their replay |
| ProfitsFeed.DecodeConnection | Sentio/Sentio/Profits/ViewModel.swift:15-18 | edges and page_info both required; decodes exactly to the edges and page info their own decoders give |
| ProfitsFeed.DecodeProfitsResponse | Sentio/Sentio/Profits/ViewModel.swift:10-21 | absent or null data is nil; a data object holding a decodable Profits gives that connection, one without Profits is keyNotFound; a non-object data fails |
| ProfitsFeed.Classify | Sentio/Sentio/Profits/ViewModel.swift:84-110 | HTTP error exactly for a non-2xx response, with its code; a page exactly when a 2xx body decodes |
| ProfitsFeed.Apply | Sentio/Sentio/Profits/ViewModel.swift:85-110 | errors leave data and page alone; only HTTP errors set error; a page replaces (no cursor) or appends (cursor) and replaces page wholesale |
| ProfitsFeed.HasNextPage | Sentio/Sentio/Profits/ViewModel.swift:37-39 | true when no page is stored, else the page's has_next_page |
| ProfitsFeed.ShouldLoadMore | Sentio/Sentio/Profits/ProfitsView.swift:85 | only an item of the list can trigger a continuation, and never once a page has said there is no next page |
| ProfitsFeed.ContinuationCursor | Sentio/Sentio/Profits/ViewModel.swift:48-59 | the cursor a continuation needs, the stored page's end cursor; no contract of its own (ScrollAppendsPages uses it) |
| ProfitsFeed.ContinuationCursorAsWritten | Sentio/Sentio/Profits/ProfitsView.swift:85-88 | the trigger passes no cursor; no contract of its own (ScrollAsWrittenKeepsLastPage uses it) |
| ProfitsFeed.Scroll | Sentio/Sentio/Profits/ProfitsView.swift:85-88 | continuations answered with pages never change the recorded error, and the stored page info is the last page's |
| ProfitsFeed.ScrollAsWritten | Sentio/Sentio/Profits/ProfitsView.swift:85-88 | the same for continuations without a cursor |
| ProfitsFeed.ScrollAppendsPages | Sentio/Sentio/Profits/ViewModel.swift:95-101 | continuations with end cursors append every page in server order |
| ProfitsFeed.RefreshThenScroll | Sentio/Sentio/Profits/ViewModel.swift:41-46 | a refresh followed by continuations shows exactly the pages loaded since the refresh |
| ProfitsFeed.ScrollAsWrittenKeepsLastPage | Sentio/Sentio/Profits/ProfitsView.swift:85-88 | continuations without a cursor leave only the last page received |
| ProfitsFeed.ContinuationDropsShownPage | Sentio/Sentio/Profits/ProfitsView.swift:85-88 | with [a] shown and next page [b], the trigger as written shows [b], the corrected one [a, b] |
| ProfitsFeed.ProfitsViewModel.constructor | Sentio/Sentio/Profits/ViewModel.swift:28-35 | empty, idle, no page, no error |
| ProfitsFeed.ProfitsViewModel.BeginLoad | Sentio/Sentio/Profits/ViewModel.swift:49-51 | starts exactly when no load is in flight; nothing else changes |
| ProfitsFeed.ProfitsViewModel.FinishLoad | Sentio/Sentio/Profits/ViewModel.swift:52-110 | not loading afterwards; data, page and error as Apply of the classified outcome |
| ProfitsFeed.ProfitsViewModel.LoadMore | Sentio/Sentio/Profits/ViewModel.swift:48-111 | in flight: no request, nothing changes; otherwise one request (after, 20) and the Apply state |
| ProfitsFeed.ProfitsViewModel.Refresh | Sentio/Sentio/Profits/ViewModel.swift:41-46 | page cleared, then the first page loaded; old data kept until it arrives |
| ProfitsFeed.ProfitsViewModel.ItemAppearedAsWritten | Sentio/Sentio/Profits/ProfitsView.swift:85-88 | on the last item with more pages, loadMore without a cursor |
| ProfitsFeed.ProfitsViewModel.ItemAppeared | Sentio/Sentio/Profits/ProfitsView.swift:85-88 | on the last item with more pages, loadMore with the page's end cursor |
| Tabs.Id | Sentio/Sentio/ContentView.swift:17 | the id is the raw value, in 0..3 |
| Tabs.FromRawValue | Sentio/Sentio/ContentView.swift:11-16 | a tab exactly for 0..3, with that raw value |
| Tabs.SelectedTab | Sentio/Sentio/ContentView.swift:27 | a stored 0..3 selects its tab, anything else the signals tab |
| Tabs.StoreTab | Sentio/Sentio/ContentView.swift:29 | the stored number is in 0..3 |
| Tabs.SelectAfterStore | Sentio/Sentio/ContentView.swift:26-30 | reading after writing gives back the tab written |
| Tabs.RawValueInjective | Sentio/Sentio/ContentView.swift:11-16 | the four raw values are distinct |
| Tabs.InitialSelectionIsSignals | Sentio/Sentio/ContentView.swift:22 | before any selection the signals tab is shown |

## Left out

- Network I/O is not modelled: `URLSession`, `JSONSerialization`, building the request, the query text and the HTTP headers. A request's result is an input (`FetchOutcome`). Only the profits view model returns the request's cursor and page size.
- Timers and concurrency are not modelled. `Task.sleep`, `Task {}` and cooperative cancellation become a sequential schedule: a polling loop receives the outcomes of the fetches that happen before it stops. The 150 ms debug delay is left out. `refresh`'s unstructured task runs as a plain call.
- The profits `loadMore` is split at its `await` into `BeginLoad` and `FinishLoad`, so that the in-flight guard can be observed. Other interleavings are not modelled: a debug-mode switch during a polling run, and the profits screen's tap handler, which also sets `isLoading`.
- Floating point is modelled as real arithmetic. This covers `Double` rounding, NaN and infinity, and what `JSONEncoder` does with them.
- `Double(String)`, `UInt(String)`, UUID parsing and formatting, both date formatters and error descriptions are uninterpreted. Properties that depend on them carry their results as preconditions.
- `Date()` is one clock reading per response. `UUID()` is one fresh identifier per list element.
- Date round trips are not claimed in general. `ProfitSummary` and `ProfitLog` encode dates with the encoder's strategy, which here is a parameter. With epoch numbers they round-trip. With `JSONEncoder`'s default strategy a date is written as seconds since 2001-01-01, but the decoder reads a number as seconds since 1970, so every date comes back 978307200 seconds early (ProfitSummaryModel.ProfitSummaryDefaultDatesShift, ProfitLogModel.ProfitLogDefaultDateShifts). `Position` writes an ISO-8601 string, and it reads back only if the formatter reads its own output; that is a precondition.
- PositionModel.DecodePosition: uses the corrected duration chain, so it never traps. On a negative whole `duration` the code as written stops the app instead (PositionModel.NegativeDurationTraps). PositionsFeed.ObjectsAlwaysDecode inherits this.
- PositionModel.DecodeId: nothing is stated about when the UUID alternative fires. It is reached only when the string alternative has failed, and the UUID decoder reads a string.
- Persistence is modelled as plain fields: the persisted debug flag in `SignalsViewModel`, and the stored tab number.
- The SwiftUI views and their formatting are not part of this model. The one exception is the profits list's scroll trigger.
- The mock-data generator script is not part of this model.
- The two `Signal.swift` files declare the same type names. They are modelled as two separate modules. `Position` nests the signals-screen declaration.
- `endpoint` and the URLs are not modelled.
- The profits view model's console logging is not modelled: the HTTP status, the raw response body, "Refreshing data" and the decoding error (Sentio/Sentio/Profits/ViewModel.swift:86, 92, 96, 106). It changes no state.

## Findings

| source | as written | input that shows it | evidently intended | confidence | as-written member | corrected member |
|---|---|---|---|---|---|---|
| Sentio/Sentio/Shared/Position.swift:159-167 | the `Int` alternative of `duration` runs only after `UInt` failed, so only for a negative whole number, and `UInt(_)` then traps | `{"duration": -1}` | a negative duration takes the default 0, like every other unusable value | high; not executed | PositionModel.NegativeDurationTraps | PositionModel.DecodeDuration |
| Sentio/Sentio/Profits/ProfitsView.swift:85-88 | the scroll trigger calls `loadMore()` with no cursor, so `after == nil` clears `data` and each continuation replaces the list | data `[a]`, page with end cursor "c1" and a next page, next response edges `[b]`: the list becomes `[b]` | pass the stored page's end cursor, so that the page is appended: `[a, b]` | high; not executed | ProfitsFeed.ScrollAsWrittenKeepsLastPage | ProfitsFeed.ScrollAppendsPages |
