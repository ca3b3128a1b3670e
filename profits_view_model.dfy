/// The profits history screen's `ViewModel`: a cursor-paginated list of daily
/// summaries, loaded page by page with an in-flight guard, and the scroll
/// trigger that asks for the next page.
module ProfitsFeed {
  import opened Codable
  import opened Feed
  import opened PageInfoModel
  import opened ProfitSummaryModel

  /// `loadMore`'s default `limit`.
  const PageSize: nat := 20

  /// `ProfitsConnection`: one page of summaries and its cursor.
  datatype Connection = Connection(edges: seq<ProfitSummary>, pageInfo: PageInfo)

  function SummaryDecoder(fd: Foundation, now: Date): (nat, Json) -> Result<ProfitSummary> {
    (k: nat, x: Json) => DecodeProfitSummary(x, fd, now)
  }

  /// The synthesized `ProfitsConnection` decoder: "edges" then "page_info",
  /// both required.
  function DecodeConnection(j: Json, fd: Foundation, now: Date): (r: Result<Connection>)
    ensures r.Ok? ==> j.JObj? && "edges" in j.fields && "page_info" in j.fields
    ensures r.Ok? ==> DecodeArray(j.fields["edges"], SummaryDecoder(fd, now)) == Ok(r.value.edges)
    ensures r.Ok? ==> DecodePageInfo(j.fields["page_info"]) == Ok(r.value.pageInfo)
    ensures j.JObj? && "edges" !in j.fields ==> r == Err(KeyNotFound("edges"))
    ensures (j.JObj? && "edges" in j.fields && j.fields["edges"] != JNull &&
             DecodeArray(j.fields["edges"], SummaryDecoder(fd, now)).Ok? &&
             "page_info" in j.fields && j.fields["page_info"] != JNull &&
             DecodePageInfo(j.fields["page_info"]).Ok?) ==>
              r == Ok(Connection(DecodeArray(j.fields["edges"], SummaryDecoder(fd, now)).value,
                                 DecodePageInfo(j.fields["page_info"]).value))
  {
    var o :- Container(j);
    var edges :- RequiredWith(o, "edges", (a: Json) => DecodeArray(a, SummaryDecoder(fd, now)));
    var pageInfo :- RequiredWith(o, "page_info", DecodePageInfo);
    Ok(Connection(edges, pageInfo))
  }

  /// The synthesized `ProfitsGraphQLResponse` decoder: `data` is optional
  /// (absent or null is nil) and, when present, must hold "Profits".
  function DecodeProfitsResponse(j: Json, fd: Foundation, now: Date): (r: Result<Option<Connection>>)
    ensures !j.JObj? ==> r.Err?
    ensures j.JObj? && ("data" !in j.fields || j.fields["data"] == JNull) ==> r == Ok(None)
    ensures r.Ok? && r.value.Some? ==>
              "data" in j.fields && j.fields["data"].JObj? && "Profits" in j.fields["data"].fields &&
              DecodeConnection(j.fields["data"].fields["Profits"], fd, now) == Ok(r.value.value)
    ensures (j.JObj? && "data" in j.fields && j.fields["data"].JObj? && "Profits" in j.fields["data"].fields &&
             j.fields["data"].fields["Profits"] != JNull &&
             DecodeConnection(j.fields["data"].fields["Profits"], fd, now).Ok?) ==>
              r == Ok(Some(DecodeConnection(j.fields["data"].fields["Profits"], fd, now).value))
    ensures j.JObj? && "data" in j.fields && j.fields["data"] != JNull && !j.fields["data"].JObj? ==> r.Err?
    ensures j.JObj? && "data" in j.fields && j.fields["data"].JObj? && "Profits" !in j.fields["data"].fields ==>
              r == Err(KeyNotFound("Profits"))
  {
    var o :- Container(j);
    IfPresentWith(o, "data", (d: Json) =>
      var c :- Container(d);
      RequiredWith(c, "Profits", (p: Json) => DecodeConnection(p, fd, now)))
  }

  /// What a finished request amounts to for the screen: an HTTP error code;
  /// nothing at all (cancellation, a transport error, or a body that does not
  /// decode); or a decoded response, whose connection is nil when `data` is.
  datatype LoadResult = HttpError(code: int) | Silent | Page(conn: Option<Connection>)

  function Classify(o: FetchOutcome, fd: Foundation): (r: LoadResult)
    ensures r.HttpError? <==> o.Response? && !IsSuccessStatus(o.status)
    ensures r.HttpError? ==> r.code == o.status
    ensures r.Page? <==> o.Response? && IsSuccessStatus(o.status) && o.body.Some? &&
                         DecodeProfitsResponse(o.body.value, fd, o.env.now).Ok?
    ensures r.Page? ==> Ok(r.conn) == DecodeProfitsResponse(o.body.value, fd, o.env.now)
  {
    match o
    case Response(status, body, env) =>
      if !IsSuccessStatus(status) then HttpError(status)
      else if body.None? then Silent
      else
        (match DecodeProfitsResponse(body.value, fd, env.now)
         case Ok(conn) => Page(conn)
         case Err(_) => Silent)
    case Cancelled => Silent
    case Failed(_) => Silent
  }

  /// The screen's data apart from the loading flag.  `error` keeps the status
  /// code of the last HTTP error; nothing ever clears it.
  datatype Snapshot = Snapshot(data: seq<ProfitSummary>, page: Option<PageInfo>, error: Option<int>)

  /// `decoded.data?.Profits.edges ?? []`
  function Edges(conn: Option<Connection>): seq<ProfitSummary> {
    if conn.Some? then conn.value.edges else []
  }

  /// The part of `loadMore` after the request: an HTTP error records its code;
  /// a decoded response clears the list when there is no cursor, appends its
  /// edges and replaces the page info wholesale; anything else changes nothing.
  function Apply(s: Snapshot, after: Option<string>, r: LoadResult): (t: Snapshot)
    ensures !r.Page? ==> t.data == s.data && t.page == s.page
    ensures r.HttpError? ==> t.error == Some(r.code)
    ensures !r.HttpError? ==> t.error == s.error
    ensures r.Page? && after.None? ==> t.data == Edges(r.conn)
    ensures r.Page? && after.Some? ==> t.data == s.data + Edges(r.conn)
    ensures r.Page? ==> t.page == (if r.conn.Some? then Some(r.conn.value.pageInfo) else None)
  {
    match r
    case HttpError(code) => s.(error := Some(code))
    case Silent => s
    case Page(conn) =>
      var kept := if after.None? then [] else s.data;
      Snapshot(kept + Edges(conn), if conn.Some? then Some(conn.value.pageInfo) else None, s.error)
  }

  /// `hasNextPage()`: true until a page says otherwise.
  function HasNextPage(page: Option<PageInfo>): (b: bool)
    ensures page.None? ==> b
    ensures page.Some? ==> b == page.value.hasNextPage
  {
    if page.Some? then page.value.hasNextPage else true
  }

  /// The scroll trigger's test: the item that appeared is the last one and
  /// another page may exist.
  predicate ShouldLoadMore(data: seq<ProfitSummary>, page: Option<PageInfo>, item: ProfitSummary)
    ensures ShouldLoadMore(data, page, item) ==> item in data
    ensures page.Some? && !page.value.hasNextPage ==> !ShouldLoadMore(data, page, item)
  {
    |data| > 0 && data[|data| - 1] == item && HasNextPage(page)
  }

  /// The cursor a continuation should pass: the end cursor of the last page.
  function ContinuationCursor(page: Option<PageInfo>): Option<string> {
    if page.Some? then page.value.endCursor else None
  }

  /// The cursor the scroll trigger passes as written: none.
  function ContinuationCursorAsWritten(page: Option<PageInfo>): Option<string> {
    None
  }

  // ---------------------------------------------------------------------------
  // Scrolling through several pages.

  /// The edges of successive pages, in order.
  function AllEdges(conns: seq<Connection>): seq<ProfitSummary>
    decreases |conns|
  {
    if conns == [] then [] else conns[0].edges + AllEdges(conns[1..])
  }

  /// Successive continuations, each answered with the next page, each passing
  /// the end cursor of the page before.
  function Scroll(s: Snapshot, conns: seq<Connection>): (t: Snapshot)
    ensures t.error == s.error
    ensures conns != [] ==> t.page == Some(conns[|conns| - 1].pageInfo)
    decreases |conns|
  {
    if conns == [] then s
    else Scroll(Apply(s, ContinuationCursor(s.page), Page(Some(conns[0]))), conns[1..])
  }

  /// The same continuations as the scroll trigger makes them, without a cursor.
  function ScrollAsWritten(s: Snapshot, conns: seq<Connection>): (t: Snapshot)
    ensures t.error == s.error
    ensures conns != [] ==> t.page == Some(conns[|conns| - 1].pageInfo)
    decreases |conns|
  {
    if conns == [] then s
    else ScrollAsWritten(Apply(s, ContinuationCursorAsWritten(s.page), Page(Some(conns[0]))), conns[1..])
  }

  /// With cursors, every page is appended after the ones before it, in server
  /// order.
  lemma {:induction false} ScrollAppendsPages(s: Snapshot, conns: seq<Connection>)
    requires ContinuationCursor(s.page).Some?
    requires forall i :: 0 <= i < |conns| - 1 ==> conns[i].pageInfo.endCursor.Some?
    ensures Scroll(s, conns).data == s.data + AllEdges(conns)
    decreases |conns|
  {
    if conns == [] {
      assert s.data + [] == s.data;
    } else {
      var t := Apply(s, ContinuationCursor(s.page), Page(Some(conns[0])));
      assert t.data == s.data + conns[0].edges;
      if |conns| == 1 {
        assert conns[1..] == [];
        assert AllEdges(conns) == conns[0].edges + [];
      } else {
        assert t.page == Some(conns[0].pageInfo);
        ScrollAppendsPages(t, conns[1..]);
      }
      assert s.data + conns[0].edges + AllEdges(conns[1..]) == s.data + (conns[0].edges + AllEdges(conns[1..]));
    }
  }

  /// A pull to refresh followed by continuations shows exactly the pages
  /// loaded since the refresh, in order.
  lemma RefreshThenScroll(s: Snapshot, first: Connection, rest: seq<Connection>)
    requires first.pageInfo.endCursor.Some?
    requires forall i :: 0 <= i < |rest| - 1 ==> rest[i].pageInfo.endCursor.Some?
    ensures Scroll(Apply(s.(page := None), None, Page(Some(first))), rest).data == AllEdges([first] + rest)
  {
    var t := Apply(s.(page := None), None, Page(Some(first)));
    ScrollAppendsPages(t, rest);
    assert ([first] + rest)[1..] == rest;
  }

  /// As written, each continuation throws away what was shown before: only
  /// the last page received remains.
  lemma {:induction false} ScrollAsWrittenKeepsLastPage(s: Snapshot, conns: seq<Connection>)
    requires conns != []
    ensures ScrollAsWritten(s, conns).data == conns[|conns| - 1].edges
    decreases |conns|
  {
    var t := Apply(s, ContinuationCursorAsWritten(s.page), Page(Some(conns[0])));
    if |conns| > 1 {
      ScrollAsWrittenKeepsLastPage(t, conns[1..]);
    }
  }

  /// The input that shows it: one summary on screen, a page info with an end
  /// cursor and more to come, and a second page with another summary.  As
  /// written the screen then shows only the second summary; with the cursor
  /// it shows both.
  lemma ContinuationDropsShownPage()
    ensures var a := ProfitSummary("a", Date(0.0), Date(0.0), 0.0, 0, 0.0, 0, 0);
            var b := ProfitSummary("b", Date(0.0), Date(0.0), 0.0, 0, 0.0, 0, 0);
            var s := Snapshot([a], Some(PageInfo(Some("c1"), true, false, None)), None);
            var c := Connection([b], PageInfo(Some("c2"), false, true, Some("c2")));
            ShouldLoadMore(s.data, s.page, a) &&
            ScrollAsWritten(s, [c]).data == [b] &&
            Scroll(s, [c]).data == [a, b]
  {
  }

  /// A request the view model sends: `Profits(after:first:)`.
  datatype Request = Request(after: Option<string>, first: nat)

  class ProfitsViewModel {
    var data: seq<ProfitSummary>
    var isLoading: bool
    var page: Option<PageInfo>
    var error: Option<int>
    const fd: Foundation

    function Current(): Snapshot
      reads this
    {
      Snapshot(data, page, error)
    }

    constructor(fd: Foundation)
      ensures Current() == Snapshot([], None, None) && !isLoading && this.fd == fd
    {
      data := [];
      isLoading := false;
      page := None;
      error := None;
      this.fd := fd;
    }

    /// The guard of `loadMore`: a load already in flight makes a second one
    /// do nothing; otherwise the load starts.
    method BeginLoad() returns (started: bool)
      modifies this
      ensures started <==> !old(isLoading)
      ensures isLoading && Current() == old(Current())
    {
      if isLoading {
        return false;
      }
      isLoading := true;
      started := true;
    }

    /// The rest of `loadMore`, once its request has ended with `o`; the
    /// deferred reset clears `isLoading` on every path.
    method FinishLoad(after: Option<string>, o: FetchOutcome)
      modifies this
      ensures !isLoading
      ensures Current() == Apply(old(Current()), after, Classify(o, fd))
    {
      match o {
        case Response(status, body, env) =>
          if !IsSuccessStatus(status) {
            error := Some(status);
            isLoading := false;
            return;
          }
          if body.None? {
            isLoading := false;
            return;
          }
          match DecodeProfitsResponse(body.value, fd, env.now) {
            case Ok(conn) =>
              if after.None? {
                data := [];
              }
              data := data + Edges(conn);
              page := if conn.Some? then Some(conn.value.pageInfo) else None;
              isLoading := false;
            case Err(_) =>
              isLoading := false;
          }
        case Cancelled =>
          isLoading := false;
        case Failed(_) =>
          isLoading := false;
      }
    }

    /// `loadMore(after:limit:)` run to completion: the request it sends, if
    /// the guard lets it through, and the state it leaves.
    method LoadMore(after: Option<string>, o: FetchOutcome) returns (request: Option<Request>)
      modifies this
      ensures old(isLoading) ==> request == None && isLoading && Current() == old(Current())
      ensures !old(isLoading) ==>
                request == Some(Request(after, PageSize)) && !isLoading &&
                Current() == Apply(old(Current()), after, Classify(o, fd))
    {
      var started := BeginLoad();
      if !started {
        return None;
      }
      request := Some(Request(after, PageSize));
      FinishLoad(after, o);
    }

    /// `refresh()`: forgets the page info, then loads the first page; the old
    /// list stays until that page arrives and replaces it.
    method Refresh(o: FetchOutcome) returns (request: Option<Request>)
      modifies this
      ensures old(isLoading) ==> request == None && isLoading && Current() == old(Current()).(page := None)
      ensures !old(isLoading) ==>
                request == Some(Request(None, PageSize)) && !isLoading &&
                Current() == Apply(old(Current()).(page := None), None, Classify(o, fd))
    {
      page := None;
      request := LoadMore(None, o);
    }

    /// The list's scroll trigger as written: when the last item appears and
    /// another page may exist, `loadMore()` without a cursor.
    method ItemAppearedAsWritten(item: ProfitSummary, o: FetchOutcome) returns (request: Option<Request>)
      modifies this
      ensures !ShouldLoadMore(old(data), old(page), item) ==>
                request == None && Current() == old(Current()) && isLoading == old(isLoading)
      ensures ShouldLoadMore(old(data), old(page), item) && !old(isLoading) ==>
                request == Some(Request(None, PageSize)) &&
                Current() == Apply(old(Current()), ContinuationCursorAsWritten(old(page)), Classify(o, fd))
    {
      if !ShouldLoadMore(data, page, item) {
        return None;
      }
      request := LoadMore(ContinuationCursorAsWritten(page), o);
    }

    /// The scroll trigger with the continuation it evidently means: the end
    /// cursor of the last page, so that the next page is appended.
    method ItemAppeared(item: ProfitSummary, o: FetchOutcome) returns (request: Option<Request>)
      modifies this
      ensures !ShouldLoadMore(old(data), old(page), item) ==>
                request == None && Current() == old(Current()) && isLoading == old(isLoading)
      ensures ShouldLoadMore(old(data), old(page), item) && !old(isLoading) ==>
                request == Some(Request(ContinuationCursor(old(page)), PageSize)) &&
                Current() == Apply(old(Current()), ContinuationCursor(old(page)), Classify(o, fd))
    {
      if !ShouldLoadMore(data, page, item) {
        return None;
      }
      request := LoadMore(ContinuationCursor(page), o);
    }
  }
}
