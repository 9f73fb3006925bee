/** The paginated auction list of the auction screen: the request URL, the
    five pieces of screen state, and the handlers that change them. The
    handlers' effect on the state is given first as functions on a `State`
    value; the `AuctionScreen` class holds the same state in fields and its
    methods are proved to act as those functions say. */
module Auctions {
  import opened Wrappers
  import Decimal

  /** The page size sent with every search request. */
  const LIMIT: nat := 10

  /** One auction record as the backend sends it; the list stores records
      without looking inside them. */
  datatype Auction = Auction(
    id: string,
    assetType: string,
    city: string,
    bank: string,
    reservePrice: int,
    startDate: string,
    applicationDeadLine: Option<string>)

  /** The route parameters the search is filtered by, as text. */
  datatype Filters = Filters(cityId: string, assetTypeId: string)

  /** A search request that was sent, with the refresh flag its completion
      will use. */
  datatype Request = Request(url: string, pageNumber: int, isRefreshing: bool)

  /** The decoded search response. */
  datatype Envelope = Envelope(statusCode: int, data: seq<Auction>, lastPage: int)

  /** How a request ended: a decoded envelope, or an exception from the
      network or from decoding. */
  datatype Outcome = Received(envelope: Envelope) | Threw

  /** The screen's state: `page`, `lastPage`, the accumulated `auctions`,
      and the `loading` and `refreshing` flags. */
  datatype State = State(
    page: int,
    lastPage: int,
    auctions: seq<Auction>,
    loading: bool,
    refreshing: bool)

  /** The state after a handler ran, and the request it sent, if any. */
  datatype Step = Step(state: State, request: Option<Request>)

  /** The state when the screen mounts. */
  const Initial := State(1, 0, [], false, false)

  predicate Succeeded(o: Outcome) {
    o.Received? && o.envelope.statusCode == 200
  }

  // ---------------------------------------------------------------------
  // The request URL

  /** Everything of the search URL before the page number. */
  function PageQuery(base: string, f: Filters): string {
    base + "auction/search?assetTypeId=" + f.assetTypeId + "&cityId=" + f.cityId + "&page="
  }

  const LimitSuffix := "&limit=10"

  /** The search URL for one page, the page number written in decimal: it
      starts with the filters' query and ends with the fixed page size. */
  function SearchUrl(base: string, f: Filters, pageNumber: int): (url: string)
    ensures |url| > |PageQuery(base, f)| + |LimitSuffix|
    ensures url == PageQuery(base, f) + Decimal.IntToString(pageNumber) + LimitSuffix
  {
    assert Decimal.IntToString(LIMIT) == "10" by {
      assert Decimal.NatToString(1) == "1";
      assert Decimal.NatToString(10) == Decimal.NatToString(1) + [Decimal.DigitChar(0)];
    }
    PageQuery(base, f) + Decimal.IntToString(pageNumber) + "&limit=" + Decimal.IntToString(LIMIT)
  }

  /** The page number a search URL for these filters asks for. */
  function PageOfUrl(base: string, f: Filters, url: string): Option<int> {
    var q := PageQuery(base, f);
    if |url| >= |q| + |LimitSuffix| && url[..|q|] == q && url[|url| - |LimitSuffix|..] == LimitSuffix
    then Decimal.ParseInt(url[|q|..|url| - |LimitSuffix|])
    else None
  }

  /** The URL carries exactly the requested page number. */
  lemma SearchUrlRequestsPage(base: string, f: Filters, pageNumber: int)
    ensures PageOfUrl(base, f, SearchUrl(base, f, pageNumber)) == Some(pageNumber)
  {
    var q := PageQuery(base, f);
    var url := SearchUrl(base, f, pageNumber);
    var n := Decimal.IntToString(pageNumber);
    assert url[..|q|] == q;
    assert url[|url| - |LimitSuffix|..] == LimitSuffix;
    assert url[|q|..|url| - |LimitSuffix|] == n;
    Decimal.IntToStringRoundTrip(pageNumber);
  }

  lemma SearchUrlInjective(base: string, f: Filters, m: int, n: int)
    ensures SearchUrl(base, f, m) == SearchUrl(base, f, n) ==> m == n
  {
    SearchUrlRequestsPage(base, f, m);
    SearchUrlRequestsPage(base, f, n);
  }

  // ---------------------------------------------------------------------
  // The handlers, on state values

  /** The start of `fetchAuctions(pageNumber, isRefreshing)`: nothing at all
      while a load is in progress; otherwise `loading` is raised unless this
      is a refresh, and the request is sent. */
  function StartFetch(s: State, base: string, f: Filters, pageNumber: int, isRefreshing: bool): (r: Step)
    ensures s.loading ==> r == Step(s, None)
    ensures !s.loading ==> r.request == Some(Request(SearchUrl(base, f, pageNumber), pageNumber, isRefreshing))
    ensures r.state.loading == (s.loading || !isRefreshing)
    ensures r.state.(loading := s.loading) == s
  {
    if s.loading then Step(s, None)
    else
      var s' := if !isRefreshing then s.(loading := true) else s;
      Step(s', Some(Request(SearchUrl(base, f, pageNumber), pageNumber, isRefreshing)))
  }

  /** The completion of a fetch. A 200 envelope replaces the list (refresh)
      or extends it (otherwise) and sets `lastPage`; any other envelope and
      any exception leave both alone. Then `loading` is cleared, and
      `refreshing` too when the fetch was a refresh. */
  function Complete(s: State, req: Request, o: Outcome): (r: State)
    ensures !r.loading
    ensures req.isRefreshing ==> !r.refreshing
    ensures !req.isRefreshing ==> r.refreshing == s.refreshing
    ensures r.page == s.page
    ensures Succeeded(o) ==> r.lastPage == o.envelope.lastPage
    ensures Succeeded(o) && req.isRefreshing ==> r.auctions == o.envelope.data
    ensures Succeeded(o) && !req.isRefreshing ==> r.auctions == s.auctions + o.envelope.data
    ensures !Succeeded(o) ==> r.auctions == s.auctions && r.lastPage == s.lastPage
  {
    var tried :=
      if Succeeded(o) then
        s.(auctions := if req.isRefreshing then o.envelope.data else s.auctions + o.envelope.data,
           lastPage := o.envelope.lastPage)
      else s;
    var finished := tried.(loading := false);
    if req.isRefreshing then finished.(refreshing := false) else finished
  }

  /** `loadMore`: when no load is in progress and a later page exists, the
      page advances by one and a (non-refresh) fetch for it is started. */
  function LoadMoreStep(s: State, base: string, f: Filters): (r: Step)
    ensures !(!s.loading && s.page < s.lastPage) ==> r == Step(s, None)
    ensures !s.loading && s.page < s.lastPage ==>
              r.state == s.(page := s.page + 1, loading := true) &&
              r.request == Some(Request(SearchUrl(base, f, s.page + 1), s.page + 1, false))
    ensures r.state.page <= s.lastPage || r.state.page == s.page
  {
    if !s.loading && s.page < s.lastPage then
      var next := s.page + 1;
      StartFetch(s.(page := next), base, f, next, false)
    else Step(s, None)
  }

  /** `onRefresh`: the spinner is shown and the page goes back to 1 in any
      case; the page-1 refresh fetch starts only when no load is in
      progress. */
  function RefreshStep(s: State, base: string, f: Filters): (r: Step)
    ensures r.state == s.(refreshing := true, page := 1)
    ensures r.request == if s.loading then None else Some(Request(SearchUrl(base, f, 1), 1, true))
  {
    StartFetch(s.(refreshing := true, page := 1), base, f, 1, true)
  }

  /** The effect run on mount and whenever the filters change: a page-1
      refresh fetch, which changes no state at all, not even `page`. */
  function FiltersEffectStep(s: State, base: string, f: Filters): (r: Step)
    ensures r.state == s
    ensures r.request == if s.loading then None else Some(Request(SearchUrl(base, f, 1), 1, true))
  {
    StartFetch(s, base, f, 1, true)
  }

  /** The filter effect sends what a pull-to-refresh sends, and differs
      from it only in leaving `page` and `refreshing` as they were. */
  lemma FiltersEffectIsRefreshWithoutReset(s: State, base: string, f: Filters)
    ensures FiltersEffectStep(s, base, f).request == RefreshStep(s, base, f).request
    ensures FiltersEffectStep(s, base, f).state.page == s.page
    ensures RefreshStep(s, base, f).state.page == 1
  {
  }

  // ---------------------------------------------------------------------
  // Handlers run one after another

  /** The state once a handler's request, if it sent one, has completed. */
  function Settle(st: Step, o: Outcome): State {
    match st.request
    case None => st.state
    case Some(req) => Complete(st.state, req, o)
  }

  /** A run of `loadMore` calls, each one's request (if sent) completing
      with the next outcome before the next call. */
  function LoadMoreRun(s: State, base: string, f: Filters, outcomes: seq<Outcome>): State
    decreases |outcomes|
  {
    if outcomes == [] then s
    else LoadMoreRun(Settle(LoadMoreStep(s, base, f), outcomes[0]), base, f, outcomes[1..])
  }

  /** The items one outcome delivers. */
  function OutcomeData(o: Outcome): seq<Auction> {
    if Succeeded(o) then o.envelope.data else []
  }

  /** The items the first `n` of a sequence of outcomes deliver, in order. */
  function Delivered(outcomes: seq<Outcome>, n: nat): seq<Auction>
    decreases n
  {
    if n == 0 || outcomes == [] then [] else OutcomeData(outcomes[0]) + Delivered(outcomes[1..], n - 1)
  }

  /** Every successful response reports the same last page. */
  predicate FixedLastPage(outcomes: seq<Outcome>, last: int) {
    forall i :: 0 <= i < |outcomes| && Succeeded(outcomes[i]) ==> outcomes[i].envelope.lastPage == last
  }

  function Min(a: int, b: int): int {
    if a <= b then a else b
  }

  lemma AppendAssociative<T>(a: seq<T>, b: seq<T>, c: seq<T>)
    ensures (a + b) + c == a + (b + c)
  {
  }

  /** One `loadMore` and its completion, against a backend whose last page
      is the one already known. */
  lemma SettledLoadMore(s: State, base: string, f: Filters, o: Outcome)
    requires !s.loading && s.page <= s.lastPage
    requires Succeeded(o) ==> o.envelope.lastPage == s.lastPage
    ensures var s1 := Settle(LoadMoreStep(s, base, f), o);
            (s.page == s.lastPage ==> s1 == s) &&
            (s.page < s.lastPage ==>
               s1 == s.(page := s.page + 1, auctions := s.auctions + OutcomeData(o)))
  {
  }

  lemma {:induction false} LoadMoreRunAtLastPage(s: State, base: string, f: Filters, outcomes: seq<Outcome>)
    requires !s.loading && s.page == s.lastPage
    requires FixedLastPage(outcomes, s.lastPage)
    ensures LoadMoreRun(s, base, f, outcomes) == s
    decreases |outcomes|
  {
    if outcomes != [] {
      SettledLoadMore(s, base, f, outcomes[0]);
      assert FixedLastPage(outcomes[1..], s.lastPage) by {
        assert forall i :: 0 <= i < |outcomes[1..]| ==> outcomes[1..][i] == outcomes[i + 1];
      }
      LoadMoreRunAtLastPage(s, base, f, outcomes[1..]);
    }
  }

  /** Against a backend whose last page is fixed, repeated `loadMore` walks
      the page up by one per call, failed pages included, and stops at the
      last page; the list keeps its items and gains, in order, those of the
      pages that were fetched. */
  lemma {:induction false} LoadMoreRunStopsAtLastPage(s: State, base: string, f: Filters, outcomes: seq<Outcome>)
    requires !s.loading && s.page <= s.lastPage
    requires FixedLastPage(outcomes, s.lastPage)
    ensures var r := LoadMoreRun(s, base, f, outcomes);
            r.page == Min(s.page + |outcomes|, s.lastPage) &&
            r.auctions == s.auctions + Delivered(outcomes, s.lastPage - s.page) &&
            r.lastPage == s.lastPage && r.loading == s.loading && r.refreshing == s.refreshing
    decreases |outcomes|
  {
    if outcomes == [] {
    } else if s.page == s.lastPage {
      LoadMoreRunAtLastPage(s, base, f, outcomes);
    } else {
      var rest := outcomes[1..];
      var s1 := s.(page := s.page + 1, auctions := s.auctions + OutcomeData(outcomes[0]));
      assert LoadMoreRun(s, base, f, outcomes) == LoadMoreRun(s1, base, f, rest) by {
        SettledLoadMore(s, base, f, outcomes[0]);
      }
      assert FixedLastPage(rest, s.lastPage) by {
        assert forall i :: 0 <= i < |rest| ==> rest[i] == outcomes[i + 1];
      }
      LoadMoreRunStopsAtLastPage(s1, base, f, rest);
      AppendAssociative(s.auctions, OutcomeData(outcomes[0]), Delivered(rest, s.lastPage - s.page - 1));
    }
  }

  function Ok(data: seq<Auction>, lastPage: int): Outcome {
    Received(Envelope(200, data, lastPage))
  }

  /** A backend with three pages: after the initial load, two `loadMore`
      calls fetch pages 2 and 3, and the third call sends nothing, so the
      list holds three pages, not four. */
  lemma ThreePagesBackend(base: string, f: Filters, p1: seq<Auction>, p2: seq<Auction>, p3: seq<Auction>, p4: seq<Auction>)
    ensures var mounted := Settle(FiltersEffectStep(Initial, base, f), Ok(p1, 3));
            var r := LoadMoreRun(mounted, base, f, [Ok(p2, 3), Ok(p3, 3), Ok(p4, 3)]);
            r.auctions == p1 + p2 + p3 && r.page == 3 && LoadMoreStep(r, base, f).request == None
  {
    var mounted := Settle(FiltersEffectStep(Initial, base, f), Ok(p1, 3));
    var os := [Ok(p2, 3), Ok(p3, 3), Ok(p4, 3)];
    assert mounted == State(1, 3, p1, false, false);
    LoadMoreRunStopsAtLastPage(mounted, base, f, os);
    assert Delivered(os, 2) == p2 + p3 by {
      assert os[1..] == [Ok(p3, 3), Ok(p4, 3)];
      assert Delivered(os[1..], 1) == p3 + Delivered(os[1..][1..], 0);
    }
  }

  // ---------------------------------------------------------------------
  // Interleavings the loading flag does not prevent

  /** A refresh fetch does not raise `loading`, so a second refresh, or a
      `loadMore` once a later page is known, can start while the first is
      still in flight. */
  lemma RefreshFetchesCanOverlap(s: State, base: string, f: Filters)
    requires !s.loading
    ensures var first := RefreshStep(s, base, f);
            first.request.Some? && RefreshStep(first.state, base, f).request.Some? &&
            (1 < s.lastPage ==> LoadMoreStep(first.state, base, f).request.Some?)
  {
  }

  /** A pull-to-refresh while a `loadMore` fetch is in flight sends no
      request but still shows the spinner and resets `page`; the in-flight
      completion then appends the later page and leaves the spinner on. */
  lemma RefreshDuringLoadMore(s: State, base: string, f: Filters, o: Outcome)
    requires !s.loading && s.page < s.lastPage
    ensures var more := LoadMoreStep(s, base, f);
            var refresh := RefreshStep(more.state, base, f);
            refresh.request == None &&
            var r := Complete(refresh.state, more.request.value, o);
            r.refreshing && r.page == 1 && !r.loading &&
            (Succeeded(o) ==> r.auctions == s.auctions + o.envelope.data)
  {
  }

  /** A filter change while a `loadMore` fetch is in flight sends nothing
      for the new filters; the old filters' page is appended instead. */
  lemma FilterChangeDuringLoadMore(s: State, base: string, before: Filters, after: Filters, o: Outcome)
    requires !s.loading && s.page < s.lastPage
    ensures var more := LoadMoreStep(s, base, before);
            var effect := FiltersEffectStep(more.state, base, after);
            effect.request == None &&
            more.request.value.url == SearchUrl(base, before, s.page + 1) &&
            (Succeeded(o) ==> Complete(effect.state, more.request.value, o).auctions == s.auctions + o.envelope.data)
  {
  }

  /** A filter change leaves `page` counting the old filters' pages. When the
      new filters' first page reports a last page no later than that count,
      `loadMore` sends nothing afterwards, so the new filters' later pages
      are never fetched by scrolling. */
  lemma FilterChangeStrandsLaterPages(s: State, base: string, g: Filters, data: seq<Auction>, last: int)
    requires !s.loading && last <= s.page
    ensures var e := FiltersEffectStep(s, base, g);
            e.request == Some(Request(SearchUrl(base, g, 1), 1, true)) &&
            var r := Complete(e.state, e.request.value, Ok(data, last));
            r.auctions == data && r.page == s.page && r.lastPage == last &&
            LoadMoreStep(r, base, g).request == None
  {
  }

  // ---------------------------------------------------------------------
  // The screen

  /** The auction screen component: its React state as fields, and one
      method per handler. A fetch is split into its start, which returns the
      request sent, and its completion, which receives how it ended. */
  class AuctionScreen {
    const backendApi: string
    var filters: Filters
    var page: int
    var lastPage: int
    var auctions: seq<Auction>
    var loading: bool
    var refreshing: bool

    function View(): State
      reads this
    {
      State(page, lastPage, auctions, loading, refreshing)
    }

    constructor (backendApi: string, filters: Filters)
      ensures this.backendApi == backendApi && this.filters == filters
      ensures View() == Initial
    {
      this.backendApi := backendApi;
      this.filters := filters;
      loading := false;
      auctions := [];
      page := 1;
      lastPage := 0;
      refreshing := false;
    }

    method FetchAuctions(pageNumber: int, isRefreshing: bool) returns (request: Option<Request>)
      modifies this
      ensures filters == old(filters)
      ensures Step(View(), request) == StartFetch(old(View()), backendApi, filters, pageNumber, isRefreshing)
    {
      if loading {
        return None;
      }
      if !isRefreshing {
        loading := true;
      }
      var url := SearchUrl(backendApi, filters, pageNumber);
      request := Some(Request(url, pageNumber, isRefreshing));
    }

    method FinishFetch(request: Request, outcome: Outcome)
      modifies this
      ensures filters == old(filters)
      ensures View() == Complete(old(View()), request, outcome)
    {
      if outcome.Received? && outcome.envelope.statusCode == 200 {
        auctions := if request.isRefreshing then outcome.envelope.data else auctions + outcome.envelope.data;
        lastPage := outcome.envelope.lastPage;
      }
      loading := false;
      if request.isRefreshing {
        refreshing := false;
      }
    }

    method LoadMore() returns (request: Option<Request>)
      modifies this
      ensures filters == old(filters)
      ensures Step(View(), request) == LoadMoreStep(old(View()), backendApi, filters)
    {
      if !loading && page < lastPage {
        var nextPage := page + 1;
        page := nextPage;
        request := FetchAuctions(nextPage, false);
      } else {
        request := None;
      }
    }

    method OnRefresh() returns (request: Option<Request>)
      modifies this
      ensures filters == old(filters)
      ensures Step(View(), request) == RefreshStep(old(View()), backendApi, filters)
    {
      refreshing := true;
      page := 1;
      request := FetchAuctions(1, true);
    }

    /** The effect, run on mount with the current filters. */
    method RunFiltersEffect() returns (request: Option<Request>)
      modifies this
      ensures filters == old(filters)
      ensures Step(View(), request) == FiltersEffectStep(old(View()), backendApi, filters)
    {
      request := FetchAuctions(1, true);
    }

    /** New route parameters. The effect depends on `cityId` and
        `assetTypeId` only, so it runs when one of them differs from the
        current value, and route parameters equal to the current ones change
        nothing. */
    method ChangeFilters(f: Filters) returns (request: Option<Request>)
      modifies this
      ensures filters == f
      ensures f == old(filters) ==> View() == old(View()) && request == None
      ensures f != old(filters) ==> Step(View(), request) == FiltersEffectStep(old(View()), backendApi, f)
    {
      if f != filters {
        filters := f;
        request := RunFiltersEffect();
      } else {
        request := None;
      }
    }
  }
}
