/**
 * The activity log screen: its filter and pagination state, the request
 * parameters built from them, the page-number buttons, the relative time
 * labels and the user dropdown.
 */
module ActivityLogs {
  import opened Js
  import opened Records
  import TablePagination

  /** The seven filter keys, in the order the state declares them. */
  function FilterKeys(): (r: seq<string>)
    ensures |r| == 7
  {
    ["userId", "action", "entityType", "startDate", "endDate", "search", "role"]
  }

  /** Every filter key set to ''. */
  function EmptyFilters(): (r: map<string, string>)
    ensures r.Keys == set k | k in FilterKeys()
    ensures forall k :: k in r ==> r[k] == ""
  {
    map k | k in FilterKeys() :: ""
  }

  /** `filters[key]` as a JavaScript value: a missing key reads as `undefined`. */
  function FilterValue(filters: map<string, string>, key: string): JsVal {
    if key in filters then Str(filters[key]) else Undef
  }

  /** `hasActiveFilters`: one of the seven filters is non-empty. */
  predicate AnyActive(filters: map<string, string>) {
    exists i :: 0 <= i < 7 && Truthy(FilterValue(filters, FilterKeys()[i]))
  }

  /** The parameters with every `''`, `null` and `undefined` value removed. */
  function NonEmpty(params: map<string, JsVal>): (r: map<string, JsVal>)
    ensures forall k :: k in r <==> k in params && !IsEmptyValue(params[k])
    ensures forall k :: k in r ==> r[k] == params[k]
  {
    map k | k in params && !IsEmptyValue(params[k]) :: params[k]
  }

  /** The filters as request parameter values. */
  function AsParams(filters: map<string, string>): map<string, JsVal> {
    map k | k in filters :: Str(filters[k])
  }

  /** `{ page, limit, ...filters }`: a filter named like a pagination field would replace it. */
  function RawParams(page: int, limit: int, filters: map<string, string>): map<string, JsVal> {
    map["page" := Num(page), "limit" := Num(limit)] + AsParams(filters)
  }

  /** The request parameters always hold page and limit, and exactly the non-empty filters. */
  lemma ParamsContents(page: int, limit: int, filters: map<string, string>)
    requires "page" !in filters && "limit" !in filters
    ensures var p := NonEmpty(RawParams(page, limit, filters));
            p["page"] == Num(page) && p["limit"] == Num(limit) &&
            (forall k :: k in filters ==> (k in p <==> filters[k] != "")) &&
            (forall k :: k in filters && filters[k] != "" ==> p[k] == Str(filters[k])) &&
            (forall k :: k in p ==> k == "page" || k == "limit" || k in filters)
  {
    var raw := RawParams(page, limit, filters);
    assert raw["page"] == Num(page) && raw["limit"] == Num(limit);
  }

  /** The statistics request carries the date range, each bound only when it is set. */
  function StatisticsParams(filters: map<string, string>): (r: map<string, string>)
    ensures "startDate" in r <==> Truthy(FilterValue(filters, "startDate"))
    ensures "endDate" in r <==> Truthy(FilterValue(filters, "endDate"))
    ensures forall k :: k in r ==> k in filters && r[k] == filters[k]
  {
    var withStart := if Truthy(FilterValue(filters, "startDate")) then map["startDate" := filters["startDate"]] else map[];
    if Truthy(FilterValue(filters, "endDate")) then withStart["endDate" := filters["endDate"]] else withStart
  }

  /** A page of results as the server describes it; the fields it sends replace the local ones. */
  datatype ServerPagination = ServerPagination(page: Option<int>, limit: Option<int>, total: Option<int>, pages: Option<int>)

  function Override(local: int, server: Option<int>): int {
    if server.Some? then server.value else local
  }

  class LogsPage {
    var filters: map<string, string>
    var page: int
    var limit: int
    var total: int
    var pages: int

    constructor ()
      ensures filters == EmptyFilters() && page == 1 && limit == 50 && total == 0 && pages == 0
    {
      filters := EmptyFilters();
      page := 1;
      limit := 50;
      total := 0;
      pages := 0;
    }

    /** `hasActiveFilters` */
    predicate HasActiveFilters()
      reads this
    {
      AnyActive(filters)
    }

    /** `handleFilterChange(key, value)`: set one filter and go back to page 1. */
    method HandleFilterChange(key: string, value: string)
      modifies this
      ensures filters == old(filters)[key := value]
      ensures page == 1 && limit == old(limit) && total == old(total) && pages == old(pages)
    {
      filters := filters[key := value];
      page := 1;
    }

    /** `clearFilters`: every filter back to '' and page 1, after which no filter is active. */
    method ClearFilters()
      modifies this
      ensures filters == EmptyFilters() && !HasActiveFilters()
      ensures page == 1 && limit == old(limit) && total == old(total) && pages == old(pages)
    {
      filters := EmptyFilters();
      page := 1;
      assert forall i :: 0 <= i < 7 ==> FilterKeys()[i] in filters && filters[FilterKeys()[i]] == "";
    }

    /** `handlePageChange(newPage)`: only the page changes. */
    method HandlePageChange(newPage: int)
      modifies this
      ensures page == newPage
      ensures filters == old(filters) && limit == old(limit) && total == old(total) && pages == old(pages)
    {
      page := newPage;
    }

    /** `handleLimitChange(newLimit)`: the new page size, from page 1. */
    method HandleLimitChange(newLimit: int)
      modifies this
      ensures limit == newLimit && page == 1
      ensures filters == old(filters) && total == old(total) && pages == old(pages)
    {
      limit := newLimit;
      page := 1;
    }

    /** Taking in the pagination of a server response. */
    method ReceivePagination(p: ServerPagination)
      modifies this
      ensures page == Override(old(page), p.page) && limit == Override(old(limit), p.limit)
      ensures total == Override(old(total), p.total) && pages == Override(old(pages), p.pages)
      ensures filters == old(filters)
    {
      page := Override(page, p.page);
      limit := Override(limit, p.limit);
      total := Override(total, p.total);
      pages := Override(pages, p.pages);
    }

    /** The parameters of the log request, built as `fetchLogs` builds them. */
    method FetchParams() returns (params: map<string, JsVal>)
      ensures params == NonEmpty(RawParams(page, limit, filters))
    {
      params := RawParams(page, limit, filters);
      var keys := params.Keys;
      ghost var start := params;
      while keys != {}
        invariant keys <= start.Keys
        invariant forall k :: k in params <==> k in start && (k in keys || !IsEmptyValue(start[k]))
        invariant forall k :: k in params ==> params[k] == start[k]
        decreases keys
      {
        var key :| key in keys;
        if IsEmptyValue(params[key]) {
          params := params - {key};
        }
        keys := keys - {key};
      }
    }
  }

  /** Setting any filter to a non-empty value makes the filters active. */
  lemma FilterChangeActive(filters: map<string, string>, i: nat, value: string)
    requires i < 7
    ensures value != "" ==> AnyActive(filters[FilterKeys()[i] := value])
  {
    var f := filters[FilterKeys()[i] := value];
    assert FilterValue(f, FilterKeys()[i]) == Str(value);
  }

  /** The buttons the log screen draws: `min(5, pages)` of them, numbered case by case. */
  function ButtonNumbers(page: int, pages: int): (r: seq<int>)
    ensures |r| == Max(0, Min(5, pages))
  {
    seq(Max(0, Min(5, pages)), i =>
      if pages <= 5 then i + 1
      else if page <= 3 then i + 1
      else if page >= pages - 2 then pages - 4 + i
      else page - 2 + i)
  }

  /** The log screen's buttons are exactly the table pagination's window, so they inherit its bounds. */
  lemma ButtonsAreTableWindow(page: int, pages: int)
    ensures ButtonNumbers(page, pages) == TablePagination.PageWindow(page, pages)
  {
  }

  /** With more than five pages and a page in range, every button is a page and the current page has one. */
  lemma ButtonsInRange(page: int, pages: int)
    requires pages > 5 && 1 <= page <= pages
    ensures var b := ButtonNumbers(page, pages);
            (forall i :: 0 <= i < |b| ==> 1 <= b[i] <= pages) && page in b
  {
    ButtonsAreTableWindow(page, pages);
    TablePagination.WindowBounds(page, pages);
  }

  /** "Showing start to end": `start = (page-1)*limit+1`, `end = min(page*limit, total)`. */
  function SummaryRange(page: int, limit: int, total: int): (r: (int, int))
    ensures r.1 <= total
    ensures page >= 1 && limit >= 1 && (page - 1) * limit < total ==> 1 <= r.0 <= r.1
  {
    ((page - 1) * limit + 1, Min(page * limit, total))
  }

  /** The summary of the log screen is the table range of the shared pagination bar. */
  lemma SummaryIsTableRange(page: int, limit: int, total: int)
    ensures SummaryRange(page, limit, total) ==
            (TablePagination.StartItem(page, limit), TablePagination.EndItem(page, limit, total))
  {
  }

  /** The relative time a log entry shows. */
  datatype Age = JustNow | MinutesAgo(m: int) | HoursAgo(h: int) | DaysAgo(d: int) | CalendarDate

  /** `formatDate`, given `now - date` in milliseconds; older entries fall to a locale date. */
  function FormatAge(diffMs: int): Age {
    var mins := diffMs / 60000;
    var hours := diffMs / 3600000;
    var days := diffMs / 86400000;
    if mins < 1 then JustNow
    else if mins < 60 then MinutesAgo(mins)
    else if hours < 24 then HoursAgo(hours)
    else if days < 7 then DaysAgo(days)
    else CalendarDate
  }

  /** The text of a relative age. */
  function AgeText(a: Age): string
    requires !a.CalendarDate?
  {
    match a
    case JustNow => "Just now"
    case MinutesAgo(m) => IntToString(m) + "m ago"
    case HoursAgo(h) => IntToString(h) + "h ago"
    case DaysAgo(d) => IntToString(d) + "d ago"
  }

  /**
   * The buckets by elapsed time: under a minute (and any future date), under an
   * hour, under a day, under a week, each counted in whole units rounded down.
   */
  lemma AgeBuckets(diffMs: int)
    ensures FormatAge(diffMs) == JustNow <==> diffMs < 60000
    ensures 60000 <= diffMs < 3600000 ==> FormatAge(diffMs) == MinutesAgo(diffMs / 60000) && 1 <= diffMs / 60000 < 60
    ensures 3600000 <= diffMs < 86400000 ==> FormatAge(diffMs) == HoursAgo(diffMs / 3600000) && 1 <= diffMs / 3600000 < 24
    ensures 86400000 <= diffMs < 604800000 ==> FormatAge(diffMs) == DaysAgo(diffMs / 86400000) && 1 <= diffMs / 86400000 < 7
    ensures FormatAge(diffMs) == CalendarDate <==> diffMs >= 604800000
  {
    FloorBounds(diffMs, 60000);
    FloorBounds(diffMs, 3600000);
    FloorBounds(diffMs, 86400000);
  }

  lemma FloorBounds(x: int, d: int)
    requires d > 0
    ensures d * (x / d) <= x < d * (x / d) + d
  {
  }

  /** The choices of the user dropdown: all users, or those with the chosen role. */
  function UserChoices(users: seq<User>, role: string): (r: seq<User>)
    ensures role != "" ==> forall i :: 0 <= i < |r| ==> r[i].role == role
  {
    Where(users, (u: User) => role == "" || u.role == role)
  }

  /** With a role chosen, a user is offered exactly when the user has that role; with none, all are. */
  lemma UserChoicesIff(users: seq<User>, role: string, u: User)
    ensures u in UserChoices(users, role) <==> u in users && (role == "" || u.role == role)
  {
    WhereMembership(users, (u: User) => role == "" || u.role == role, u);
  }
}
