/**
 * The HTTP client's rules: the bearer token attached to every request, the
 * handling of an unauthorised response, and the URLs of endpoints that take a
 * filter or a query string.
 */
module Api {
  import opened Js

  /** `!!token` for the value read from storage. */
  predicate Present(t: Option<string>) {
    t.Some? && t.value != ""
  }

  /** The part of a request the interceptor touches. */
  class RequestConfig {
    var url: string
    var headers: map<string, string>

    constructor (url: string, headers: map<string, string>)
      ensures this.url == url && this.headers == headers
    {
      this.url := url;
      this.headers := headers;
    }

    /** The request interceptor: with a stored token, set `Authorization` to `Bearer <token>`. */
    method AttachToken(stored: Option<string>)
      modifies this
      ensures url == old(url)
      ensures Present(stored) ==> headers == old(headers)["Authorization" := "Bearer " + stored.value]
      ensures !Present(stored) ==> headers == old(headers)
    {
      if Present(stored) {
        headers := headers["Authorization" := "Bearer " + stored.value];
      }
    }
  }

  /** A failed request: the response status when there was one, and the request's URL when known. */
  datatype ApiError = ApiError(status: Option<int>, url: Option<string>)

  /** `error.config?.url?.includes('/auth/')` */
  predicate IsAuthEndpoint(e: ApiError) {
    e.url.Some? && Contains(e.url.value, "/auth/")
  }

  /** The browser state the response interceptor reads and changes. */
  class Browser {
    /** `localStorage.getItem('token')` */
    var storage: Option<string>
    /** `window.location.pathname` */
    var pathname: string
    /** The page a `window.location.href` assignment sent the browser to, if any. */
    var redirectedTo: Option<string>

    constructor (storage: Option<string>, pathname: string)
      ensures this.storage == storage && this.pathname == pathname && redirectedTo == None
    {
      this.storage := storage;
      this.pathname := pathname;
      redirectedTo := None;
    }

    /** Whether the interceptor forgets the session for this error on the current page. */
    predicate ForcesLogout(e: ApiError)
      reads this
    {
      e.status == Some(401) && !IsAuthEndpoint(e) && pathname != "/login"
    }

    /**
     * The response interceptor's error handler: a 401 from a non-auth endpoint,
     * away from the login page, drops the stored token and sends the browser to
     * the login page; the error is always rejected again unchanged.
     */
    method OnResponseError(e: ApiError) returns (rejected: ApiError)
      modifies this
      ensures rejected == e
      ensures pathname == old(pathname)
      ensures old(ForcesLogout(e)) ==> storage == None && redirectedTo == Some("/login")
      ensures !old(ForcesLogout(e)) ==> storage == old(storage) && redirectedTo == old(redirectedTo)
    {
      if e.status == Some(401) {
        var isAuthEndpoint := IsAuthEndpoint(e);
        var isLoginPage := pathname == "/login";
        if !isAuthEndpoint && !isLoginPage {
          storage := None;
          redirectedTo := Some("/login");
        }
      }
      rejected := e;
    }
  }

  /** A 401 on an auth endpoint, or while on the login page, keeps the token; any other status never forces a logout. */
  lemma KeepsTokenUnlessForced(b: Browser, e: ApiError)
    ensures IsAuthEndpoint(e) || b.pathname == "/login" || e.status != Some(401) ==> !b.ForcesLogout(e)
    ensures b.ForcesLogout(e) ==> e.status == Some(401)
  {
  }

  /** Every path under `/auth/`, such as the session check `/auth/me`, is an auth endpoint. */
  lemma AuthPathsExempt(rest: string, status: Option<int>)
    ensures IsAuthEndpoint(ApiError(status, Some("/auth/" + rest)))
  {
    assert OccursAt("/auth/" + rest, "/auth/", 0) by {
      assert ("/auth/" + rest)[0..][..6] == "/auth/";
    }
    OccursAtContains("/auth/" + rest, "/auth/", 0);
  }

  /** `housesAPI.getAll(apartmentId)`'s URL. */
  function HousesUrl(apartmentId: JsVal): (r: string)
    ensures Truthy(apartmentId) ==> r == "/houses?apartment=" + ToStr(apartmentId)
    ensures !Truthy(apartmentId) ==> r == "/houses"
  {
    if Truthy(apartmentId) then "/houses?apartment=" + ToStr(apartmentId) else "/houses"
  }

  /** `path + (qs ? '?' + qs : '')`, where `qs` is the encoded query string. */
  function WithQuery(path: string, qs: string): (r: string)
    ensures qs == "" ==> r == path
    ensures qs != "" ==> r == path + "?" + qs
  {
    if qs != "" then path + "?" + qs else path
  }

  /** Splitting a built URL at its first '?' gives back the path and the query string. */
  lemma WithQueryInverse(path: string, qs: string)
    requires '?' !in path
    ensures Before(WithQuery(path, qs), '?') == path
    ensures qs != "" ==> WithQuery(path, qs)[|path| + 1..] == qs
    ensures '?' in WithQuery(path, qs) <==> qs != ""
  {
    var url := WithQuery(path, qs);
    BeforeConcat(path, url[|path|..], '?');
    assert url == path + url[|path|..];
    if qs != "" {
      assert url[|path|] == '?';
    } else {
      assert url == path;
    }
  }

  /**
   * A houses URL reads back: the path before '?' is always `/houses`, a query
   * is present exactly for a truthy apartment id, and the id follows `apartment=`.
   */
  lemma HousesUrlInverse(apartmentId: JsVal)
    ensures Before(HousesUrl(apartmentId), '?') == "/houses"
    ensures '?' in HousesUrl(apartmentId) <==> Truthy(apartmentId)
    ensures Truthy(apartmentId) ==> HousesUrl(apartmentId)[18..] == ToStr(apartmentId)
  {
    var qs := if Truthy(apartmentId) then "apartment=" + ToStr(apartmentId) else "";
    assert HousesUrl(apartmentId) == WithQuery("/houses", qs);
    WithQueryInverse("/houses", qs);
    if Truthy(apartmentId) {
      assert HousesUrl(apartmentId)[8..] == qs;
      assert qs[10..] == ToStr(apartmentId);
    }
  }

  /** The endpoints that take a query string built from their parameters. */
  datatype QueryEndpoint =
    | Maintenance | Expenses | ExpenseSummary | IncomeStatement | TenantLedger(tenantId: string)
    | OutstandingBalances | RevenueByApartment | ActivityLogs | ActivityStatistics

  function BasePath(e: QueryEndpoint): string {
    match e
    case Maintenance => "/maintenance"
    case Expenses => "/expenses"
    case ExpenseSummary => "/expenses/summary/totals"
    case IncomeStatement => "/reports/income-statement"
    case TenantLedger(id) => "/reports/tenant-ledger/" + id
    case OutstandingBalances => "/reports/outstanding-balances"
    case RevenueByApartment => "/reports/revenue-by-apartment"
    case ActivityLogs => "/activity-logs"
    case ActivityStatistics => "/activity-logs/statistics"
  }

  /** The URL requested for an endpoint given its encoded parameters. */
  function EndpointUrl(e: QueryEndpoint, qs: string): (r: string)
    ensures qs == "" <==> r == BasePath(e)
  {
    WithQuery(BasePath(e), qs)
  }
}
