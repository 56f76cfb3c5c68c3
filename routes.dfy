/**
 * The route guard: what a protected route shows for a given session, and the
 * roles each page of the console admits.
 */
module Routes {
  import opened Js
  import opened Records

  /** The five things a protected route can show. */
  datatype Outcome = LoadingScreen | RedirectLogin | VerifyingScreen | RedirectDashboard | Children

  /** `!!t` for a token held in state or in storage. */
  predicate Present(t: Option<string>) {
    t.Some? && t.value != ""
  }

  /** `ProtectedRoute`'s decision, given the session and the route's `allowedRoles` (`None` when absent). */
  function Guard(loading: bool, user: Option<User>, token: Option<string>, storage: Option<string>,
                 allowedRoles: Option<seq<string>>): Outcome
  {
    var hasToken := Present(token) || Present(storage);
    if loading then LoadingScreen
    else if user.None? && !hasToken then RedirectLogin
    else if user.None? && hasToken then VerifyingScreen
    else if allowedRoles.Some? && user.value.role !in allowedRoles.value then RedirectDashboard
    else Children
  }

  /** While the session loads, the loading screen shows whatever the user, token or roles. */
  lemma LoadingWins(user: Option<User>, token: Option<string>, storage: Option<string>, roles: Option<seq<string>>)
    ensures Guard(true, user, token, storage, roles) == LoadingScreen
  {
  }

  /** A route outcome is a redirect to the login page exactly when nobody is signed in and no token is held anywhere. */
  lemma LoginRedirectIff(user: Option<User>, token: Option<string>, storage: Option<string>, roles: Option<seq<string>>)
    ensures Guard(false, user, token, storage, roles) == RedirectLogin <==>
            user.None? && !Present(token) && !Present(storage)
  {
  }

  /** A token without a user shows the verifying screen, so the page itself never renders. */
  lemma TokenWithoutUserVerifies(token: Option<string>, storage: Option<string>, roles: Option<seq<string>>)
    requires Present(token) || Present(storage)
    ensures Guard(false, None, token, storage, roles) == VerifyingScreen
  {
  }

  /** Only a signed-in user ever sees the page. */
  lemma ChildrenNeedUser(loading: bool, user: Option<User>, token: Option<string>, storage: Option<string>,
                         roles: Option<seq<string>>)
    requires Guard(loading, user, token, storage, roles) == Children
    ensures !loading && user.Some?
    ensures roles.Some? ==> user.value.role in roles.value
  {
  }

  /** For a signed-in user, the page renders when the role is admitted and otherwise redirects to the dashboard. */
  lemma RoleGate(u: User, token: Option<string>, storage: Option<string>, roles: Option<seq<string>>)
    ensures roles.None? || u.role in roles.value ==> Guard(false, Some(u), token, storage, roles) == Children
    ensures roles.Some? && u.role !in roles.value ==> Guard(false, Some(u), token, storage, roles) == RedirectDashboard
  {
  }

  /** The pages inside the console's layout, in the order their routes are declared. */
  datatype Page =
    | Root | Dashboard | Apartments | ApartmentDetail | Tenants | TenantDetail | Payments
    | Maintenance | Expenses | Reports | Users | ActivityLogs | PaybillConfig | EquityBankTest

  /** The path pattern each page's route declares. */
  function PathOf(p: Page): string {
    match p
    case Root => "/"
    case Dashboard => "/dashboard"
    case Apartments => "/apartments"
    case ApartmentDetail => "/apartments/:id"
    case Tenants => "/tenants"
    case TenantDetail => "/tenants/:id"
    case Payments => "/payments"
    case Maintenance => "/maintenance"
    case Expenses => "/expenses"
    case Reports => "/reports"
    case Users => "/users"
    case ActivityLogs => "/activity-logs"
    case PaybillConfig => "/paybill-config"
    case EquityBankTest => "/equity-bank-test"
  }

  /** The `allowedRoles` of the inner guard around a page; `None` for pages with no inner guard. */
  function RolesFor(p: Page): Option<seq<string>> {
    match p
    case Users => Some(["superadmin"])
    case ActivityLogs => Some(["superadmin"])
    case PaybillConfig => Some(["superadmin"])
    case EquityBankTest => Some(["superadmin", "admin"])
    case _ => None
  }

  /**
   * Every page sits inside an outer guard with no roles; gated pages sit in a
   * second guard with their roles. The outer one passes to the inner one only
   * when it would render its children.
   */
  function NestedGuard(loading: bool, user: Option<User>, token: Option<string>, storage: Option<string>,
                       page: Page): Outcome
  {
    var outer := Guard(loading, user, token, storage, None);
    if outer == Children then Guard(loading, user, token, storage, RolesFor(page)) else outer
  }

  /** The two nested guards decide exactly as one guard with the page's roles. */
  lemma NestedIsSingle(loading: bool, user: Option<User>, token: Option<string>, storage: Option<string>, page: Page)
    ensures NestedGuard(loading, user, token, storage, page) == Guard(loading, user, token, storage, RolesFor(page))
  {
  }

  /** Every page other than the four gated ones admits any signed-in user. */
  lemma UngatedPagesAdmit(u: User, token: Option<string>, storage: Option<string>, page: Page)
    requires page !in {Users, ActivityLogs, PaybillConfig, EquityBankTest}
    ensures NestedGuard(false, Some(u), token, storage, page) == Children
  {
  }

  /**
   * For a signed-in user, the superadmin pages render only for a superadmin,
   * the bank test page only for a superadmin or an admin.
   */
  lemma GatedPagesAdmit(u: User, token: Option<string>, storage: Option<string>)
    ensures NestedGuard(false, Some(u), token, storage, Users) == Children <==> u.role == "superadmin"
    ensures NestedGuard(false, Some(u), token, storage, ActivityLogs) == Children <==> u.role == "superadmin"
    ensures NestedGuard(false, Some(u), token, storage, PaybillConfig) == Children <==> u.role == "superadmin"
    ensures NestedGuard(false, Some(u), token, storage, EquityBankTest) == Children <==>
            u.role == "superadmin" || u.role == "admin"
  {
  }
}
