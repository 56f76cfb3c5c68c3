/**
 * The sidebar: which navigation items a user sees, which one is highlighted,
 * and the logout button.
 */
module Layout {
  import opened Js
  import opened Records
  import Auth
  import Routes

  /** A sidebar link: the page it opens and its text. */
  datatype NavItem = NavItem(page: Routes.Page, title: string) {
    /** The link's `path`. */
    function Path(): string {
      Routes.PathOf(page)
    }
  }

  /** The items every user sees, in order. */
  function BaseItems(): (r: seq<NavItem>)
    ensures |r| == 7
  {
    [ NavItem(Routes.Dashboard, "Dashboard"),
      NavItem(Routes.Apartments, "Apartments"),
      NavItem(Routes.Tenants, "Tenants"),
      NavItem(Routes.Payments, "Payments"),
      NavItem(Routes.Maintenance, "Maintenance"),
      NavItem(Routes.Expenses, "Expenses"),
      NavItem(Routes.Reports, "Reports") ]
  }

  function AdminItems(): seq<NavItem> {
    [NavItem(Routes.EquityBankTest, "Equity Bank Test")]
  }

  function SuperadminItems(): seq<NavItem> {
    [ NavItem(Routes.Users, "Users"),
      NavItem(Routes.ActivityLogs, "Activity Logs"),
      NavItem(Routes.PaybillConfig, "Paybill Setup") ]
  }

  /** `isAdmin()` */
  predicate IsAdmin(user: Option<User>) {
    user.Some? && (user.value.role == "admin" || user.value.role == "superadmin")
  }

  /** `isSuperadmin()` */
  predicate IsSuperadmin(user: Option<User>) {
    user.Some? && user.value.role == "superadmin"
  }

  /** `navItems` */
  function NavItems(user: Option<User>): (r: seq<NavItem>)
    ensures |r| >= 7 && r[..7] == BaseItems()
  {
    BaseItems()
    + (if IsAdmin(user) then AdminItems() else [])
    + (if IsSuperadmin(user) then SuperadminItems() else [])
  }

  /** The item list, case by case on the role. */
  lemma NavItemsByRole(user: Option<User>)
    ensures IsSuperadmin(user) ==> NavItems(user) == BaseItems() + AdminItems() + SuperadminItems()
    ensures IsAdmin(user) && !IsSuperadmin(user) ==> NavItems(user) == BaseItems() + AdminItems()
    ensures !IsAdmin(user) ==> NavItems(user) == BaseItems()
    ensures user.None? ==> NavItems(user) == BaseItems()
  {
  }

  /** The bank test item appears exactly for an admin or a superadmin. */
  lemma EquityItemIff(user: Option<User>)
    ensures NavItem(Routes.EquityBankTest, "Equity Bank Test") in NavItems(user) <==> IsAdmin(user)
  {
    var e := NavItem(Routes.EquityBankTest, "Equity Bank Test");
    if IsAdmin(user) {
      assert NavItems(user)[7] == e;
    } else {
      assert e !in BaseItems();
      assert NavItems(user) == BaseItems();
    }
  }

  /** The three superadmin items appear exactly for a superadmin, and then last. */
  lemma SuperadminItemsIff(user: Option<User>)
    ensures IsSuperadmin(user) <==> |NavItems(user)| == 11
    ensures IsSuperadmin(user) ==> NavItems(user)[8..] == SuperadminItems()
    ensures !IsSuperadmin(user) ==> forall it :: it in SuperadminItems() ==> it !in NavItems(user)
  {
    if !IsSuperadmin(user) {
      assert NavItems(user) == BaseItems() + (if IsAdmin(user) then AdminItems() else []);
    }
  }

  /** Every item shown to a signed-in user leads to a page that user is admitted to. */
  lemma ShownItemsAdmitted(u: User, token: Option<string>, storage: Option<string>)
    ensures forall it :: it in NavItems(Some(u)) ==>
              Routes.NestedGuard(false, Some(u), token, storage, it.page) == Routes.Children
  {
    forall it | it in NavItems(Some(u))
      ensures Routes.NestedGuard(false, Some(u), token, storage, it.page) == Routes.Children
    {
      Routes.NestedIsSingle(false, Some(u), token, storage, it.page);
    }
  }

  /** A link is highlighted when the current path starts with its path. */
  predicate IsActive(pathname: string, item: NavItem) {
    StartsWith(pathname, item.Path())
  }

  /** A page below an item's path, such as an apartment's detail page, keeps that item highlighted. */
  lemma SubpageActive(item: NavItem, rest: string)
    ensures IsActive(item.Path() + rest, item)
  {
    assert (item.Path() + rest)[..|item.Path()|] == item.Path();
  }

  /** `handleLogout`: log out, then go to the login page. */
  method HandleLogout(session: Auth.AuthSession) returns (navigateTo: string)
    modifies session
    ensures navigateTo == "/login"
    ensures session.user == None && session.token == None && session.storage == None
    ensures session.calls == old(session.calls) + [Auth.LogoutCall]
  {
    session.Logout();
    navigateTo := "/login";
  }
}
