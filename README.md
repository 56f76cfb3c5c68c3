# Rental management console: a verified model

The console is a single-page admin front end for a rent management service.
Landlords and caretakers use it to look after apartments, units (houses),
tenants, payments, expenses, reports and users. Every ledger, rent and
late-fee rule runs on the server. The front end holds what this project
models:

- the **table engine** behind every list: search, then filters, then sort,
  then paging, with its small sort/filter/page state machine and the
  pagination bar's page-number window;
- the **form validation library**: phone and e-mail checks, and the
  rule-ordered field check folded over a form schema;
- **session and access control**: the login/bootstrap/logout lifecycle, the
  route guard and its role table, the role-gated navigation, and the request
  and response interceptors;
- **derivations** shown on screen or written to files: tenant payment totals,
  dashboard counts and monthly revenue, the amenity list's parse and join,
  receipt fields and file name, PDF table shaping, and the report column
  labels and query parameters;
- the **payload and guard rules** of the editing screens: which fields are
  defaulted, nulled, dropped or required before a request goes out, and what
  each handler resets afterwards.

## Layout

One module per source file, plus two shared ones:

- `Js` (`js.dfy`): the JavaScript value semantics the pages rely on. It
  holds a `JsVal` value type, truthiness and `||`, `String()`, strict
  equality, ASCII `toLowerCase`/`toUpperCase`, `trim`, `split`/`join`,
  `includes`, `slice`, and `filter` (`Where`) with the subsequence facts
  about it. `Option` is defined here too.
- `Records` (`records.dfy`): the payment, unit, tenant and user records
  several pages share, and the `id || value` reference rule.
- The module for each source file:
  - `UseTable`, `TablePagination` and `Validation`;
  - `Auth` (AuthContext), `Routes` (App), `Api` and `Layout`;
  - `ActivityLogs`, `TenantDetail`, `Dashboard`, `ApartmentDetail` and `Tenants`;
  - `Receipt`, `Export` and `Reports`;
  - `Payments`, `Users` and `Expenses`;
  - `EquityBankTest` and `PaybillConfig`.

State updated in place becomes a class whose methods say their whole new
state. This covers the table state, the auth session, the request config and
browser storage, and each page's form state. Loops over arrays, such as the
filter loop, the page-number pushes, the schema fold and the in-place
newest-first sort of the communication log, are methods with loop invariants.
Each such method is proved against a function, and the properties live in
lemmas about that function. Pure expressions are functions.

Modelling conventions:

- Amounts are integers. 0 stands for a missing amount, so `a || b` behaves
  as in the source.
- Dates are comparable numeric timestamps or ISO text.
- The present time, today's date and the current month are parameters.
- Each server call is a parameter that stands for its response or its
  failure, and each request is a value the handler returns.
- `localStorage` is a single optional token.

A few behaviours of the source that the model keeps as written:

- The `*Date*Start*` test is case-sensitive, so a `startDate` filter falls
  through to text equality (`UseTable.LowerStartKeyIsEquality`).
- The tenant-list search compares the raw phone number against the
  lowercased query, so a phone holding capitals is not found by them
  (`Tenants.PhoneComparedRaw`).
- The receipt's method label replaces only the first underscore
  (`Receipt.MethodLabelFirstUnderscore`).
- A report key that already has a space before a capital gets a double
  space in its PDF heading (`Reports.DoubleSpace`).
- An account number of spaces is refused by the Equity Bank lookup but
  passes its payment guard once another account is verified
  (`EquityBankTest.SpacesPassPaymentGuard`).
- With an empty table there are 0 pages and the bar reads "1 to 0 of 0", so
  the forward buttons stay enabled (`TablePagination.ButtonsStayInRange`
  covers only pages in range).

## Model

| member | source | states |
|---|---|---|
| UseTable.SearchableFields | src/hooks/useTable.js:26-39 | the search looks at exactly thirteen values of a row |
| UseTable.SearchHitIff | src/hooks/useTable.js:40-42 | a row is a hit exactly when one of its truthy searchable values, as lowercase text, contains the query |
| UseTable.BlankSearchKeepsAll | src/hooks/useTable.js:22 | a query that trims to nothing keeps every row |
| UseTable.SearchMembership | src/hooks/useTable.js:22-43 | after a non-blank search a row is kept iff it was in the data and one of its fields contains the lowercased, untrimmed query |
| UseTable.FilterStep | src/hooks/useTable.js:47-85 | applying one more active filter to the rows kept so far equals filtering by the enlarged key set |
| UseTable.FilterSkip | src/hooks/useTable.js:48 | a filter whose value is '', null or undefined is skipped |
| UseTable.FilterData | src/hooks/useTable.js:18-88 | the loop over the filter keys computes `filteredData`: search, then every active filter |
| UseTable.FilteredIsSubseq | src/hooks/useTable.js:18-88 | `filteredData` is a subsequence of the data (order kept, nothing added) |
| UseTable.FilteredMembership | src/hooks/useTable.js:18-88 | a row is in `filteredData` iff it is in the data, passes the search, and is kept by every active filter |
| UseTable.EmptyKeyPasses | src/hooks/useTable.js:48 | setting a filter to an empty value filters as if the key were absent |
| UseTable.EmptyFilterIgnored | src/hooks/useTable.js:48 | the same, on the whole `filteredData` |
| UseTable.NoActiveFilters | src/hooks/useTable.js:47-85 | with no active filter, `filteredData` is the search result |
| UseTable.StartDateFilter | src/hooks/useTable.js:53-58 | a `*Date*Start*` key keeps a row iff both dates are valid and the row's is not earlier |
| UseTable.EndDateFilter | src/hooks/useTable.js:53-61 | a `*Date*End*` key keeps a row iff both dates are valid and the row's is not later |
| UseTable.LowerStartKeyIsEquality | src/hooks/useTable.js:53-82 | `startDate` does not contain `Start` (case matters), so it falls through to the text comparison |
| UseTable.AmountMinFilter | src/hooks/useTable.js:65-68 | `amountMin` keeps rows whose paid amount, or billed amount when nothing was paid, is at least the bound |
| UseTable.AmountMaxFilter | src/hooks/useTable.js:69-72 | `amountMax` keeps rows whose paid-or-billed amount is at most the bound |
| UseTable.ObjectFilter | src/hooks/useTable.js:75-79 | an object value matches by strict equality of its `_id`, else of its `status`, else never |
| UseTable.ScalarFilter | src/hooks/useTable.js:82 | a scalar value matches by case-insensitive text equality |
| UseTable.Coerce | src/hooks/useTable.js:99-104 | only object values are replaced by their first present name-like field |
| UseTable.Compare | src/hooks/useTable.js:94-122 | the comparator returns -1, 0 or 1 |
| UseTable.InsertPermutes | src/hooks/useTable.js:94 | inserting into the sorted list adds exactly that element |
| UseTable.SortPermutes | src/hooks/useTable.js:94 | the stable sort is a permutation |
| UseTable.SortedIsPermutation | src/hooks/useTable.js:91-123 | `sortedData` is a permutation of `filteredData`, and equals it when there is no sort field |
| UseTable.CompareTies | src/hooks/useTable.js:94-122 | rows with the same field value compare equal |
| UseTable.CompareDescNegatesAsc | src/hooks/useTable.js:119-121 | the descending comparator is the ascending one negated |
| UseTable.InsertSorted | src/hooks/useTable.js:94 | inserting into a sorted list under an asymmetric comparator keeps it sorted |
| UseTable.SortSorted | src/hooks/useTable.js:94 | the stable sort under an asymmetric comparator gives consecutive elements in comparator order |
| UseTable.CompareAsymmetric | src/hooks/useTable.js:113-121 | when no sort value, or every one, is taken for a date, the comparator never ranks two rows above each other both ways |
| UseTable.SortedInOrder | src/hooks/useTable.js:91-123 | in that case `sortedData` is in comparator order |
| UseTable.NumericPair | src/hooks/useTable.js:119-121 | on numbers, a non-positive comparison means ascending for 'asc' and descending otherwise |
| UseTable.SortedMembers | src/hooks/useTable.js:94 | every sorted row comes from the input |
| UseTable.NumericSort | src/hooks/useTable.js:91-123 | on a numeric column `sortedData` is ascending for 'asc' and descending for any other order |
| UseTable.SortKeepsTies | src/hooks/useTable.js:94 | when every pair ties, the sort leaves the order unchanged (stability) |
| UseTable.TotalPages | src/hooks/useTable.js:131 | `Math.ceil(n / pageSize)`: the least page count whose pages cover n rows |
| UseTable.PageIsSlice | src/hooks/useTable.js:126-129 | page p holds rows [(p-1)·s, p·s) clipped to the data, never more than s |
| UseTable.RowOnPage | src/hooks/useTable.js:126-129 | row i is shown on page i / s + 1 at position i % s |
| UseTable.PagesUpToPrefix | src/hooks/useTable.js:126-129 | pages 1..k, one after another, are the first k·s rows |
| UseTable.PagesPartition | src/hooks/useTable.js:126-131 | pages 1..totalPages, one after another, are exactly `sortedData` |
| UseTable.TableState.constructor | src/hooks/useTable.js:3-15 | the initial state from the options |
| UseTable.TableState.Default | src/hooks/useTable.js:4-15 | the defaults: 25 rows, no sort field, ascending, page 1 |
| UseTable.TableState.SetSearchQuery | src/hooks/useTable.js:10 | only the query changes |
| UseTable.TableState.HandleSort | src/hooks/useTable.js:133-141 | the same column flips the order, a new column sorts ascending; page 1; nothing else changes |
| UseTable.TableState.UpdateFilter | src/hooks/useTable.js:143-146 | one key set, the others kept; page 1 |
| UseTable.TableState.ClearFilters | src/hooks/useTable.js:148-152 | filters and query emptied, page 1, sorting and page size kept |
| UseTable.TableState.SetCurrentPage | src/hooks/useTable.js:14 | only the page changes |
| UseTable.TableState.SetPageSize | src/hooks/useTable.js:15 | only the page size changes |
| UseTable.TableState.TotalItems | src/hooks/useTable.js:169 | `totalItems` is the number of rows passing search and filters |
| UseTable.TableState.Paginated | src/hooks/useTable.js:126-129 | the current page of the sorted rows, at most `pageSize` of them |
| TablePagination.EndItem | src/components/TablePagination.jsx:5 | the last row shown is at most both page·size and the total, and equal to one of them |
| TablePagination.Range | src/components/TablePagination.jsx:12-14 | the run lo, lo+1, …, hi |
| TablePagination.PushRange | src/components/TablePagination.jsx:12-27 | the push loop appends exactly that run |
| TablePagination.GetPageNumbers | src/components/TablePagination.jsx:7-32 | the buttons computed case by case |
| TablePagination.FewPagesAllListed | src/components/TablePagination.jsx:11-14 | up to five pages: exactly 1..totalPages |
| TablePagination.ManyPagesFiveConsecutive | src/components/TablePagination.jsx:15-29 | more than five pages: five consecutive numbers |
| TablePagination.WindowBounds | src/components/TablePagination.jsx:15-29 | with more than five pages and a page in range, every number is a page and the current one is shown |
| TablePagination.WindowIncreasing | src/components/TablePagination.jsx:7-32 | the numbers are strictly increasing, so none repeats |
| TablePagination.ButtonsStayInRange | src/components/TablePagination.jsx:56-92 | enabled previous and next buttons lead to pages in range, and the disabled ones are exactly those that would leave it |
| TablePagination.RangeMatchesPage | src/components/TablePagination.jsx:4-5 | on a non-empty page "showing X to Y" counts exactly the rows of that page, starting at row X |
| Validation.EmailSound | src/utils/validation.js:1-4 | every address the check accepts has the shape `local@domain.tld` with no spaces or extra `@` in any part |
| Validation.EmailComplete | src/utils/validation.js:1-4 | every address of that shape is accepted |
| Validation.EmailIff | src/utils/validation.js:1-4 | the email check accepts exactly the strings the regular expression `^[^\s@]+@[^\s@]+\.[^\s@]+$` matches |
| Validation.RemoveSpaces | src/utils/validation.js:9 | no whitespace is left |
| Validation.PhoneByLengthIff | src/utils/validation.js:6-10 | the pattern `^(\+?254\|0)?[17]\d{8}$` is the same as a case split on the length: 9, 10 with `0`, 12 with `254`, 13 with `+254` |
| Validation.PhoneLengths | src/utils/validation.js:6-10 | an accepted number has 9, 10, 12 or 13 characters once spaces are removed |
| Validation.PhoneExamplePlus | src/utils/validation.js:7-10 | `+254712345678`, the first format named in the comment, matches the pattern |
| Validation.PhoneExampleCountryCode | src/utils/validation.js:7-10 | `254712345678`, the country code without '+', matches |
| Validation.PhoneExampleTrunk | src/utils/validation.js:7-10 | `0712345678`, the national format with the trunk '0', matches |
| Validation.PhoneExampleBare | src/utils/validation.js:7-10 | `712345678`, the bare subscriber number, matches |
| Validation.PhoneExampleRefused | src/utils/validation.js:7-10 | `0812345678` does not match: the subscriber part must start with '1' or '7' |
| Validation.RequiredIff | src/utils/validation.js:12-14 | a value fails `validateRequired` iff it is null/undefined or all whitespace |
| Validation.GetFieldError | src/utils/validation.js:41-84 | an error message is never empty |
| Validation.Checks | src/utils/validation.js:44-62 | five rules, tried in source order |
| Validation.FirstFailureIff | src/utils/validation.js:41-84 | the first failing check's message is reported, and nothing iff no check fails |
| Validation.FieldErrorIsFirstFailure | src/utils/validation.js:41-62 | `getFieldError` reports the first failing rule, the custom message overriding the default |
| Validation.NoErrorIff | src/utils/validation.js:41-84 | no error iff every rule that applies passes (the format rules only for a present value) |
| Validation.EmptyOptionalHasNoError | src/utils/validation.js:48-62 | an empty value of an optional field has no error |
| Validation.RequiredFirst | src/utils/validation.js:44-46 | a missing required value reports the required message before anything else |
| Validation.ValidateForm | src/utils/validation.js:86-99 | errors hold exactly the fields of the schema that have an error, each with its message, and `isValid` iff there is none |
| Records.IdOf | src/pages/Payments.jsx:140-141 | a populated reference with an `_id` gives it, anything else gives itself; the result is truthy exactly when the reference is |
| Records.OrAmount | src/pages/Payments.jsx:396 | `a \|\| b` on amounts: `a` unless it is 0, and 0 only when both are |
| Records.DatePart | src/pages/Payments.jsx:143-144 | the date part is the prefix of the timestamp before its first `T`, and '' when there is no timestamp |
| Records.IdOrEmpty | src/pages/Users.jsx:67 | a present reference gives its id when populated and itself otherwise; a missing one gives '' (the same rule fills the expense form's house and request, Expenses.jsx lines 109 and 118) |
| Auth.AuthSession.constructor | src/context/AuthContext.jsx:15-17 | no user, loading, the token read from storage |
| Auth.AuthSession.InitAuth | src/context/AuthContext.jsx:19-54 | with no stored token nothing is fetched; otherwise `getMe` is called, its user adopted, a 401 clears the token and the user, any other failure leaves both; loading ends either way |
| Auth.AuthSession.Logout | src/context/AuthContext.jsx:116-127 | the server is told, and the token, the stored token and the user are cleared |
| Auth.AuthSession.FetchUser | src/context/AuthContext.jsx:56-66 | success iff `getMe` answers; a failure logs out |
| Auth.AuthSession.Login | src/context/AuthContext.jsx:68-114 | success iff the server answers with a token and a user, which are then stored; the two missing-data messages and the message fallback chain otherwise, with the session unchanged |
| Auth.AuthSession.CanAccessApartmentCases | src/context/AuthContext.jsx:137-144 | a superadmin reaches every apartment, a caretaker exactly their own (compared as text), anyone else none; only the caretaker case needs a non-null id |
| Auth.BootstrapWithoutToken | src/context/AuthContext.jsx:48-50 | with nothing stored, start-up makes no call and ends signed out |
| Routes.LoadingWins | src/App.jsx:25-38 | while loading, only the loading screen is shown |
| Routes.LoginRedirectIff | src/App.jsx:40-45 | redirect to /login iff there is no user and no token in state or storage |
| Routes.TokenWithoutUserVerifies | src/App.jsx:47-61 | a token without a user shows "Verifying authentication..." |
| Routes.ChildrenNeedUser | src/App.jsx:22-69 | the page is shown only to a loaded user whose role is allowed |
| Routes.RoleGate | src/App.jsx:63-68 | an allowed or unrestricted role sees the page; any other role goes to /dashboard |
| Routes.NestedIsSingle | src/App.jsx:79-130 | the outer guard around the inner one decides as the inner one alone |
| Routes.UngatedPagesAdmit | src/App.jsx:85-94 | every signed-in user reaches the ungated pages |
| Routes.GatedPagesAdmit | src/App.jsx:95-126 | users, activity logs and paybill setup for superadmins only; the Equity Bank test for superadmins and admins |
| Layout.BaseItems | src/components/Layout.jsx:34-41 | seven items for everyone |
| Layout.NavItems | src/components/Layout.jsx:34-50 | the menu always starts with the seven base items |
| Layout.NavItemsByRole | src/components/Layout.jsx:42-50 | the exact menu of a superadmin, an admin and anyone else |
| Layout.EquityItemIff | src/components/Layout.jsx:42-44 | the Equity Bank item is shown iff the user is an admin or superadmin |
| Layout.SuperadminItemsIff | src/components/Layout.jsx:45-49 | a superadmin sees eleven items ending in the three superadmin ones; nobody else sees them |
| Layout.ShownItemsAdmitted | src/components/Layout.jsx:34-50 | every item shown leads to a page the route guard lets the user open |
| Layout.SubpageActive | src/components/Layout.jsx:90 | an item is highlighted on every path under its own |
| Layout.HandleLogout | src/components/Layout.jsx:29-32 | logs out and goes to /login |
| Api.RequestConfig.constructor | src/services/api.js:13-20 | the request the interceptor receives carries the URL and headers it was made with |
| Api.RequestConfig.AttachToken | src/services/api.js:13-20 | `Authorization: Bearer <token>` is set iff a non-empty token is stored; otherwise the headers are unchanged |
| Api.Browser.constructor | src/services/api.js:27-42 | the browser state the response interceptor reads |
| Api.Browser.OnResponseError | src/services/api.js:27-42 | every error is rejected unchanged; only a forcing 401 removes the token and redirects to /login |
| Api.KeepsTokenUnlessForced | src/services/api.js:30-39 | a 401 on an `/auth/` URL or on the login page, and every non-401 error, keep the token |
| Api.AuthPathsExempt | src/services/api.js:32 | every `/auth/...` URL counts as an auth endpoint |
| Api.HousesUrl | src/services/api.js:55-58 | `/houses?apartment=<id>` for a truthy id, else `/houses` |
| Api.HousesUrlInverse | src/services/api.js:55-58 | the path before '?' is always `/houses`; a query is present exactly for a truthy id, and the id reads back after `apartment=` |
| Api.WithQuery | src/services/api.js:121-124 | `?` and the query string are appended only when the query string is non-empty |
| Api.WithQueryInverse | src/services/api.js:121-124 | the path and the query string can be read back from the URL |
| Api.EndpointUrl | src/services/api.js:132-178 | each query endpoint's URL is its bare path exactly when the query string is empty |
| ActivityLogs.FilterKeys | src/pages/ActivityLogs.jsx:17-25 | seven filter keys |
| ActivityLogs.EmptyFilters | src/pages/ActivityLogs.jsx:17-25 | the seven keys, all '' |
| ActivityLogs.NonEmpty | src/pages/ActivityLogs.jsx:66-70 | a key survives iff its value is not '', null or undefined, with its value unchanged |
| ActivityLogs.ParamsContents | src/pages/ActivityLogs.jsx:59-70 | the request carries page and limit, plus exactly the non-empty filters |
| ActivityLogs.StatisticsParams | src/pages/ActivityLogs.jsx:86-91 | the statistics request carries each date bound iff it is set |
| ActivityLogs.LogsPage.constructor | src/pages/ActivityLogs.jsx:17-33 | empty filters, page 1, limit 50, nothing loaded |
| ActivityLogs.LogsPage.HandleFilterChange | src/pages/ActivityLogs.jsx:99-102 | one filter key changes and the page goes back to 1 |
| ActivityLogs.LogsPage.ClearFilters | src/pages/ActivityLogs.jsx:104-115 | all seven keys '' and page 1, after which no filter is active |
| ActivityLogs.LogsPage.HandlePageChange | src/pages/ActivityLogs.jsx:117-119 | only the page changes |
| ActivityLogs.LogsPage.HandleLimitChange | src/pages/ActivityLogs.jsx:121-123 | the limit changes and the page goes back to 1 |
| ActivityLogs.LogsPage.ReceivePagination | src/pages/ActivityLogs.jsx:74-77 | the server's pagination fields override the local ones, the others stay |
| ActivityLogs.LogsPage.FetchParams | src/pages/ActivityLogs.jsx:59-70 | the pruning loop deletes exactly the empty parameters |
| ActivityLogs.FilterChangeActive | src/pages/ActivityLogs.jsx:235-236 | setting any filter to a non-empty value makes `hasActiveFilters` true |
| ActivityLogs.ButtonNumbers | src/pages/ActivityLogs.jsx:534-544 | min(5, pages) buttons |
| ActivityLogs.ButtonsAreTableWindow | src/pages/ActivityLogs.jsx:534-544 | the buttons are the same window that the table pagination computes |
| ActivityLogs.ButtonsInRange | src/pages/ActivityLogs.jsx:534-544 | with more than five pages and a page in range, every button is a page and the current one is shown |
| ActivityLogs.SummaryRange | src/pages/ActivityLogs.jsx:523 | the end never passes the total, and on a non-empty page 1 ≤ start ≤ end |
| ActivityLogs.SummaryIsTableRange | src/pages/ActivityLogs.jsx:523 | the same range as "showing X to Y" of the table pagination |
| ActivityLogs.AgeBuckets | src/pages/ActivityLogs.jsx:125-136 | 'Just now' under a minute, then whole minutes under an hour, hours under a day, days under a week, else a calendar date (floor division) |
| ActivityLogs.UserChoices | src/pages/ActivityLogs.jsx:346-347 | with a role filter, only users of that role are listed |
| ActivityLogs.UserChoicesIff | src/pages/ActivityLogs.jsx:346-347 | a user is listed iff they are among the users and the role filter is empty or matches |
| TenantDetail.TotalsOfNone | src/pages/TenantDetail.jsx:191-200 | all three totals are 0 for a tenant with no payments |
| TenantDetail.TotalsConcat | src/pages/TenantDetail.jsx:191-200 | each total of two lists joined is the sum of their totals (the folds are sums) |
| TenantDetail.StatusesDisjoint | src/pages/TenantDetail.jsx:192-196 | no payment is both paid and outstanding |
| TenantDetail.PaidAndPendingPartition | src/pages/TenantDetail.jsx:191-197 | `totalPaid` and `totalPending` add up each payment's share once, by status, and the two together never count a payment twice |
| TenantDetail.TotalsNonNegative | src/pages/TenantDetail.jsx:191-200 | non-negative amounts give non-negative totals |
| TenantDetail.MoveNumbers | src/pages/TenantDetail.jsx:463-468 | one number per move |
| TenantDetail.MoveNumbersCountDown | src/pages/TenantDetail.jsx:463-468 | the moves are numbered n, n-1, …, 1: strictly decreasing and covering 1..n |
| TenantDetail.SortNewestFirst | src/pages/TenantDetail.jsx:558-559 | the log is sorted in place newest first, as a permutation of the old log |
| TenantDetail.InsertNewest | src/pages/TenantDetail.jsx:559 | one insertion step extends the newest-first prefix by one entry |
| TenantDetail.SwapAdjacent | src/pages/TenantDetail.jsx:559 | two neighbours exchanged, nothing else moved |
| TenantDetail.MpesaRequest | src/pages/TenantDetail.jsx:144-160 | no request iff the tenant has no house |
| TenantDetail.MpesaRequestFields | src/pages/TenantDetail.jsx:153-160 | the request carries the form's phone, month and year, the tenant id and house number, and the typed amount or else the rent |
| Dashboard.MonthlyPayments | src/pages/Dashboard.jsx:48-52 | every monthly payment has the current year and the two-digit current month |
| Dashboard.MonthlyPaymentsExact | src/pages/Dashboard.jsx:48-52 | a payment is kept iff it was fetched and is of the current month, and the kept ones keep their order |
| Dashboard.DashboardStats | src/pages/Dashboard.jsx:57-66 | apartment, house and payment totals are the list lengths |
| Dashboard.UnitCountsWithinTotal | src/pages/Dashboard.jsx:59-62 | occupied + available + maintenance never exceeds the number of houses |
| Dashboard.ActiveTenantsCounted | src/pages/Dashboard.jsx:63 | a tenant counts iff their status is exactly 'active' |
| Dashboard.RevenueIsMonthPaidSum | src/pages/Dashboard.jsx:50-55 | monthly revenue is the sum of the paid value of the payments that are this month's and paid |
| Dashboard.MonthTextTwoDigits | src/pages/Dashboard.jsx:51 | the month is two characters, zero-padded below 10 |
| ApartmentDetail.TrimAll | src/pages/ApartmentDetail.jsx:87 | one trimmed piece per piece |
| ApartmentDetail.JoinAmenities | src/pages/ApartmentDetail.jsx:123 | no amenity list gives '' |
| ApartmentDetail.ParsedAreClean | src/pages/ApartmentDetail.jsx:85-88 | every parsed amenity is non-empty, trimmed and free of commas |
| ApartmentDetail.SplitJoined | src/pages/ApartmentDetail.jsx:85-123 | splitting the `', '`-joined list on `,` gives the first item and then each other item behind one space |
| ApartmentDetail.TrimJoinedPieces | src/pages/ApartmentDetail.jsx:87-123 | trimming those pieces gives back the list |
| ApartmentDetail.ParseJoin | src/pages/ApartmentDetail.jsx:85-123 | parsing the joined list gives it back when every item is clean (the round trip) |
| ApartmentDetail.ParseIdempotent | src/pages/ApartmentDetail.jsx:85-123 | parse(join(parse(s))) = parse(s) |
| ApartmentDetail.AssignableIff | src/pages/ApartmentDetail.jsx:57-74 | a tenant is offered iff their lowercased status is 'active'; a tenant without status never is |
| ApartmentDetail.Counts | src/pages/ApartmentDetail.jsx:273-285 | the three status counts add up to at most the number of units, and the total is `totalHouses` or else the unit count |
| ApartmentDetail.EditApartmentForm | src/pages/ApartmentDetail.jsx:194-206 | missing texts become '' and a missing manager becomes empty name, phone and email |
| ApartmentDetail.EditHouseForm | src/pages/ApartmentDetail.jsx:116-126 | number, rent and status copied, a missing description becomes '' |
| ApartmentDetail.HouseSubmit | src/pages/ApartmentDetail.jsx:85-95 | number, rent, status and description are the form's, the apartment is the page's id, the amenities are the parsed list of the form's text, each clean |
| ApartmentDetail.EditThenSubmitKeepsAmenities | src/pages/ApartmentDetail.jsx:85-124 | editing a unit with clean amenities and saving it unchanged sends the same amenities |
| ApartmentDetail.UnitStatusColor | src/pages/ApartmentDetail.jsx:225-236 | an unknown status gets the grey fallback |
| Tenants.FilterTenants | src/pages/Tenants.jsx:63-86 | the step-by-step filter computes the apartment-then-search result, an order-preserving subsequence of the tenants |
| Tenants.AllAndBlankKeepsAll | src/pages/Tenants.jsx:63-86 | apartment 'all' and a blank query keep every tenant in order |
| Tenants.ShownIff | src/pages/Tenants.jsx:63-86 | a tenant is shown iff they are listed, in the selected apartment (or 'all'), and match a non-blank query |
| Tenants.NoHouseNoApartment | src/pages/Tenants.jsx:67-72 | a tenant without a house is in no apartment |
| Tenants.PhoneComparedRaw | src/pages/Tenants.jsx:75-84 | a phone holding the query matches; a tenant found only by the phone "ABC" is not found by the query "ABC", which is lowercased while the phone is not |
| Tenants.EditForm | src/pages/Tenants.jsx:112-127 | names, contacts and status copied; bank name defaults to 'Equity'; lease dates cut at `T`; a missing emergency contact becomes empty fields |
| Tenants.EditFormDates | src/pages/Tenants.jsx:121-122 | a missing lease date becomes '', a present one its prefix before `T`, and a date without `T` is kept whole |
| Tenants.EditOfBlankTenantIsReset | src/pages/Tenants.jsx:112-127 | editing a blank active tenant yields exactly the reset form, so both spell the same bank-name and contact defaults (also lines 148-165) |
| Receipt.ReceiptNumber | src/utils/receipt.js:38 | the stored receipt number, else `REC-` and the uppercased last eight characters of the id |
| Receipt.GeneratedNumberShape | src/utils/receipt.js:38 | a generated number is `REC-` and at most eight characters, none lowercase |
| Records.PaidValue | src/utils/receipt.js:136 | what was paid is one of the two recorded amounts, the paid one when set, and 0 only when neither is |
| Receipt.TotalPaid | src/utils/receipt.js:166 | total paid exceeds paid by exactly the late fee, so it is never less than paid when the fee is not negative |
| Receipt.OptionalAmounts | src/utils/receipt.js:141-152 | the deficit and late-fee values are shown iff they are positive |
| Receipt.AmountLinesShape | src/utils/receipt.js:124-168 | the amount table has expected and paid first, total last, and a deficit or late-fee line iff that amount is positive |
| Receipt.AmountLinesDescend | src/utils/receipt.js:124-168 | each line sits at least 8 below the previous one, and the table ends where `yPos` does |
| Receipt.ReceiptPage.constructor | src/utils/receipt.js:30 | the page starts at a given `yPos` with no lines |
| Receipt.ReceiptPage.PaymentInformation | src/utils/receipt.js:124-168 | drawing the amount table appends exactly its lines and moves `yPos` down by its height |
| Receipt.MethodLabel | src/utils/receipt.js:175-176 | the label is as long as the method text |
| Receipt.MethodLabelFirstUnderscore | src/utils/receipt.js:175-176 | the label is the uppercased method with only its first `_` replaced by a space |
| Receipt.StatusColour | src/utils/receipt.js:182-183 | green for paid, orange for partial, red otherwise |
| Receipt.TenantName | src/utils/receipt.js:67-69 | "first last" trimmed, or 'N/A' with no tenant |
| Receipt.TenantNameTrimmed | src/utils/receipt.js:67-69 | the name has no surrounding whitespace |
| Receipt.DetailsOf | src/utils/receipt.js:70-92 | missing email and house number show 'N/A', and the house's apartment name wins over the payment's |
| Receipt.Filename | src/utils/receipt.js:223 | `Receipt-`, then the stored receipt number or else the last eight characters of the id (not uppercased), then `-`, the date and `.pdf`, each read back at its offset |
| Receipt.FilenameAndNumber | src/utils/receipt.js:38 | the file name carries the receipt number when there is one, and otherwise the id suffix that the generated number uppercases (also line 223) |
| Export.Cell | src/utils/export.js:36-43 | null and undefined become '' even with a formatter; otherwise the formatter wins, its result printed blank when it is null or undefined, else an object is stringified as JSON and a scalar with `String` |
| Export.TableData | src/utils/export.js:34-45 | one row per data item, each with one cell per column |
| Export.TableCells | src/utils/export.js:34-45 | cell (i, j) is column j of item i |
| Export.TableConcat | src/utils/export.js:34 | the table of two lists joined is their two tables joined (a row depends only on its item) |
| Export.Head | src/utils/export.js:49 | the header row is the column labels in order |
| Export.FileName | src/utils/export.js:6-57 | the saved file is the given base name, or the default, followed by exactly the format's extension, `.xlsx`, `.csv` or `.pdf`, so the base can be read back |
| Export.NamesDistinct | src/utils/export.js:12-57 | two formats never give the same file name for one base name |
| Export.ExportToPdf | src/utils/export.js:22-58 | the document's head is the labels, its body one full row per item, its file the base name with `.pdf` |
| Export.PaymentColumnsShape | src/utils/export.js:61-68 | exactly six columns, date, tenant, house, amount, status and method, the last two without a formatter |
| Export.ExportPaymentsToPdf | src/utils/export.js:60-71 | titled "Payments Report", file `payments-report.pdf` by default, six cells a row |
| Export.PaymentCells | src/utils/export.js:36-65 | a missing tenant is '' (the null test comes before the formatter), a zero amount is `KSh 0` in the locale, and a tenant object shows "first last" |
| Export.HouseCells | src/utils/export.js:64-79 | the house formatter returns the raw `houseNumber`: a house given as a bare id prints blank in both reports, a house object prints its number, and an empty house prints 'N/A' or 'Not Assigned' |
| Export.ExportTenantsToPdf | src/utils/export.js:73-84 | titled "Tenants Report", file `tenants-report.pdf` by default, the six tenant headings |
| Reports.DateParams | src/pages/Reports.jsx:84-116 | the ledger and revenue queries carry start and end dates exactly when they are set, and nothing else |
| Reports.IncomeParams | src/pages/Reports.jsx:64-67 | the income query carries the start date, end date and apartment exactly when each is set, and nothing else |
| Reports.FetchFor | src/pages/Reports.jsx:31-41 | the tab decides the endpoint; the ledger is fetched only with a tenant chosen; balances take no parameters; only the income statement filters by apartment (also lines 61-126) |
| Reports.Prepared | src/pages/Reports.jsx:137-186 | the export has one row per income line, balance, apartment or ledger payment |
| Reports.RowKeys | src/pages/Reports.jsx:140-182 | every row of a report has exactly its keys in order: label and value for income; Tenant, Apartment, House, Outstanding Balance; Apartment, Revenue, Late Fees, Total, Payments, Tenants; Date, Expected, Paid, Deficit, Late Fee, Status, Method |
| Reports.SpaceCapitalsLength | src/pages/Reports.jsx:191 | spacing capitals adds exactly one character per capital |
| Reports.PdfLabelLength | src/pages/Reports.jsx:191 | a heading is its key plus one space per capital after the first character; an empty key gives an empty heading |
| Reports.SpaceCapitalsNoCapitals | src/pages/Reports.jsx:191 | text without capitals is unchanged |
| Reports.DoubleSpace | src/pages/Reports.jsx:154-191 | a key that already has a space before a capital, such as 'Late Fee', gets two spaces there in its heading |
| Reports.SpaceCapitalsInverse | src/pages/Reports.jsx:191 | the spacing loses nothing: removing the inserted spaces gives back the key |
| Reports.PdfColumns | src/pages/Reports.jsx:189-192 | one column per key of the first row, in order, labelled by the transform; none without rows |
| Reports.ExportReport | src/pages/Reports.jsx:132-199 | nothing happens without loaded data or with an unknown format; otherwise a PDF, workbook or CSV of the prepared rows under the prepared name and title |
| Payments.FormatPaymentMethod | src/pages/Payments.jsx:226-239 | a known method gets its display name, an unknown one is shown as it is, an empty one as `N/A` |
| Payments.FormatPaymentMethodIff | src/pages/Payments.jsx:238 | the label is never empty, and a non-empty method is shown raw exactly when it is not in the map |
| Payments.StatusColor | src/pages/Payments.jsx:211-224 | the four statuses get their four colours |
| Payments.StatusColorKnown | src/pages/Payments.jsx:211-224 | the grey default is used exactly for other statuses, and the four colours tell the statuses apart |
| Payments.CurrentMonth | src/pages/Payments.jsx:16-18 | two digits whose value is the month number, 1 to 12 |
| Payments.EditForm | src/pages/Payments.jsx:139-150 | the form takes the ids of tenant and house, the date parts of both dates, the notes or '', and the other fields unchanged |
| Payments.EditFormDates | src/pages/Payments.jsx:143-144 | the form's dates hold no time part and are prefixes of the stored values; a missing date is '' |
| Payments.Find | src/pages/Payments.jsx:174 | a found tenant has the id and is in the list; none is found only when no tenant has the id |
| Payments.FindFirst | src/pages/Payments.jsx:174 | the search returns the first tenant with the id |
| Payments.PaymentsPage.constructor | src/pages/Payments.jsx:52-83 | the payment form, M-Pesa form and receive form start at their defaults, with no payment selected and no house searched |
| Payments.PaymentsPage.HandleTenantChange | src/pages/Payments.jsx:173-184 | the tenant is always set; the house follows the tenant's only when the tenant is found and has one; nothing else changes |
| Payments.PaymentsPage.HandleEdit | src/pages/Payments.jsx:137-152 | the form becomes the edit form of the payment, which is selected; nothing else changes |
| Payments.PaymentsPage.ResetForm | src/pages/Payments.jsx:186-201 | the form is back at its defaults for today and no payment is selected; nothing else changes |
| Payments.PaymentsPage.HandleMpesaPayment | src/pages/Payments.jsx:312-342 | no request without house, phone and amount; otherwise the request carries them with the house number trimmed, and the form is cleared only when the push is accepted |
| Payments.PaymentsPage.HandleSearchHouse | src/pages/Payments.jsx:284-310 | a blank search does nothing; an answer with a house fills the receive form with the trimmed number, the rent or '', and the tenant's name; a failed search, or an answer whose house is missing or null (reading its rent throws), clears the result and keeps the form |
| Payments.MissingHouseIsNotFound | src/pages/Payments.jsx:292-306 | an answer without a house, with a null house, or null itself counts as not found; one with an object house as found |
| Payments.ReceivedFrom | src/pages/Payments.jsx:298-300 | a house without a tenant gives an empty name |
| Users.EditForm | src/pages/Users.jsx:59-69 | the password starts empty, the role defaults to caretaker, the active flag to true, and the profile fields are copied |
| Users.CanDeleteIff | src/pages/Users.jsx:213 | the delete button is disabled exactly for superadmins, so a caretaker can always be deleted |
| Users.UsersPage.constructor | src/pages/Users.jsx:13-26 | the modal is closed, no user is selected and the form is blank with role caretaker |
| Users.UsersPage.HandleOpenModal | src/pages/Users.jsx:56-85 | editing loads the user's form, creating loads the blank form; the user is selected and the modal opens |
| Users.UsersPage.HandleCloseModal | src/pages/Users.jsx:87-101 | the modal closes, the selection is cleared and the form is blank again |
| Users.UsersPage.HandleRoleChange | src/pages/Users.jsx:303 | choosing superadmin clears the apartment; another role keeps it; nothing else changes |
| Users.UsersPage.HandleSubmit | src/pages/Users.jsx:103-130 | an update sends every field but an empty password; a new user needs a password and sends every field; an accepted call closes the modal, a refused one or a missing password changes nothing |
| Users.EditedUserKeepsPassword | src/pages/Users.jsx:62 | editing without typing a password never sends one, and sends the role and the apartment id as loaded (also lines 109-112) |
| Expenses.EditForm | src/pages/Expenses.jsx:107-119 | the form takes the apartment, house and request ids, the expense's date part or today when it has none, and the other fields as stored |
| Expenses.Payload | src/pages/Expenses.jsx:78-83 | the saved data is the form with an empty house or maintenance request sent as null, and nothing else changed |
| Expenses.PayloadIdempotent | src/pages/Expenses.jsx:81-82 | preparing the payload twice changes nothing more |
| Expenses.EditThenSave | src/pages/Expenses.jsx:81-109 | saving an edited expense sends its house's id, or null when it had none |
| Expenses.HouseOptions | src/pages/Expenses.jsx:324-325 | every house offered belongs to the chosen apartment |
| Expenses.HouseOptionsProperties | src/pages/Expenses.jsx:324-325 | the options keep the order of the houses, are all of them with no apartment chosen, and hold a house exactly when it is listed and belongs to the apartment |
| Expenses.CategoryColor | src/pages/Expenses.jsx:160-173 | a known category gets its colour, another the colour of `other` |
| Expenses.CategoryColorFallback | src/pages/Expenses.jsx:172 | every category gets one of the nine palette colours |
| Expenses.ExpensesPage.constructor | src/pages/Expenses.jsx:16-38 | the modal is closed, no expense is selected and the form is the blank one for today |
| Expenses.ExpensesPage.HandleApartmentChange | src/pages/Expenses.jsx:308 | choosing an apartment clears the house; nothing else changes |
| Expenses.ExpensesPage.HandleEdit | src/pages/Expenses.jsx:105-121 | the form becomes the edit form of the expense, which is selected, and the modal opens |
| Expenses.ExpensesPage.ResetForm | src/pages/Expenses.jsx:143-158 | the form is blank for today and nothing is selected |
| Expenses.ExpensesPage.HandleSubmit | src/pages/Expenses.jsx:74-103 | an update of the selected expense or a creation, with the payload of the form; an accepted call closes the modal and resets the form, a refused one changes nothing |
| Js.OrText | src/pages/EquityBankTest.jsx:63-67 | a non-empty text is kept and an empty one replaced by the fallback; the result is empty only when both are |
| EquityBankTest.PaymentData | src/pages/EquityBankTest.jsx:60-68 | the account number is trimmed; a missing transaction id becomes `TEST-<now>`; a missing reference falls back to the transaction id, then to `REF-<now>`; a missing date becomes now; a missing payer the account's tenant; missing notes the test note |
| EquityBankTest.PaymentIds | src/pages/EquityBankTest.jsx:63-64 | both ids are never empty; the reference equals a typed transaction id when none was typed, and differs from the generated one |
| EquityBankTest.TestPage.constructor | src/pages/EquityBankTest.jsx:11-21 | the account is null and the form blank with the current local time |
| EquityBankTest.TestPage.HandleVerifyAccount | src/pages/EquityBankTest.jsx:23-43 | a blank account number is not looked up; otherwise the trimmed number is, the answer's data, whatever it is, replaces the account, and a failed lookup sets it to null; the form is untouched |
| EquityBankTest.TestPage.HandleTestPayment | src/pages/EquityBankTest.jsx:45-90 | nothing is sent without account number, amount and a truthy verified account; otherwise the payment data is sent, and an accepted payment resets the form but the account number |
| EquityBankTest.SpacesPassPaymentGuard | src/pages/EquityBankTest.jsx:25-56 | every non-empty all-space account number is refused by the lookup's guard, yet with an amount and a truthy verified account it passes the payment's guard and is sent trimmed to '' |
| EquityBankTest.FalsyAnswerRefusesPayment | src/pages/EquityBankTest.jsx:53-56 | a verify answer of null, undefined, '' or 0 keeps the payment refused |
| PaybillConfig.MenuName | src/pages/PaybillConfig.jsx:64 | M-Pesa for `mpesa`, the provider in capitals otherwise, as long as the provider; empty only for an empty provider |
| PaybillConfig.BusinessNumber | src/pages/PaybillConfig.jsx:66 | the paybill number, or the placeholder while none is set, so never empty |
| PaybillConfig.InstructionsEmbed | src/pages/PaybillConfig.jsx:62-72 | the instructions name the provider in capitals right after the opening words and contain the business number at its step, so a set paybill number always appears in them |
| PaybillConfig.InstructionsNameMenu | src/pages/PaybillConfig.jsx:62-72 | the menu step names the provider's menu (M-Pesa for `mpesa`) at its fixed position |
| PaybillConfig.PaybillPage.constructor | src/pages/PaybillConfig.jsx:9-28 | the default configuration (no paybill number, M-Pesa, the system's name) and empty test data |
| PaybillConfig.PaybillPage.GenerateInstructions | src/pages/PaybillConfig.jsx:61-75 | only the payment instructions change, to the text generated from the configuration |
| PaybillConfig.PaybillPage.HandleTestPaybill | src/pages/PaybillConfig.jsx:77-104 | nothing is sent without account number and amount; otherwise the payment carries the paybill number, a typed or `TEST-<now>` transaction id, and the fixed method and note; the test data is cleared only by an answer naming a tenant, since reading `tenant.name` throws otherwise |
| PaybillConfig.AnswerWithoutTenantKeepsForm | src/pages/PaybillConfig.jsx:96-100 | an answer without a tenant, with a null tenant, or null itself does not clear the form; one with a tenant object does |

## Left out

- JSX rendering, CSS classes, modals, toasts, loading flags and spinners: presentation with no stated behaviour. A redirect or a navigation is modelled as an output value.
- Layout's `handleResize` and `toggleSidebar`: they only flip the collapsed and mobile flags from the window width, a browser input.
- Presentation-only files are not part of this model: ConfirmModal, LoadingSpinner, SearchBar, GenerateRentModal, the Apartments and Login pages, the Maintenance page (colour lookups and form plumbing) and the chart wrappers. OccupancyChart's percentage also depends on float `toFixed`.
- The server-side rent generation, late-fee, overdue, ledger and payment-matching rules do not run in this code. The console only shows the `deficit`, `carriedForward` and `lateFee` the server computes.
- The `fetchData`/`fetchConfig`/`fetchUsers` loaders, the delete confirmations and the configuration save: each stores one server response or sends one request, with no logic to state.
- The fixed API endpoint wrappers in api.js, which only name URLs. Only the conditional URL builders are modelled.
- axios transport, `Promise.all` fan-out and the `setTimeout` refresh delays: concurrency and timing are out of scope. Each call is an abstract success or failure.
- `parseFloat`, `parseInt` and floating point. Amounts are integers and are taken as already parsed. The amount text of the M-Pesa, Equity Bank and paybill payloads is kept as typed. In `ApartmentDetail.EmptyHouseForm` the rent is 0 where the source starts with ''.
- Validation.GetFieldError: the number and date rules (src/utils/validation.js:64-81), and with them `validateNumber`/`validateDate`, are not modelled, because they rest on `parseFloat` and `Date` parsing. The model's rule set covers required, min/max length, e-mail and phone.
- `Date` parsing, time zones and `Date.now()`. Dates are numeric timestamps or ISO text, and the current time, today and the month are parameters. A handler that reads `Date.now()` twice, as the Equity Bank payment does for its two generated ids, is given one value for both.
- `toLocaleString`, `toLocaleDateString`, `toISOString` and `localeCompare` are locale formatting with no fixed semantics. They are passed in as functions, or left out where only the order matters: the unit sort on the apartment page (src/pages/ApartmentDetail.jsx:296) is not modelled. The relative-date text of ActivityLogs' `formatDate` past seven days, and its `formatFullDate`, are the locale date.
- Case mapping is ASCII only, and strings are sequences of characters rather than UTF-16 code units. `trim` removes a fixed set of whitespace characters.
- `JSON.stringify` and `URLSearchParams` encoding are opaque: a function parameter, and a query string taken as given.
- jsPDF drawing, the XLSX and CSV writers and file saving are foreign libraries. Receipt drawing beyond the amount table is not modelled, nor are the sheet contents. The model keeps the values computed for them: rows, heads, titles and file names.
- ActivityLogs' `getActionIcon`, `getActionColor` and `exportLogs`: constant lookups and the same export call as the reports.
- Lookups in `methodMap`, the category colour table and the receipt colour map are plain maps, so keys inherited from `Object.prototype` (such as `constructor`) are not modelled.
- Auth.AuthSession.CanAccessApartment: for a caretaker with an apartment it requires an id other than null or undefined, because there the source throws on `toString`; for every other user any id is accepted.
- Payments.PaymentsPage.HandleEdit: requires a tenant and a house, where the source would throw reading `_id` of null.
- Expenses.ExpensesPage.HandleEdit: requires an apartment, where the source would throw reading `_id` of null.
- Reports.Prepared: a balance whose tenant is null, or a ledger without a tenant (src/pages/Reports.jsx:183-184 reads `tenantLedger.tenant.name`), would throw in the source. The model reads the missing names as `undefined` instead, so its ledger file is named `tenant-ledger-undefined`.
- Reports.ExportReport: the tab is the `Tab` datatype, so the source's unreachable case of an unknown tab (an empty 'report') is not modelled.
- UseTable.SortedIsPermutation: the sort is an explicit stable insertion sort, but stability is not stated. Order is proved only when the sort values are consistently dates or consistently not (`UseTable.SortedInOrder`), because mixed keys give an inconsistent comparator.
