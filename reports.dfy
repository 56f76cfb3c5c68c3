/**
 * The reports page: which report each tab fetches and with which parameters,
 * the rows each report is exported as, and the column headings of a PDF
 * export, which are derived from the row keys.
 */
module Reports {
  import opened Js
  import Api
  import Export

  /** The page's tabs. */
  datatype Tab = Income | Outstanding | Revenue | Ledger

  /** A report request: the endpoint and its query parameters. */
  datatype Fetch = Fetch(endpoint: Api.QueryEndpoint, params: map<string, string>)

  /** The date-range parameters, each present only when it is set. */
  method DateParams(startDate: string, endDate: string) returns (params: map<string, string>)
    ensures "startDate" in params <==> startDate != ""
    ensures "endDate" in params <==> endDate != ""
    ensures "startDate" in params ==> params["startDate"] == startDate
    ensures "endDate" in params ==> params["endDate"] == endDate
    ensures forall k :: k in params ==> k == "startDate" || k == "endDate"
  {
    params := map[];
    if startDate != "" {
      params := params["startDate" := startDate];
    }
    if endDate != "" {
      params := params["endDate" := endDate];
    }
  }

  /** The income statement's parameters: the date range and, when one is chosen, the apartment. */
  method IncomeParams(startDate: string, endDate: string, selectedApartment: string) returns (params: map<string, string>)
    ensures "startDate" in params <==> startDate != ""
    ensures "endDate" in params <==> endDate != ""
    ensures "apartmentId" in params <==> selectedApartment != ""
    ensures "startDate" in params ==> params["startDate"] == startDate
    ensures "endDate" in params ==> params["endDate"] == endDate
    ensures "apartmentId" in params ==> params["apartmentId"] == selectedApartment
    ensures forall k :: k in params ==> k == "startDate" || k == "endDate" || k == "apartmentId"
  {
    params := DateParams(startDate, endDate);
    if selectedApartment != "" {
      params := params["apartmentId" := selectedApartment];
    }
  }

  /**
   * The request made when the tab or a selection changes. Every tab fetches
   * except the ledger without a chosen tenant; the outstanding balances take
   * no parameters and only the income statement is filtered by apartment.
   */
  method FetchFor(tab: Tab, selectedTenant: string, selectedApartment: string, startDate: string, endDate: string)
    returns (fetch: Option<Fetch>)
    ensures fetch.None? <==> tab == Ledger && selectedTenant == ""
    ensures tab == Income ==> fetch.Some? && fetch.value.endpoint == Api.IncomeStatement
    ensures tab == Outstanding ==> fetch == Some(Fetch(Api.OutstandingBalances, map[]))
    ensures tab == Revenue ==> fetch.Some? && fetch.value.endpoint == Api.RevenueByApartment &&
                               "apartmentId" !in fetch.value.params
    ensures tab == Ledger && fetch.Some? ==> fetch.value.endpoint == Api.TenantLedger(selectedTenant) &&
                                             "apartmentId" !in fetch.value.params
    ensures fetch.Some? && tab != Outstanding ==>
              ("startDate" in fetch.value.params <==> startDate != "") && ("endDate" in fetch.value.params <==> endDate != "")
  {
    match tab {
      case Income =>
        var params := IncomeParams(startDate, endDate, selectedApartment);
        fetch := Some(Fetch(Api.IncomeStatement, params));
      case Outstanding =>
        fetch := Some(Fetch(Api.OutstandingBalances, map[]));
      case Revenue =>
        var params := DateParams(startDate, endDate);
        fetch := Some(Fetch(Api.RevenueByApartment, params));
      case Ledger =>
        if selectedTenant == "" {
          fetch := None;
        } else {
          var params := DateParams(startDate, endDate);
          fetch := Some(Fetch(Api.TenantLedger(selectedTenant), params));
        }
    }
  }

  // ------------------------------------------------------------ report data

  datatype IncomeStatement = IncomeStatement(revenueTotal: JsVal, expensesTotal: JsVal, netIncome: JsVal)
  datatype Balance = Balance(tenant: JsVal, apartment: JsVal, house: JsVal, currentBalance: JsVal)
  datatype ApartmentRevenue = ApartmentRevenue(apartmentName: JsVal, revenue: JsVal, lateFees: JsVal, total: JsVal,
                                               paymentCount: JsVal, tenantCount: JsVal)
  datatype LedgerPayment = LedgerPayment(paymentDate: JsVal, expectedAmount: JsVal, amount: JsVal, paidAmount: JsVal,
                                         deficit: JsVal, lateFee: JsVal, status: JsVal, paymentMethod: JsVal)

  /** The fetched reports; `None` until a report has been received. */
  datatype Loaded = Loaded(
    income: Option<IncomeStatement>,
    balances: Option<seq<Balance>>,
    revenue: Option<seq<ApartmentRevenue>>,
    ledger: Option<(JsVal, seq<LedgerPayment>)>)

  /** Whether the active tab's report has been received. */
  predicate HasData(tab: Tab, d: Loaded) {
    match tab
    case Income => d.income.Some?
    case Outstanding => d.balances.Some?
    case Revenue => d.revenue.Some?
    case Ledger => d.ledger.Some?
  }

  /** The rows a report is exported as. */
  function RowCount(tab: Tab, d: Loaded): nat
    requires HasData(tab, d)
  {
    match tab
    case Income => 3
    case Outstanding => |d.balances.value|
    case Revenue => |d.revenue.value|
    case Ledger => |d.ledger.value.1|
  }

  /** A row of an export: its keys in insertion order with their values. */
  type Row = seq<(string, JsVal)>

  /** `formatCurrency`: 'KSh ' and the locale text of the amount, 0 when it is falsy. */
  function Currency(amount: JsVal, localeNumber: JsVal -> string): JsVal {
    Str("KSh " + localeNumber(Or(amount, Num(0))))
  }

  function IncomeRows(s: IncomeStatement, localeNumber: JsVal -> string): seq<Row> {
    [[("label", Str("Revenue")), ("value", Currency(s.revenueTotal, localeNumber))],
     [("label", Str("Expenses")), ("value", Currency(s.expensesTotal, localeNumber))],
     [("label", Str("Net Income")), ("value", Currency(s.netIncome, localeNumber))]]
  }

  function BalanceRow(b: Balance, localeNumber: JsVal -> string): Row {
    [("Tenant", Str(ToStr(Get(b.tenant, "firstName")) + " " + ToStr(Get(b.tenant, "lastName")))),
     ("Apartment", Or(Get(b.apartment, "name"), Str("N/A"))),
     ("House", Or(Get(b.house, "houseNumber"), Str("N/A"))),
     ("Outstanding Balance", Currency(b.currentBalance, localeNumber))]
  }

  function RevenueRow(a: ApartmentRevenue, localeNumber: JsVal -> string): Row {
    [("Apartment", a.apartmentName),
     ("Revenue", Currency(a.revenue, localeNumber)),
     ("Late Fees", Currency(a.lateFees, localeNumber)),
     ("Total", Currency(a.total, localeNumber)),
     ("Payments", a.paymentCount),
     ("Tenants", a.tenantCount)]
  }

  function LedgerRow(p: LedgerPayment, localeNumber: JsVal -> string, localeDate: JsVal -> string): Row {
    [("Date", Str(localeDate(p.paymentDate))),
     ("Expected", Currency(Or(p.expectedAmount, p.amount), localeNumber)),
     ("Paid", Currency(Or(p.paidAmount, p.amount), localeNumber)),
     ("Deficit", Currency(Or(p.deficit, Num(0)), localeNumber)),
     ("Late Fee", Currency(Or(p.lateFee, Num(0)), localeNumber)),
     ("Status", p.status),
     ("Method", p.paymentMethod)]
  }

  /** The export's data, base file name and title for the active tab. */
  function Prepared(tab: Tab, d: Loaded, localeNumber: JsVal -> string, localeDate: JsVal -> string): (r: (seq<Row>, string, string))
    requires HasData(tab, d)
    ensures |r.0| == RowCount(tab, d)
  {
    match tab
    case Income => (IncomeRows(d.income.value, localeNumber), "income-statement", "Income Statement")
    case Outstanding =>
      (seq(|d.balances.value|, i requires 0 <= i < |d.balances.value| => BalanceRow(d.balances.value[i], localeNumber)),
       "outstanding-balances", "Outstanding Balances")
    case Revenue =>
      (seq(|d.revenue.value|, i requires 0 <= i < |d.revenue.value| => RevenueRow(d.revenue.value[i], localeNumber)),
       "revenue-by-apartment", "Revenue by Apartment")
    case Ledger =>
      var (tenant, payments) := d.ledger.value;
      (seq(|payments|, i requires 0 <= i < |payments| => LedgerRow(payments[i], localeNumber, localeDate)),
       "tenant-ledger-" + ToStr(Get(tenant, "name")), "Tenant Ledger - " + ToStr(Get(tenant, "name")))
  }

  /** The keys of a row, in order. */
  function Keys(r: Row): (ks: seq<string>)
    ensures |ks| == |r| && forall j :: 0 <= j < |r| ==> ks[j] == r[j].0
  {
    if r == [] then [] else [r[0].0] + Keys(r[1..])
  }

  /**
   * Every row of one report has the same keys, in a fixed order: they become
   * the columns of the export, and for the balances they are the four
   * columns of the table on screen.
   */
  lemma RowKeys(tab: Tab, d: Loaded, localeNumber: JsVal -> string, localeDate: JsVal -> string, i: nat)
    requires HasData(tab, d) && i < RowCount(tab, d)
    ensures var rows := Prepared(tab, d, localeNumber, localeDate).0;
            tab == Income ==> Keys(rows[i]) == ["label", "value"]
    ensures var rows := Prepared(tab, d, localeNumber, localeDate).0;
            tab == Outstanding ==> Keys(rows[i]) == ["Tenant", "Apartment", "House", "Outstanding Balance"]
    ensures var rows := Prepared(tab, d, localeNumber, localeDate).0;
            tab == Revenue ==> Keys(rows[i]) == ["Apartment", "Revenue", "Late Fees", "Total", "Payments", "Tenants"]
    ensures var rows := Prepared(tab, d, localeNumber, localeDate).0;
            tab == Ledger ==> Keys(rows[i]) == ["Date", "Expected", "Paid", "Deficit", "Late Fee", "Status", "Method"]
  {
    var rows := Prepared(tab, d, localeNumber, localeDate).0;
    var ks := Keys(rows[i]);
    match tab
    case Income =>
      assert ks == [ks[0], ks[1]];
    case Outstanding =>
      assert rows[i] == BalanceRow(d.balances.value[i], localeNumber);
      FourKeys(rows[i]);
    case Revenue =>
      assert rows[i] == RevenueRow(d.revenue.value[i], localeNumber);
      SixKeys(rows[i]);
    case Ledger =>
      assert rows[i] == LedgerRow(d.ledger.value.1[i], localeNumber, localeDate);
      SevenKeys(rows[i]);
  }

  lemma FourKeys(r: Row)
    requires |r| == 4
    ensures Keys(r) == [r[0].0, r[1].0, r[2].0, r[3].0]
  {
  }

  lemma SixKeys(r: Row)
    requires |r| == 6
    ensures Keys(r) == [r[0].0, r[1].0, r[2].0, r[3].0, r[4].0, r[5].0]
  {
  }

  lemma SevenKeys(r: Row)
    requires |r| == 7
    ensures Keys(r) == [r[0].0, r[1].0, r[2].0, r[3].0, r[4].0, r[5].0, r[6].0]
  {
  }

  // ------------------------------------------------------------ the label transform

  /** The number of ASCII capitals in `s`. */
  function Capitals(s: string): nat {
    if s == [] then 0 else Capitals(s[..|s| - 1]) + (if IsUpperAscii(s[|s| - 1]) then 1 else 0)
  }

  /** `s.replace(/([A-Z])/g, ' $1')`: a space before every ASCII capital. */
  function SpaceCapitals(s: string): string {
    if s == [] then [] else SpaceCapitals(s[..|s| - 1]) + (if IsUpperAscii(s[|s| - 1]) then [' ', s[|s| - 1]] else [s[|s| - 1]])
  }

  /** The PDF heading of a key: the first character in capitals and a space before every capital after it. */
  function PdfLabel(key: string): string {
    if key == "" then "" else [UpperChar(key[0])] + SpaceCapitals(key[1..])
  }

  /** Each capital after the first character adds one space. */
  lemma {:induction false} SpaceCapitalsLength(s: string)
    ensures |SpaceCapitals(s)| == |s| + Capitals(s)
  {
    if s != [] {
      SpaceCapitalsLength(s[..|s| - 1]);
    }
  }

  lemma PdfLabelLength(key: string)
    ensures key != "" ==> |PdfLabel(key)| == |key| + Capitals(key[1..])
    ensures key == "" ==> PdfLabel(key) == ""
  {
    if key != "" {
      SpaceCapitalsLength(key[1..]);
    }
  }

  /** Text without capitals is left as it is. */
  lemma {:induction false} SpaceCapitalsNoCapitals(s: string)
    requires forall i :: 0 <= i < |s| ==> !IsUpperAscii(s[i])
    ensures SpaceCapitals(s) == s
  {
    if s != [] {
      SpaceCapitalsNoCapitals(s[..|s| - 1]);
    }
  }

  /** Spacing works piece by piece. */
  lemma {:induction false} SpaceCapitalsConcat(a: string, b: string)
    ensures SpaceCapitals(a + b) == SpaceCapitals(a) + SpaceCapitals(b)
    decreases |b|
  {
    if b != [] {
      var init, c := b[..|b| - 1], b[|b| - 1];
      assert (a + b)[..|a + b| - 1] == a + init;
      assert (a + b)[|a + b| - 1] == c;
      SpaceCapitalsConcat(a, init);
      var tail := if IsUpperAscii(c) then [' ', c] else [c];
      assert SpaceCapitals(b) == SpaceCapitals(init) + tail;
      assert SpaceCapitals(a + b) == SpaceCapitals(a + init) + tail;
    } else {
      assert a + b == a;
    }
  }

  /**
   * A key that already has a space before a capital, such as 'Late Fee' or
   * 'Outstanding Balance', gets a heading with two spaces there.
   */
  lemma DoubleSpace(a: string, c: char, b: string)
    requires IsUpperAscii(c)
    ensures SpaceCapitals(a + [' ', c] + b) == SpaceCapitals(a) + [' ', ' ', c] + SpaceCapitals(b)
  {
    SpaceCapitalsConcat(a + [' ', c], b);
    SpaceCapitalsConcat(a, [' ', c]);
    SpaceThenCapital(c);
  }

  lemma SpaceThenCapital(c: char)
    requires IsUpperAscii(c)
    ensures SpaceCapitals([' ', c]) == [' ', ' ', c]
  {
    assert [' ', c][..1] == [' '];
    assert [' '][..0] == [];
    assert SpaceCapitals([' ']) == [' '];
  }

  /** Removing the space put before each capital gives back the text. */
  function DropSpaceBeforeCapitals(s: string): string
    decreases |s|
  {
    if s == [] then []
    else if |s| >= 2 && s[|s| - 2] == ' ' && IsUpperAscii(s[|s| - 1]) then DropSpaceBeforeCapitals(s[..|s| - 2]) + [s[|s| - 1]]
    else DropSpaceBeforeCapitals(s[..|s| - 1]) + [s[|s| - 1]]
  }

  lemma DropAfterCapital(t: string, c: char)
    requires IsUpperAscii(c)
    ensures DropSpaceBeforeCapitals(t + [' ', c]) == DropSpaceBeforeCapitals(t) + [c]
  {
    assert (t + [' ', c])[..|t| + 2 - 2] == t;
  }

  lemma DropAfterOther(t: string, c: char)
    requires !IsUpperAscii(c)
    ensures DropSpaceBeforeCapitals(t + [c]) == DropSpaceBeforeCapitals(t) + [c]
  {
    assert (t + [c])[..|t| + 1 - 1] == t;
  }

  /** Spacing capitals can always be undone, even where the text already had a space before a capital. */
  lemma {:induction false} SpaceCapitalsInverse(s: string)
    ensures DropSpaceBeforeCapitals(SpaceCapitals(s)) == s
  {
    if s != [] {
      var init, c := s[..|s| - 1], s[|s| - 1];
      SpaceCapitalsInverse(init);
      if IsUpperAscii(c) {
        DropAfterCapital(SpaceCapitals(init), c);
      } else {
        DropAfterOther(SpaceCapitals(init), c);
      }
      assert init + [c] == s;
    }
  }

  // ------------------------------------------------------------ exporting

  /** What an export hands to the file writers. */
  datatype Job =
    | PdfJob(doc: Export.PdfDocument)
    | ExcelJob(rows: seq<Row>, filename: string)
    | CsvJob(rows: seq<Row>, filename: string)

  /** A row as the object the export functions read. */
  function RowObject(row: Row): JsVal {
    Obj(RowFields(row))
  }

  /** The properties of an object literal; a later key overrides an earlier one. */
  function RowFields(row: Row): map<string, JsVal> {
    if row == [] then map[] else RowFields(row[..|row| - 1])[row[|row| - 1].0 := row[|row| - 1].1]
  }

  /** The PDF columns: one per key of the first row, headed by its label; none for an empty export. */
  function PdfColumns(rows: seq<Row>): (cs: seq<Export.Column>)
    ensures |cs| == (if rows == [] then 0 else |rows[0]|)
    ensures forall j :: 0 <= j < |cs| ==> cs[j].key == rows[0][j].0 && cs[j].heading == PdfLabel(rows[0][j].0) && cs[j].format.None?
  {
    if rows == [] then []
    else seq(|rows[0]|, j requires 0 <= j < |rows[0]| => Export.Column(rows[0][j].0, PdfLabel(rows[0][j].0), None))
  }

  /**
   * `exportReport(format)`: nothing when the active tab's report has not been
   * received or the format is not one of 'pdf', 'excel' and 'csv'; otherwise
   * the report's rows, under the tab's file name, in that format.
   */
  method ExportReport(format: string, tab: Tab, d: Loaded, today: string,
                      localeNumber: JsVal -> string, localeDate: JsVal -> string, stringify: JsVal -> string)
    returns (job: Option<Job>)
    ensures job.None? <==> !HasData(tab, d) || (format != "pdf" && format != "excel" && format != "csv")
    ensures job.Some? ==> HasData(tab, d)
    ensures job.Some? && format == "pdf" ==>
              job.value.PdfJob? && |job.value.doc.body| == RowCount(tab, d) &&
              job.value.doc.filename == Prepared(tab, d, localeNumber, localeDate).1 + ".pdf" &&
              job.value.doc.title == Prepared(tab, d, localeNumber, localeDate).2 &&
              job.value.doc.head == Export.Head(PdfColumns(Prepared(tab, d, localeNumber, localeDate).0))
    ensures job.Some? && format == "excel" ==> job.value == ExcelJob(Prepared(tab, d, localeNumber, localeDate).0,
                                                                   Prepared(tab, d, localeNumber, localeDate).1 + ".xlsx")
    ensures job.Some? && format == "csv" ==> job.value == CsvJob(Prepared(tab, d, localeNumber, localeDate).0,
                                                               Prepared(tab, d, localeNumber, localeDate).1 + ".csv")
  {
    if !HasData(tab, d) {
      return None;
    }
    var data: seq<Row>, filename: string, title: string;
    data, filename, title := [], "report", "Report";
    var prepared := Prepared(tab, d, localeNumber, localeDate);
    data, filename, title := prepared.0, prepared.1, prepared.2;
    if format == "pdf" {
      var columns := PdfColumns(data);
      var objects := seq(|data|, i requires 0 <= i < |data| => RowObject(data[i]));
      job := Some(PdfJob(Export.ExportToPdf(objects, columns, title, Some(filename), today, stringify)));
    } else if format == "excel" {
      job := Some(ExcelJob(data, Export.FileName(Some(filename), "export", Export.Excel)));
    } else if format == "csv" {
      job := Some(CsvJob(data, Export.FileName(Some(filename), "export", Export.Csv)));
    } else {
      job := None;
    }
  }
}
