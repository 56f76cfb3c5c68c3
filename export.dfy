/**
 * Shaping a list of records into the table of a PDF export, and the file
 * names of the spreadsheet, CSV and PDF exports. Writing the files is done by
 * foreign libraries and is not modelled.
 */
module Export {
  import opened Js

  /**
   * A table column: the record property it shows, its heading and an
   * optional formatter. A formatter may return any value, not only text.
   */
  datatype Column = Column(key: string, heading: string, format: Option<JsVal -> JsVal>)

  /** How the table library prints a cell's content: null and undefined blank, anything else as `String` gives it. */
  function Printed(v: JsVal): (r: string)
    ensures v == Null || v == Undef ==> r == ""
    ensures v.Str? ==> r == v.s
  {
    if v == Null || v == Undef then "" else ToStr(v)
  }

  /**
   * The text of one cell. Null and undefined are empty whatever the column;
   * otherwise the formatter decides, and without one an object is given to
   * `stringify` (`JSON.stringify`) and anything else to `String`.
   */
  function Cell(row: JsVal, col: Column, stringify: JsVal -> string): (r: string)
    ensures Get(row, col.key) == Null || Get(row, col.key) == Undef ==> r == ""
    ensures Get(row, col.key) != Null && Get(row, col.key) != Undef && col.format.Some? ==> r == Printed(col.format.value(Get(row, col.key)))
    ensures col.format.None? && Get(row, col.key).Obj? ==> r == stringify(Get(row, col.key))
    ensures col.format.None? && Get(row, col.key) !in {Null, Undef} && !Get(row, col.key).Obj? ==> r == ToStr(Get(row, col.key))
  {
    var value := Get(row, col.key);
    if value == Null || value == Undef then ""
    else if value.Obj? then
      if col.format.Some? then Printed(col.format.value(value)) else stringify(value)
    else if col.format.Some? then Printed(col.format.value(value))
    else ToStr(value)
  }

  /** `tableData`: one row per record, one cell per column. */
  function TableData(data: seq<JsVal>, columns: seq<Column>, stringify: JsVal -> string): (r: seq<seq<string>>)
    ensures |r| == |data|
    ensures forall i :: 0 <= i < |r| ==> |r[i]| == |columns|
  {
    seq(|data|, i requires 0 <= i < |data| => seq(|columns|, j requires 0 <= j < |columns| => Cell(data[i], columns[j], stringify)))
  }

  /** Each cell of the table is its record's value in that column, in column order. */
  lemma TableCells(data: seq<JsVal>, columns: seq<Column>, stringify: JsVal -> string, i: nat, j: nat)
    requires i < |data| && j < |columns|
    ensures TableData(data, columns, stringify)[i][j] == Cell(data[i], columns[j], stringify)
  {
  }

  /** Tables of two lists of records, one after the other, are the table of the joined list. */
  lemma TableConcat(a: seq<JsVal>, b: seq<JsVal>, columns: seq<Column>, stringify: JsVal -> string)
    ensures TableData(a + b, columns, stringify) == TableData(a, columns, stringify) + TableData(b, columns, stringify)
  {
    var t := TableData(a + b, columns, stringify);
    var u := TableData(a, columns, stringify) + TableData(b, columns, stringify);
    forall i | 0 <= i < |t|
      ensures t[i] == u[i]
    {
      if i < |a| {
        assert (a + b)[i] == a[i];
      } else {
        assert (a + b)[i] == b[i - |a|];
      }
    }
  }

  /** The header row: the column headings in order. */
  function Head(columns: seq<Column>): (r: seq<string>)
    ensures |r| == |columns|
    ensures forall j :: 0 <= j < |r| ==> r[j] == columns[j].heading
  {
    if columns == [] then [] else Head(columns[..|columns| - 1]) + [columns[|columns| - 1].heading]
  }

  /** The base name an export is saved under: the one given, else 'export'. */
  function BaseName(filename: Option<string>, default: string): string {
    if filename.Some? then filename.value else default
  }

  /** The three file formats an export can be written in. */
  datatype Format = Excel | Csv | Pdf

  /** The extension `exportToExcel`, `exportToCSV` and `exportToPDF` append. */
  function Extension(format: Format): string {
    match format
    case Excel => ".xlsx"
    case Csv => ".csv"
    case Pdf => ".pdf"
  }

  /** The file an export is saved under: the base name, then the format's extension. */
  function FileName(filename: Option<string>, default: string, format: Format): (r: string)
    ensures var b := BaseName(filename, default);
            |r| == |b| + |Extension(format)| && r[..|b|] == b && r[|b|..] == Extension(format)
  {
    BaseName(filename, default) + Extension(format)
  }

  /** Two formats never share a file name for the same base name. */
  lemma NamesDistinct(filename: Option<string>, default: string, f: Format, g: Format)
    requires f != g
    ensures FileName(filename, default, f) != FileName(filename, default, g)
  {
    var b := BaseName(filename, default);
    assert FileName(filename, default, f)[|b| + 1] == Extension(f)[1];
    assert FileName(filename, default, g)[|b| + 1] == Extension(g)[1];
  }

  /** What `exportToPDF` hands to the PDF library. */
  datatype PdfDocument = PdfDocument(title: string, generated: string, head: seq<string>, body: seq<seq<string>>, filename: string)

  /** `exportToPDF`; `today` is the locale date text of the moment of export. */
  function ExportToPdf(data: seq<JsVal>, columns: seq<Column>, title: string, filename: Option<string>,
                       today: string, stringify: JsVal -> string): (d: PdfDocument)
    ensures d.head == Head(columns) && |d.body| == |data|
    ensures forall i :: 0 <= i < |d.body| ==> |d.body[i]| == |d.head|
    ensures d.filename == BaseName(filename, "export") + ".pdf"
  {
    PdfDocument(title, "Generated: " + today, Head(columns), TableData(data, columns, stringify), FileName(filename, "export", Pdf))
  }

  /** `${val.firstName} ${val.lastName}`; a missing part prints as 'undefined'. */
  function FullName(v: JsVal): string {
    ToStr(Get(v, "firstName")) + " " + ToStr(Get(v, "lastName"))
  }

  /** The columns of the payments report; `localeDate` and `localeNumber` are the browser's locale formatting. */
  function PaymentColumns(localeDate: JsVal -> string, localeNumber: JsVal -> string): seq<Column> {
    [Column("paymentDate", "Date", Some((v: JsVal) => Str(if Truthy(v) then localeDate(v) else ""))),
     Column("tenant", "Tenant", Some((v: JsVal) => Str(if Truthy(v) then FullName(v) else "N/A"))),
     Column("house", "House", Some((v: JsVal) => if Truthy(v) then Get(v, "houseNumber") else Str("N/A"))),
     Column("amount", "Amount", Some((v: JsVal) => Str("KSh " + localeNumber(Or(v, Num(0)))))),
     Column("status", "Status", None),
     Column("paymentMethod", "Method", None)]
  }

  /** The payments report has exactly six columns: date, tenant, house, amount, status and method, the last two unformatted. */
  lemma PaymentColumnsShape(localeDate: JsVal -> string, localeNumber: JsVal -> string)
    ensures var cs := PaymentColumns(localeDate, localeNumber);
            |cs| == 6 &&
            Head(cs) == ["Date", "Tenant", "House", "Amount", "Status", "Method"] &&
            [cs[0].key, cs[1].key, cs[2].key, cs[3].key, cs[4].key, cs[5].key] ==
              ["paymentDate", "tenant", "house", "amount", "status", "paymentMethod"] &&
            cs[4].format.None? && cs[5].format.None?
  {
    var cs := PaymentColumns(localeDate, localeNumber);
    assert Head(cs) == [cs[0].heading, cs[1].heading, cs[2].heading, cs[3].heading, cs[4].heading, cs[5].heading];
  }

  /** `exportPaymentsToPDF` */
  function ExportPaymentsToPdf(payments: seq<JsVal>, filename: Option<string>, today: string, stringify: JsVal -> string,
                               localeDate: JsVal -> string, localeNumber: JsVal -> string): (d: PdfDocument)
    ensures d.title == "Payments Report"
    ensures d.filename == BaseName(filename, "payments-report") + ".pdf"
    ensures |d.body| == |payments| && forall i :: 0 <= i < |d.body| ==> |d.body[i]| == 6
  {
    var d := ExportToPdf(payments, PaymentColumns(localeDate, localeNumber), "Payments Report", Some(BaseName(filename, "payments-report")), today, stringify);
    d
  }

  /**
   * The null test comes before the formatter: a payment without a tenant
   * shows an empty tenant cell rather than 'N/A', while its amount cell shows
   * 'KSh ' and the locale text of 0 for a zero amount.
   */
  lemma PaymentCells(payment: JsVal, localeDate: JsVal -> string, localeNumber: JsVal -> string, stringify: JsVal -> string)
    ensures var cs := PaymentColumns(localeDate, localeNumber);
            Get(payment, "tenant") == Undef ==> Cell(payment, cs[1], stringify) == ""
    ensures var cs := PaymentColumns(localeDate, localeNumber);
            Get(payment, "amount") == Num(0) ==> Cell(payment, cs[3], stringify) == "KSh " + localeNumber(Num(0))
    ensures var cs := PaymentColumns(localeDate, localeNumber);
            Get(payment, "tenant").Obj? ==> Cell(payment, cs[1], stringify) == FullName(Get(payment, "tenant"))
  {
    var cs := PaymentColumns(localeDate, localeNumber);
    if Get(payment, "amount") == Num(0) {
      assert cs[3].format.value(Num(0)) == Str("KSh " + localeNumber(Or(Num(0), Num(0))));
    }
  }

  /**
   * The house formatter hands back the raw `houseNumber`: a house given as a
   * bare id (which has no such property) prints blank, a house object prints
   * its number, and an empty house prints the fallback, in both reports.
   */
  lemma HouseCells(row: JsVal, localeDate: JsVal -> string, localeNumber: JsVal -> string, stringify: JsVal -> string)
    ensures var h := Get(row, "house");
            Truthy(h) && !h.Obj? ==>
              Cell(row, PaymentColumns(localeDate, localeNumber)[2], stringify) == "" &&
              Cell(row, TenantColumns()[4], stringify) == ""
    ensures var h := Get(row, "house");
            h.Obj? && Get(h, "houseNumber").Str? ==>
              Cell(row, PaymentColumns(localeDate, localeNumber)[2], stringify) == Get(h, "houseNumber").s &&
              Cell(row, TenantColumns()[4], stringify) == Get(h, "houseNumber").s
    ensures Get(row, "house") == Str("") ==>
              Cell(row, PaymentColumns(localeDate, localeNumber)[2], stringify) == "N/A" &&
              Cell(row, TenantColumns()[4], stringify) == "Not Assigned"
  {
  }

  /** The columns of the tenants report. */
  function TenantColumns(): seq<Column> {
    [Column("firstName", "First Name", None),
     Column("lastName", "Last Name", None),
     Column("email", "Email", None),
     Column("phone", "Phone", None),
     Column("house", "House", Some((v: JsVal) => if Truthy(v) then Get(v, "houseNumber") else Str("Not Assigned"))),
     Column("status", "Status", None)]
  }

  /** `exportTenantsToPDF` */
  function ExportTenantsToPdf(tenants: seq<JsVal>, filename: Option<string>, today: string, stringify: JsVal -> string): (d: PdfDocument)
    ensures d.title == "Tenants Report"
    ensures d.filename == BaseName(filename, "tenants-report") + ".pdf"
    ensures d.head == ["First Name", "Last Name", "Email", "Phone", "House", "Status"]
    ensures |d.body| == |tenants| && forall i :: 0 <= i < |d.body| ==> |d.body[i]| == 6
  {
    var cs := TenantColumns();
    assert Head(cs) == [cs[0].heading, cs[1].heading, cs[2].heading, cs[3].heading, cs[4].heading, cs[5].heading];
    ExportToPdf(tenants, cs, "Tenants Report", Some(BaseName(filename, "tenants-report")), today, stringify)
  }
}
