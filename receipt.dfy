/**
 * The values printed on a payment receipt and the receipt's file name. The
 * page layout itself is drawing and is not modelled.
 */
module Receipt {
  import opened Js
  import opened Records

  /** The receipt number: the stored one, or 'REC-' and the last eight characters of the id in capitals. */
  function ReceiptNumber(p: Payment): (r: string)
    ensures p.receiptNumber != "" ==> r == p.receiptNumber
    ensures p.receiptNumber == "" ==> r == "REC-" + Upper(LastN(p.id, 8))
  {
    OrText(p.receiptNumber, "REC-" + Upper(LastN(p.id, 8)))
  }

  /** A generated number is 'REC-' and at most eight characters, none of them a lowercase letter. */
  lemma GeneratedNumberShape(p: Payment)
    requires p.receiptNumber == ""
    ensures var r := ReceiptNumber(p);
            |r| == 4 + (if |p.id| < 8 then |p.id| else 8) && r[..4] == "REC-" &&
            forall i :: 4 <= i < |r| ==> !IsLowerAscii(r[i])
  {
  }

  /** `expectedAmount || amount || 0` */
  function ExpectedAmount(p: Payment): int {
    OrAmount(p.expectedAmount, p.amount)
  }

  /** The total paid: what was paid and the late fee. */
  function TotalPaid(p: Payment): (r: int)
    ensures p.lateFee >= 0 ==> r >= PaidValue(p)
    ensures r - PaidValue(p) == p.lateFee
  {
    PaidValue(p) + p.lateFee
  }

  /** The deficit line is printed only for a positive deficit. */
  predicate ShowsDeficit(p: Payment) {
    p.deficit != 0 && p.deficit > 0
  }

  /** The late-fee line is printed only for a positive late fee. */
  predicate ShowsLateFee(p: Payment) {
    p.lateFee != 0 && p.lateFee > 0
  }

  /** The receipt's extra lines with the amounts they show. */
  function OptionalAmounts(p: Payment): (r: (Option<int>, Option<int>))
    ensures r.0.Some? <==> p.deficit > 0
    ensures r.1.Some? <==> p.lateFee > 0
    ensures r.0.Some? ==> r.0.value == p.deficit
    ensures r.1.Some? ==> r.1.value == p.lateFee
  {
    (if ShowsDeficit(p) then Some(p.deficit) else None, if ShowsLateFee(p) then Some(p.lateFee) else None)
  }

  /** The lines of the payment-information table. */
  datatype Heading = ExpectedLine | PaidLine | DeficitLine | LateFeeLine | TotalLine

  /** The text a line of the table starts with. */
  function Title(h: Heading): string {
    match h
    case ExpectedLine => "Expected Amount:"
    case PaidLine => "Paid Amount:"
    case DeficitLine => "Deficit:"
    case LateFeeLine => "Late Fee:"
    case TotalLine => "Total Paid:"
  }

  /** A printed amount line: what it is, the amount in shillings and its vertical position. */
  datatype Line = Line(heading: Heading, amount: int, y: int)

  /** The table's lines as printed from vertical position `y0`, each 8 below the one before. */
  function AmountLines(p: Payment, y0: int): seq<Line> {
    var d := if ShowsDeficit(p) then 8 else 0;
    var l := if ShowsLateFee(p) then 8 else 0;
    [Line(ExpectedLine, ExpectedAmount(p), y0), Line(PaidLine, PaidValue(p), y0 + 8)]
    + (if ShowsDeficit(p) then [Line(DeficitLine, p.deficit, y0 + 16)] else [])
    + (if ShowsLateFee(p) then [Line(LateFeeLine, p.lateFee, y0 + 16 + d)] else [])
    + [Line(TotalLine, TotalPaid(p), y0 + 16 + d + l)]
  }

  /** How far down the table moves the writing position. */
  function TableHeight(p: Payment): int {
    16 + (if ShowsDeficit(p) then 8 else 0) + (if ShowsLateFee(p) then 8 else 0) + 15
  }

  /**
   * The table starts with the expected and paid amounts, ends with the total
   * paid, and has a deficit or late-fee line exactly when that amount is positive.
   */
  lemma AmountLinesShape(p: Payment, y0: int)
    ensures var ls := AmountLines(p, y0);
            |ls| == 3 + (if p.deficit > 0 then 1 else 0) + (if p.lateFee > 0 then 1 else 0) &&
            ls[0] == Line(ExpectedLine, ExpectedAmount(p), y0) &&
            ls[1] == Line(PaidLine, PaidValue(p), y0 + 8) &&
            ls[|ls| - 1].heading == TotalLine && ls[|ls| - 1].amount == PaidValue(p) + p.lateFee
    ensures (exists i :: 0 <= i < |AmountLines(p, y0)| && AmountLines(p, y0)[i].heading == DeficitLine) <==> p.deficit > 0
    ensures (exists i :: 0 <= i < |AmountLines(p, y0)| && AmountLines(p, y0)[i].heading == LateFeeLine) <==> p.lateFee > 0
  {
    var ls := AmountLines(p, y0);
    if p.deficit > 0 {
      assert ls[2].heading == DeficitLine;
    }
    if p.lateFee > 0 {
      assert ls[if p.deficit > 0 then 3 else 2].heading == LateFeeLine;
    }
  }

  /** Lines are printed top to bottom, never on top of one another, and end above the next section. */
  lemma AmountLinesDescend(p: Payment, y0: int)
    ensures var ls := AmountLines(p, y0);
            (forall i, j :: 0 <= i < j < |ls| ==> ls[i].y + 8 <= ls[j].y) &&
            ls[|ls| - 1].y + 15 == y0 + TableHeight(p)
  {
  }

  /** The part of the receipt drawn with a running vertical position. */
  class ReceiptPage {
    /** The writing position. */
    var yPos: int
    /** The amount lines printed so far. */
    var lines: seq<Line>

    /** Printing starts at the top of the document. */
    constructor(y: int)
      ensures yPos == y && lines == []
    {
      yPos := y;
      lines := [];
    }

    /** Prints the payment-information table, moving the writing position down as it goes. */
    method PaymentInformation(p: Payment)
      modifies this
      ensures lines == old(lines) + AmountLines(p, old(yPos))
      ensures yPos == old(yPos) + TableHeight(p)
    {
      var y0 := yPos;
      lines := lines + [Line(ExpectedLine, ExpectedAmount(p), yPos)];
      yPos := yPos + 8;
      lines := lines + [Line(PaidLine, PaidValue(p), yPos)];
      yPos := yPos + 8;
      if ShowsDeficit(p) {
        lines := lines + [Line(DeficitLine, p.deficit, yPos)];
        yPos := yPos + 8;
      }
      if ShowsLateFee(p) {
        lines := lines + [Line(LateFeeLine, p.lateFee, yPos)];
        yPos := yPos + 8;
      }
      lines := lines + [Line(TotalLine, TotalPaid(p), yPos)];
      yPos := yPos + 15;
      assert lines == old(lines) + AmountLines(p, y0);
    }
  }

  /** The payment method as printed: capitals, with only the first '_' turned into a space. */
  function MethodLabel(p: Payment): (r: string)
    ensures |r| == |OrText(p.paymentMethod, OrText(p.paymentSource, "N/A"))|
  {
    ReplaceFirst(Upper(OrText(p.paymentMethod, OrText(p.paymentSource, "N/A"))), '_', ' ')
  }

  /**
   * Where the method text has its first '_' at `i`, the label has a space
   * there and is otherwise the capitalised text, later underscores included.
   */
  lemma MethodLabelFirstUnderscore(p: Payment, i: nat)
    requires var m := OrText(p.paymentMethod, OrText(p.paymentSource, "N/A"));
             i < |m| && m[i] == '_' && '_' !in m[..i]
    ensures var u := Upper(OrText(p.paymentMethod, OrText(p.paymentSource, "N/A")));
            MethodLabel(p) == u[..i] + " " + u[i + 1..]
  {
    var m := OrText(p.paymentMethod, OrText(p.paymentSource, "N/A"));
    var u := Upper(m);
    assert u[i] == '_';
    assert forall k :: 0 <= k < i ==> u[k] != '_' by {
      forall k | 0 <= k < i
        ensures u[k] != '_'
      {
        assert m[..i][k] == m[k];
      }
    }
    assert '_' !in u[..i];
    ReplaceFirstAt(u, '_', ' ', i);
  }

  /** The status as printed: capitals, 'N/A' when absent. */
  function StatusText(p: Payment): string {
    Upper(OrText(p.status, "N/A"))
  }

  /** An RGB colour. */
  datatype Rgb = Rgb(r: int, g: int, b: int)

  /** The status colour: green when paid, orange when partial, red otherwise. */
  function StatusColour(p: Payment): (c: Rgb)
    ensures p.status == "paid" ==> c == Rgb(34, 197, 94)
    ensures p.status == "partial" ==> c == Rgb(251, 146, 60)
    ensures p.status != "paid" && p.status != "partial" ==> c == Rgb(239, 68, 68)
  {
    var status := OrText(p.status, "N/A");
    if status == "paid" then Rgb(34, 197, 94) else if status == "partial" then Rgb(251, 146, 60) else Rgb(239, 68, 68)
  }

  /** `${x || ''}` for a name part. */
  function NamePart(v: JsVal): string {
    ToStr(Or(v, Str("")))
  }

  /** The tenant's name: trimmed "first last", or 'N/A' without a tenant. */
  function TenantName(tenant: JsVal): (r: string)
    ensures !Truthy(tenant) ==> r == "N/A"
    ensures Truthy(tenant) ==> r == Trim(NamePart(Get(tenant, "firstName")) + " " + NamePart(Get(tenant, "lastName")))
  {
    if Truthy(tenant) then Trim(NamePart(Get(tenant, "firstName")) + " " + NamePart(Get(tenant, "lastName"))) else "N/A"
  }

  /** A printed tenant name never starts or ends with a space, even when a name part is missing. */
  lemma TenantNameTrimmed(tenant: JsVal)
    ensures IsTrimmed(TenantName(tenant))
  {
    if Truthy(tenant) {
      TrimIsTrimmed(NamePart(Get(tenant, "firstName")) + " " + NamePart(Get(tenant, "lastName")));
    } else {
      assert TenantName(tenant) == "N/A";
    }
  }

  /** `v || 'N/A'` as text. */
  function OrNA(v: JsVal): string {
    ToStr(Or(v, Str("N/A")))
  }

  /** The payment's own texts and their placeholders. */
  datatype Details = Details(email: string, phone: string, houseNumber: string, apartmentName: string, address: string)

  /** The tenant's contact and the unit's place, each 'N/A' when missing; the apartment falls back from the unit's to the payment's. */
  function DetailsOf(p: Payment): (r: Details)
    ensures !Truthy(Get(p.tenant, "email")) ==> r.email == "N/A"
    ensures !Truthy(Get(p.house, "houseNumber")) ==> r.houseNumber == "N/A"
    ensures Truthy(Get(Get(p.house, "apartment"), "name")) ==> r.apartmentName == ToStr(Get(Get(p.house, "apartment"), "name"))
  {
    Details(
      OrNA(Get(p.tenant, "email")),
      OrNA(Get(p.tenant, "phone")),
      OrNA(Get(p.house, "houseNumber")),
      ToStr(Or(Get(Get(p.house, "apartment"), "name"), Or(Get(p.apartment, "name"), Str("N/A")))),
      ToStr(Or(Get(Get(p.house, "apartment"), "address"), Or(Get(p.apartment, "address"), Str("N/A")))))
  }

  /** The part of the file name that names the receipt: the stored number, or the last eight of the id as they are. */
  function FileKey(p: Payment): string {
    OrText(p.receiptNumber, LastN(p.id, 8))
  }

  /**
   * The receipt's file name for the given date (`YYYY-MM-DD`): `Receipt-`,
   * the stored number or else the id's last eight characters as they are,
   * '-', the date and `.pdf`.
   */
  function Filename(p: Payment, today: string): (r: string)
    ensures var k := if p.receiptNumber != "" then p.receiptNumber else LastN(p.id, 8);
            |r| == 13 + |k| + |today| &&
            r[..8] == "Receipt-" && r[8..8 + |k|] == k && r[8 + |k|] == '-' &&
            r[9 + |k|..|r| - 4] == today && r[|r| - 4..] == ".pdf"
  {
    "Receipt-" + FileKey(p) + "-" + today + ".pdf"
  }

  /**
   * Without a stored number, the file name carries the id's last eight
   * characters as they are, while the printed number carries them in capitals.
   */
  lemma FilenameAndNumber(p: Payment)
    ensures p.receiptNumber != "" ==> FileKey(p) == ReceiptNumber(p)
    ensures p.receiptNumber == "" ==> ReceiptNumber(p) == "REC-" + Upper(FileKey(p))
  {
  }
}
