/**
 * The Equity Bank test page: verifying a bank account number, then
 * recording a test payment against it with its fallback values.
 */
module EquityBankTest {
  import opened Js

  /** The payment form; the amount is kept as typed. */
  datatype BankForm = BankForm(
    accountNumber: string,
    amount: string,
    transactionId: string,
    referenceNumber: string,
    transactionDate: string,
    payerName: string,
    notes: string)

  /** The form's initial value; `nowLocal` is the current time as `toISOString().slice(0, 16)` writes it. */
  function NewForm(nowLocal: string): BankForm {
    BankForm("", "", "", "", nowLocal, "", "")
  }

  const TestNote: string := "Test payment from Equity Bank integration"

  /** The manual payment sent to the server. */
  datatype ManualPayment = ManualPayment(
    accountNumber: string,
    amountText: string,
    transactionId: string,
    referenceNumber: string,
    transactionDate: string,
    payerName: string,
    notes: string)

  /**
   * `paymentData`. `now` is `Date.now()`, `nowIso` the current time in ISO
   * form and `toIso` the ISO form of a typed date; `accountInfo` is the
   * verified account.
   */
  function PaymentData(f: BankForm, accountInfo: JsVal, now: int, nowIso: string, toIso: string -> string): (p: ManualPayment)
    ensures p.accountNumber == Trim(f.accountNumber)
    ensures p.amountText == f.amount
    ensures f.transactionId != "" ==> p.transactionId == f.transactionId
    ensures f.transactionId == "" ==> p.transactionId == "TEST-" + IntToString(now)
    ensures f.referenceNumber != "" ==> p.referenceNumber == f.referenceNumber
    ensures f.referenceNumber == "" && f.transactionId != "" ==> p.referenceNumber == f.transactionId
    ensures f.referenceNumber == "" && f.transactionId == "" ==> p.referenceNumber == "REF-" + IntToString(now)
    ensures f.transactionDate != "" ==> p.transactionDate == toIso(f.transactionDate)
    ensures f.transactionDate == "" ==> p.transactionDate == nowIso
    ensures f.payerName != "" ==> p.payerName == f.payerName
    ensures f.payerName == "" ==> p.payerName == ToStr(Get(Get(accountInfo, "tenant"), "firstName")) + " " +
                                              ToStr(Get(Get(accountInfo, "tenant"), "lastName"))
    ensures p.notes == OrText(f.notes, TestNote)
  {
    var tenant := Get(accountInfo, "tenant");
    ManualPayment(
      Trim(f.accountNumber),
      f.amount,
      OrText(f.transactionId, "TEST-" + IntToString(now)),
      OrText(f.referenceNumber, OrText(f.transactionId, "REF-" + IntToString(now))),
      if f.transactionDate != "" then toIso(f.transactionDate) else nowIso,
      OrText(f.payerName, ToStr(Get(tenant, "firstName")) + " " + ToStr(Get(tenant, "lastName"))),
      OrText(f.notes, TestNote))
  }

  /**
   * A payment always has a transaction id and a reference, and without a
   * typed reference the reference is the transaction id unless neither was
   * typed, when the two generated values differ.
   */
  lemma PaymentIds(f: BankForm, accountInfo: JsVal, now: int, nowIso: string, toIso: string -> string)
    ensures var p := PaymentData(f, accountInfo, now, nowIso, toIso);
            p.transactionId != "" && p.referenceNumber != "" &&
            (f.referenceNumber == "" && f.transactionId != "" ==> p.referenceNumber == p.transactionId) &&
            (f.referenceNumber == "" && f.transactionId == "" ==> p.referenceNumber != p.transactionId)
  {
    var p := PaymentData(f, accountInfo, now, nowIso, toIso);
    if f.referenceNumber == "" && f.transactionId == "" {
      assert p.referenceNumber[0] != p.transactionId[0];
    }
  }

  /** `!formData.accountNumber.trim()`: the lookup refuses a blank account number before any call. */
  predicate LookupRefused(f: BankForm) {
    IsBlank(f.accountNumber)
  }

  /**
   * `!formData.accountNumber || !formData.amount` and then `!accountInfo`:
   * the payment is refused without an account number, an amount or a truthy
   * verified account.
   */
  predicate PaymentRefused(f: BankForm, accountInfo: JsVal) {
    f.accountNumber == "" || f.amount == "" || !Truthy(accountInfo)
  }

  class TestPage {
    /** `accountInfo`: the verify answer's `data`, null until one is received. */
    var accountInfo: JsVal
    var formData: BankForm

    constructor(nowLocal: string)
      ensures accountInfo == Null && formData == NewForm(nowLocal)
    {
      accountInfo := Null;
      formData := NewForm(nowLocal);
    }

    /**
     * `handleVerifyAccount`: a blank account number is refused before any
     * call; otherwise the trimmed number is looked up, and the answer's data
     * is kept, whatever it is, or the account reset to null when the lookup fails.
     */
    method HandleVerifyAccount(found: Option<JsVal>) returns (lookup: Option<string>)
      modifies this
      ensures lookup.None? <==> LookupRefused(old(formData))
      ensures lookup.Some? ==> lookup.value == Trim(old(formData.accountNumber))
      ensures lookup.Some? && found.Some? ==> accountInfo == found.value
      ensures lookup.Some? && found.None? ==> accountInfo == Null
      ensures lookup.None? ==> accountInfo == old(accountInfo)
      ensures formData == old(formData)
    {
      var number := Trim(formData.accountNumber);
      if number == "" {
        return None;
      }
      lookup := Some(number);
      if found.Some? {
        accountInfo := found.value;
      } else {
        accountInfo := Null;
      }
    }

    /**
     * `handleTestPayment`: refused while the account number or amount is
     * empty or no truthy account has been verified; otherwise the payment is
     * sent, and once it is recorded the form is cleared except for the
     * account number.
     */
    method HandleTestPayment(accepted: bool, now: int, nowIso: string, nowLocal: string, toIso: string -> string)
      returns (payment: Option<ManualPayment>)
      modifies this
      ensures payment.None? <==> PaymentRefused(old(formData), old(accountInfo))
      ensures payment.Some? ==> payment.value == PaymentData(old(formData), old(accountInfo), now, nowIso, toIso)
      ensures payment.Some? && accepted ==> formData == NewForm(nowLocal).(accountNumber := old(formData.accountNumber))
      ensures payment.None? || !accepted ==> formData == old(formData)
      ensures accountInfo == old(accountInfo)
    {
      if formData.accountNumber == "" || formData.amount == "" {
        return None;
      }
      if !Truthy(accountInfo) {
        return None;
      }
      payment := Some(PaymentData(formData, accountInfo, now, nowIso, toIso));
      if accepted {
        formData := formData.(amount := "", transactionId := "", referenceNumber := "",
                              transactionDate := nowLocal, payerName := "", notes := "");
      }
    }
  }

  /**
   * The payment guard does not trim: an account number made only of spaces
   * is refused by the lookup, yet once some other account has been verified
   * the payment with that number is sent, its number trimmed to ''.
   */
  lemma SpacesPassPaymentGuard(f: BankForm, accountInfo: JsVal)
    requires f.accountNumber != "" && forall i :: 0 <= i < |f.accountNumber| ==> IsSpace(f.accountNumber[i])
    requires f.amount != "" && Truthy(accountInfo)
    ensures LookupRefused(f)
    ensures !PaymentRefused(f, accountInfo)
    ensures forall now, nowIso, toIso :: PaymentData(f, accountInfo, now, nowIso, toIso).accountNumber == ""
  {
    BlankIffAllSpace(f.accountNumber);
  }

  /** A verify answer whose data is null, '' or 0 leaves the payment refused. */
  lemma FalsyAnswerRefusesPayment(f: BankForm, data: JsVal)
    requires data == Null || data == Str("") || data == Num(0) || data == Undef
    ensures PaymentRefused(f, data)
  {
  }
}
