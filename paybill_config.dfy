/**
 * The paybill configuration page: the payment instructions generated from
 * the configuration, and the test paybill payment.
 */
module PaybillConfig {
  import opened Js

  datatype BankAccount = BankAccount(accountNumber: string, bankName: string, accountName: string)

  /** The paybill configuration. */
  datatype Config = Config(
    paybillNumber: string,
    businessName: string,
    paymentInstructions: string,
    mobileMoneyProvider: string,
    bankAccount: BankAccount)

  /** The configuration shown before the stored one is received. */
  function InitialConfig(): Config {
    Config("", "Rent Management System", "", "mpesa", BankAccount("", "", ""))
  }

  /** The provider as named in the menu step: 'M-Pesa' for 'mpesa', else the provider in capitals. */
  function MenuName(provider: string): (r: string)
    ensures provider == "mpesa" ==> r == "M-Pesa"
    ensures provider != "mpesa" ==> r == Upper(provider)
    ensures provider != "mpesa" ==> |r| == |provider|
    ensures r == "" <==> provider == ""
  {
    if provider == "mpesa" then "M-Pesa" else Upper(provider)
  }

  const Placeholder: string := "[SET PAYBILL NUMBER]"

  /** The fixed parts of the instructions, between the values filled in. */
  const Opening: string := "To pay rent via "
  const ToMenu: string := ":\n\n1. Go to "
  const ToNumber: string := " menu\n2. Select \"Pay Bill\"\n3. Enter Business Number: "
  const Closing: string :=
    "\n4. Enter Account Number: [YOUR HOUSE NUMBER] (e.g., 101, 201, 301)\n5. Enter Amount: [Your rent amount]\n6. Enter your PIN\n7. Confirm payment\n\nYour house number is your account number for payment."

  /** The number the instructions give: the paybill number, or the placeholder when none is set. */
  function BusinessNumber(c: Config): (r: string)
    ensures c.paybillNumber != "" ==> r == c.paybillNumber
    ensures c.paybillNumber == "" ==> r == Placeholder
    ensures r != ""
  {
    if c.paybillNumber != "" then c.paybillNumber else Placeholder
  }

  /** The text `generateInstructions` writes. */
  function Instructions(c: Config): string {
    Opening + Upper(c.mobileMoneyProvider) + (MenuStep(c) + BusinessNumber(c) + Closing)
  }

  /** The text from the end of the provider's name to the business number. */
  function MenuStep(c: Config): string {
    ToMenu + MenuName(c.mobileMoneyProvider) + ToNumber
  }

  /** Where the business number starts in the instructions. */
  function NumberAt(c: Config): nat {
    |Opening| + |Upper(c.mobileMoneyProvider)| + |MenuStep(c)|
  }

  /**
   * The instructions name the provider in capitals right after the opening
   * words and embed the paybill number, or the placeholder when it is not set.
   */
  lemma InstructionsEmbed(c: Config)
    ensures var t := Instructions(c);
            var u := Upper(c.mobileMoneyProvider);
            t[|Opening|..|Opening| + |u|] == u &&
            t[NumberAt(c)..NumberAt(c) + |BusinessNumber(c)|] == BusinessNumber(c) &&
            Contains(t, BusinessNumber(c)) &&
            (c.paybillNumber != "" ==> Contains(t, c.paybillNumber))
  {
    var u := Upper(c.mobileMoneyProvider);
    var m := MenuStep(c);
    var b := BusinessNumber(c);
    MiddleOfConcat(Opening, u, m + b + Closing);
    Reassociate(Opening, u, m, b, Closing);
    MiddleOfConcat(Opening + u + m, b, Closing);
    SliceContains(Instructions(c), b, NumberAt(c));
  }

  /** The menu step names the provider's menu, 'M-Pesa' for 'mpesa', after the opening and the provider. */
  lemma InstructionsNameMenu(c: Config)
    ensures var t := Instructions(c);
            var i := |Opening| + |Upper(c.mobileMoneyProvider)| + |ToMenu|;
            var n := MenuName(c.mobileMoneyProvider);
            t[i..i + |n|] == n && Contains(t, n)
  {
    var u := Upper(c.mobileMoneyProvider);
    var n := MenuName(c.mobileMoneyProvider);
    var b := BusinessNumber(c);
    var t := Instructions(c);
    Regroup(Opening, u, ToMenu, n, ToNumber, b, Closing);
    MiddleOfConcat(Opening + u + ToMenu, n, ToNumber + b + Closing);
    SliceContains(t, n, |Opening| + |u| + |ToMenu|);
  }

  lemma SliceContains(t: string, b: string, i: nat)
    requires i + |b| <= |t| && t[i..i + |b|] == b
    ensures Contains(t, b)
  {
    assert OccursAt(t, b, i) by {
      assert t[i..][..|b|] == t[i..i + |b|];
    }
    OccursAtContains(t, b, i);
  }

  lemma Regroup(a: string, u: string, x: string, n: string, y: string, b: string, z: string)
    ensures a + u + ((x + n + y) + b + z) == (a + u + x) + n + (y + b + z)
  {
  }

  lemma Reassociate(a: string, u: string, m: string, b: string, z: string)
    ensures a + u + (m + b + z) == (a + u + m) + b + z
  {
  }

  /** The middle piece of a concatenation is found at its offset. */
  lemma MiddleOfConcat(a: string, b: string, c: string)
    ensures (a + b + c)[|a|..|a| + |b|] == b
  {
    assert (a + b + c)[|a|..][..|b|] == b;
  }

  /** The request of a test paybill payment. */
  datatype PaybillPayment = PaybillPayment(
    paybillNumber: string,
    accountNumber: string,
    amountText: string,
    transactionId: string,
    phoneNumber: string,
    paymentMethod: string,
    notes: string)

  /** The test form: the house number as account number, the amount as typed. */
  datatype TestData = TestData(accountNumber: string, amount: string, transactionId: string, phoneNumber: string)

  function EmptyTestData(): TestData {
    TestData("", "", "", "")
  }

  class PaybillPage {
    var config: Config
    var testData: TestData

    constructor()
      ensures config == InitialConfig() && testData == EmptyTestData()
    {
      config := InitialConfig();
      testData := EmptyTestData();
    }

    /** `generateInstructions`: only the instructions of the configuration change. */
    method GenerateInstructions()
      modifies this
      ensures config == old(config).(paymentInstructions := Instructions(old(config)))
      ensures testData == old(testData)
    {
      config := config.(paymentInstructions := Instructions(config));
    }

    /**
     * `handleTestPaybill`: no request while the account number or amount is
     * empty; otherwise a mobile-money test payment to the configured paybill,
     * with a generated transaction id when none is typed. `answer` is the
     * server's `data`, or `None` when the call fails; the test form is cleared
     * only when the answer names a tenant, since the success message reads
     * `result.data.tenant.name` first and throws otherwise. `now` is `Date.now()`.
     */
    method HandleTestPaybill(answer: Option<JsVal>, now: int) returns (payment: Option<PaybillPayment>)
      modifies this
      ensures payment.None? <==> old(testData.accountNumber) == "" || old(testData.amount) == ""
      ensures payment.Some? ==>
                payment.value == PaybillPayment(config.paybillNumber, old(testData.accountNumber), old(testData.amount),
                                                if old(testData.transactionId) != "" then old(testData.transactionId)
                                                else "TEST-" + IntToString(now),
                                                old(testData.phoneNumber), "mobile_money", "Test payment")
      ensures testData == if payment.Some? && NamesTenant(answer) then EmptyTestData() else old(testData)
      ensures config == old(config)
    {
      if testData.accountNumber == "" || testData.amount == "" {
        return None;
      }
      payment := Some(PaybillPayment(
        config.paybillNumber, testData.accountNumber, testData.amount,
        if testData.transactionId != "" then testData.transactionId else "TEST-" + IntToString(now),
        testData.phoneNumber, "mobile_money", "Test payment"));
      if NamesTenant(answer) {
        testData := EmptyTestData();
      }
    }
  }

  /**
   * The answer can be read as the success message does: `result.data.tenant.name`
   * throws when the data, or its tenant, is null or undefined.
   */
  predicate NamesTenant(answer: Option<JsVal>) {
    answer.Some? && Get(answer.value, "tenant") != Undef && Get(answer.value, "tenant") != Null
  }

  /** An accepted answer without a tenant, or a null answer, keeps the test form as typed. */
  lemma AnswerWithoutTenantKeepsForm(answer: JsVal)
    ensures !NamesTenant(Some(Obj(map[]))) && !NamesTenant(Some(Obj(map["tenant" := Null]))) && !NamesTenant(Some(Null))
    ensures answer.Obj? && "tenant" in answer.fields && answer.fields["tenant"].Obj? ==> NamesTenant(Some(answer))
  {
  }
}
