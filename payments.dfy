/**
 * The payments page: the method and status labels, the current month's text,
 * and the handlers that fill the payment form, guard the M-Pesa request and
 * look up a house before a bank payment is received.
 */
module Payments {
  import opened Js
  import opened Records
  import Dashboard

  // ---------------------------------------------------------------- labels

  /** The labels of the known payment methods. */
  const MethodNames: map<string, string> := map[
    "cash" := "Cash", "check" := "Check", "bank_transfer" := "Bank Transfer",
    "equity_bank" := "Equity Bank", "mobile_money" := "Mobile Money", "mpesa_stk" := "M-Pesa STK",
    "paybill" := "Paybill", "online" := "Online", "other" := "Other"]

  /** `formatPaymentMethod`: a known method's label, an unknown one as it is, 'N/A' for none ('' stands for undefined). */
  function FormatPaymentMethod(name: string): (r: string)
    ensures name in MethodNames ==> r == MethodNames[name]
    ensures name !in MethodNames && name != "" ==> r == name
    ensures name == "" ==> r == "N/A"
  {
    if name in MethodNames then MethodNames[name] else if name != "" then name else "N/A"
  }

  /** A label is never empty, and it is the method itself exactly when the method is not one of the nine known ones. */
  lemma FormatPaymentMethodIff(name: string)
    ensures FormatPaymentMethod(name) != ""
    ensures name != "" ==> (FormatPaymentMethod(name) == name <==> name !in MethodNames)
  {
    if name in MethodNames {
      assert MethodNames[name] != name;
    }
  }

  const OtherStatusColor: string := "#95a5a6"

  /** `getStatusColor` */
  function StatusColor(status: string): (r: string)
    ensures status == "paid" ==> r == "#27ae60"
    ensures status == "pending" ==> r == "#f39c12"
    ensures status == "overdue" ==> r == "#e74c3c"
    ensures status == "partial" ==> r == "#3498db"
  {
    match status
    case "paid" => "#27ae60"
    case "pending" => "#f39c12"
    case "overdue" => "#e74c3c"
    case "partial" => "#3498db"
    case _ => OtherStatusColor
  }

  /** Only the four known statuses get a colour of their own, and no two of them share one. */
  lemma StatusColorKnown(status: string, other: string)
    ensures StatusColor(status) != OtherStatusColor <==> status in {"paid", "pending", "overdue", "partial"}
    ensures StatusColor(status) == StatusColor(other) && StatusColor(status) != OtherStatusColor ==> status == other
  {
  }

  /** `getCurrentMonth`; `monthIndex` is `getMonth()`, from 0 for January. */
  function CurrentMonth(monthIndex: nat): (r: string)
    requires monthIndex < 12
    ensures |r| == 2 && AllDigits(r)
    ensures DigitsValue(r) == monthIndex + 1
  {
    var m := monthIndex + 1;
    DigitsValueOfNatToString(m);
    if m < 10 then
      assert NatToString(m) == [DigitChar(m)];
      assert Dashboard.MonthText(m) == ['0', DigitChar(m)];
      assert ['0', DigitChar(m)][..1] == ['0'];
      Dashboard.MonthText(m)
    else
      Dashboard.MonthText(m)
  }

  // ---------------------------------------------------------------- the form state

  /** The payment form. */
  datatype PaymentForm = PaymentForm(
    tenant: JsVal,
    house: JsVal,
    amount: JsVal,
    paymentDate: string,
    dueDate: string,
    paymentMethod: string,
    status: string,
    month: JsVal,
    year: JsVal,
    notes: string)

  /** The form for a new payment: paid today, in cash, pending, for the current month. */
  function NewPaymentForm(today: string, monthIndex: nat, year: int): PaymentForm
    requires monthIndex < 12
  {
    PaymentForm(Str(""), Str(""), Str(""), today, "", "cash", "pending", Str(CurrentMonth(monthIndex)), Num(year), "")
  }

  /** `handleEdit(payment)`: the payment's own values, dates cut at 'T', and ids in place of the tenant and house. */
  function EditForm(p: Payment): (r: PaymentForm)
    ensures r.tenant == IdOf(p.tenant) && r.house == IdOf(p.house)
    ensures r.paymentDate == DatePart(p.paymentDate) && r.dueDate == DatePart(p.dueDate)
    ensures r.notes == if p.notes.Some? then p.notes.value else ""
    ensures r.amount == Num(p.amount) && r.paymentMethod == p.paymentMethod && r.status == p.status
    ensures r.month == p.month && r.year == p.year
  {
    PaymentForm(IdOf(p.tenant), IdOf(p.house), Num(p.amount), DatePart(p.paymentDate), DatePart(p.dueDate),
                p.paymentMethod, p.status, p.month, p.year, if p.notes.Some? then p.notes.value else "")
  }

  /** The dates of an edited payment hold no time of day: they are '' or the date part of the stored value. */
  lemma EditFormDates(p: Payment)
    ensures 'T' !in EditForm(p).paymentDate && 'T' !in EditForm(p).dueDate
    ensures p.paymentDate.None? ==> EditForm(p).paymentDate == ""
    ensures p.paymentDate.Some? ==> IsPrefix(EditForm(p).paymentDate, p.paymentDate.value)
  {
  }

  /** `tenants.find(t => t._id === tenantId)` */
  function Find(tenants: seq<Tenant>, tenantId: string): (r: Option<Tenant>)
    ensures r.Some? ==> r.value.id == tenantId && r.value in tenants
    ensures r.None? ==> forall i :: 0 <= i < |tenants| ==> tenants[i].id != tenantId
  {
    if tenants == [] then None
    else if tenants[0].id == tenantId then Some(tenants[0])
    else Find(tenants[1..], tenantId)
  }

  /** The first tenant with the id is the one found. */
  lemma {:induction false} FindFirst(tenants: seq<Tenant>, tenantId: string, k: nat)
    requires k < |tenants| && tenants[k].id == tenantId
    requires forall i :: 0 <= i < k ==> tenants[i].id != tenantId
    ensures Find(tenants, tenantId) == Some(tenants[k])
  {
    if k > 0 {
      FindFirst(tenants[1..], tenantId, k - 1);
    }
  }

  /** The M-Pesa form of this page, with the amount as typed. */
  datatype MpesaForm = MpesaForm(phoneNumber: string, amount: string, houseNumber: string, month: string, year: int)

  function NewMpesaForm(monthIndex: nat, year: int): MpesaForm
    requires monthIndex < 12
  {
    MpesaForm("", "", "", CurrentMonth(monthIndex), year)
  }

  /** The STK push request; the amount is sent as `parseFloat` reads the typed text. */
  datatype StkPush = StkPush(phoneNumber: string, amountText: string, houseNumber: string, month: string, year: int)

  /** The form for receiving a bank payment against a house. */
  datatype ReceiveForm = ReceiveForm(houseNumber: string, amount: JsVal, transactionId: string, referenceNumber: string,
                                     receivedFrom: string, paymentMethod: string, notes: string)

  class PaymentsPage {
    var formData: PaymentForm
    var selectedPayment: Option<Payment>
    var mpesaForm: MpesaForm
    var houseSearch: string
    var searchedHouse: Option<JsVal>
    var receiveForm: ReceiveForm

    constructor(today: string, monthIndex: nat, year: int)
      requires monthIndex < 12
      ensures formData == NewPaymentForm(today, monthIndex, year) && selectedPayment.None?
      ensures mpesaForm == NewMpesaForm(monthIndex, year) && houseSearch == "" && searchedHouse.None?
      ensures receiveForm == ReceiveForm("", Str(""), "", "", "", "bank_transfer", "")
    {
      formData := NewPaymentForm(today, monthIndex, year);
      selectedPayment := None;
      mpesaForm := NewMpesaForm(monthIndex, year);
      houseSearch := "";
      searchedHouse := None;
      receiveForm := ReceiveForm("", Str(""), "", "", "", "bank_transfer", "");
    }

    /**
     * `handleTenantChange(tenantId)`: the tenant is always set; the house is
     * set to the chosen tenant's house only when that tenant has one, and
     * nothing else in the form changes.
     */
    method HandleTenantChange(tenants: seq<Tenant>, tenantId: string)
      modifies this
      ensures var t := Find(tenants, tenantId);
              formData == old(formData).(tenant := Str(tenantId),
                                         house := if t.Some? && Truthy(t.value.house) then IdOf(t.value.house) else old(formData).house)
      ensures selectedPayment == old(selectedPayment) && mpesaForm == old(mpesaForm) && receiveForm == old(receiveForm)
      ensures houseSearch == old(houseSearch) && searchedHouse == old(searchedHouse)
    {
      var tenant := Find(tenants, tenantId);
      if tenant.Some? && Truthy(tenant.value.house) {
        formData := formData.(tenant := Str(tenantId), house := IdOf(tenant.value.house));
      } else {
        formData := formData.(tenant := Str(tenantId));
      }
    }

    /** `handleEdit(payment)`; reading `_id` of a missing tenant or house throws, so both must be present. */
    method HandleEdit(p: Payment)
      requires p.tenant != Null && p.tenant != Undef && p.house != Null && p.house != Undef
      modifies this
      ensures formData == EditForm(p) && selectedPayment == Some(p)
      ensures mpesaForm == old(mpesaForm) && receiveForm == old(receiveForm)
      ensures houseSearch == old(houseSearch) && searchedHouse == old(searchedHouse)
    {
      selectedPayment := Some(p);
      formData := EditForm(p);
    }

    /** `resetForm` */
    method ResetForm(today: string, monthIndex: nat, year: int)
      requires monthIndex < 12
      modifies this
      ensures formData == NewPaymentForm(today, monthIndex, year) && selectedPayment.None?
      ensures mpesaForm == old(mpesaForm) && receiveForm == old(receiveForm)
      ensures houseSearch == old(houseSearch) && searchedHouse == old(searchedHouse)
    {
      formData := NewPaymentForm(today, monthIndex, year);
      selectedPayment := None;
    }

    /**
     * `handleMpesaPayment`: no request while the house number, phone or amount
     * is empty; otherwise the request carries the trimmed house number, and
     * once the server accepts it the form is cleared.
     */
    method HandleMpesaPayment(accepted: bool, monthIndex: nat, year: int) returns (request: Option<StkPush>)
      requires monthIndex < 12
      modifies this
      ensures request.None? <==> old(mpesaForm.houseNumber == "" || mpesaForm.phoneNumber == "" || mpesaForm.amount == "")
      ensures request.Some? ==> request.value == StkPush(old(mpesaForm.phoneNumber), old(mpesaForm.amount),
                                                         Trim(old(mpesaForm.houseNumber)), old(mpesaForm.month), old(mpesaForm.year))
      ensures mpesaForm == if request.Some? && accepted then NewMpesaForm(monthIndex, year) else old(mpesaForm)
      ensures formData == old(formData) && receiveForm == old(receiveForm) && houseSearch == old(houseSearch)
      ensures searchedHouse == old(searchedHouse) && selectedPayment == old(selectedPayment)
    {
      if mpesaForm.houseNumber == "" || mpesaForm.phoneNumber == "" || mpesaForm.amount == "" {
        return None;
      }
      request := Some(StkPush(mpesaForm.phoneNumber, mpesaForm.amount, Trim(mpesaForm.houseNumber), mpesaForm.month, mpesaForm.year));
      if accepted {
        mpesaForm := NewMpesaForm(monthIndex, year);
      }
    }

    /**
     * `handleSearchHouse`: a blank search is refused; otherwise the trimmed
     * text is searched, and a house found fills the receive form with its
     * number, rent and tenant. A failed search, or an answer without a house
     * (reading its rent throws), clears the previous result and leaves the
     * receive form as it was.
     */
    method HandleSearchHouse(found: Option<JsVal>) returns (searched: Option<string>)
      modifies this
      ensures searched.None? <==> IsBlank(old(houseSearch))
      ensures searched.Some? ==> searched.value == Trim(old(houseSearch))
      ensures searched.None? ==> searchedHouse == old(searchedHouse) && receiveForm == old(receiveForm)
      ensures searched.Some? && !HasHouse(found) ==> searchedHouse.None? && receiveForm == old(receiveForm)
      ensures searched.Some? && HasHouse(found) ==>
                searchedHouse == found &&
                receiveForm == old(receiveForm).(houseNumber := searched.value,
                                                 amount := Or(Get(Get(found.value, "house"), "rentAmount"), Str("")),
                                                 receivedFrom := ReceivedFrom(Get(Get(found.value, "house"), "tenant")))
      ensures formData == old(formData) && mpesaForm == old(mpesaForm) && houseSearch == old(houseSearch)
    {
      var query := Trim(houseSearch);
      if query == "" {
        return None;
      }
      searched := Some(query);
      if HasHouse(found) {
        searchedHouse := found;
        var house := Get(found.value, "house");
        receiveForm := receiveForm.(houseNumber := query, amount := Or(Get(house, "rentAmount"), Str("")),
                                    receivedFrom := ReceivedFrom(Get(house, "tenant")));
      } else {
        searchedHouse := None;
      }
    }
  }

  /**
   * The search answered and its `house` can be read from: `result.data.house.rentAmount`
   * throws when the answer, or its house, is null or undefined.
   */
  predicate HasHouse(found: Option<JsVal>) {
    found.Some? && Get(found.value, "house") != Undef && Get(found.value, "house") != Null
  }

  /** An answer with no house counts as a failed search, and so does a null house. */
  lemma MissingHouseIsNotFound(answer: JsVal)
    ensures !HasHouse(Some(Obj(map[])))
    ensures !HasHouse(Some(Obj(map["house" := Null])))
    ensures !HasHouse(Some(Null)) && !HasHouse(None)
    ensures answer.Obj? && "house" in answer.fields && answer.fields["house"].Obj? ==> HasHouse(Some(answer))
  {
  }

  /** The payer's name, "first last", or '' when the house has no tenant. */
  function ReceivedFrom(tenant: JsVal): (r: string)
    ensures !Truthy(tenant) ==> r == ""
  {
    if Truthy(tenant) then ToStr(Get(tenant, "firstName")) + " " + ToStr(Get(tenant, "lastName")) else ""
  }
}
