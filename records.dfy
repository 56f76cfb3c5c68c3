/**
 * The server records the console reads: users and the references between
 * records. A reference arrives either populated (an object carrying `_id`) or
 * as a bare id, so it is kept as a JSON value.
 */
module Records {
  import opened Js

  /** A console user as the server returns it. */
  datatype User = User(
    id: string,
    username: string,
    firstName: string,
    lastName: string,
    email: string,
    phone: string,
    role: string,
    apartment: JsVal,
    isActive: Option<bool>)

  /** `ref._id || ref`: the id of a populated reference, or the reference itself. */
  function IdOf(ref: JsVal): (r: JsVal)
    ensures Truthy(Get(ref, "_id")) ==> r == Get(ref, "_id")
    ensures !Truthy(Get(ref, "_id")) ==> r == ref
    ensures Truthy(r) <==> Truthy(ref)
    ensures !ref.Obj? ==> r == ref
  {
    Or(Get(ref, "_id"), ref)
  }

  /**
   * `ref?._id || ref || ''`: the id of a populated reference, else the
   * reference itself, with '' for a missing one.
   */
  function IdOrEmpty(ref: JsVal): (r: JsVal)
    ensures Truthy(ref) ==> r == IdOf(ref)
    ensures !Truthy(ref) ==> r == Str("")
  {
    Or(Get(ref, "_id"), Or(ref, Str("")))
  }

  /**
   * A payment. Amounts are whole shillings; an absent amount is 0, which `||`
   * treats the same way. `status`, `receiptNumber` and the other texts are ""
   * when absent. `tenant`, `house` and `apartment` are references.
   */
  datatype Payment = Payment(
    id: string,
    receiptNumber: string,
    status: string,
    amount: int,
    paidAmount: int,
    expectedAmount: int,
    lateFee: int,
    deficit: int,
    paymentDate: Option<string>,
    dueDate: Option<string>,
    month: JsVal,
    year: JsVal,
    paymentMethod: string,
    paymentSource: string,
    transactionId: string,
    referenceNumber: string,
    notes: Option<string>,
    tenant: JsVal,
    house: JsVal,
    apartment: JsVal)

  /** `a || b` on amounts. */
  function OrAmount(a: int, b: int): (r: int)
    ensures a != 0 ==> r == a
    ensures a == 0 ==> r == b
    ensures r == 0 <==> a == 0 && b == 0
  {
    if a != 0 then a else b
  }

  /** `p.paidAmount || p.amount || 0`: what was paid. */
  function PaidValue(p: Payment): (r: int)
    ensures r == p.paidAmount || r == p.amount
    ensures r == 0 <==> p.paidAmount == 0 && p.amount == 0
    ensures p.paidAmount != 0 ==> r == p.paidAmount
  {
    OrAmount(p.paidAmount, p.amount)
  }

  /** A rental unit. */
  datatype House = House(
    id: string,
    houseNumber: string,
    rentAmount: int,
    status: string,
    description: Option<string>,
    amenities: Option<seq<string>>,
    apartment: JsVal)

  /** An entry of a tenant's communication log; `date` is its timestamp. */
  datatype Contact = Contact(kind: string, subject: string, notes: string, date: int, createdBy: string)

  /** A tenant. `house` is a reference: absent, a bare id, or the populated unit as an object. */
  datatype Tenant = Tenant(
    id: string,
    firstName: string,
    lastName: string,
    email: string,
    phone: string,
    status: Option<string>,
    house: JsVal,
    bankAccountNumber: string,
    bankName: string,
    leaseStartDate: Option<string>,
    leaseEndDate: Option<string>,
    emergencyContact: JsVal,
    houseMoveHistory: seq<JsVal>,
    communicationLog: seq<Contact>)

  /** The three unit statuses the console counts; a unit has exactly one status. */
  predicate IsOccupied(h: House) { h.status == "occupied" }
  predicate IsAvailable(h: House) { h.status == "available" }
  predicate IsUnderMaintenance(h: House) { h.status == "maintenance" }

  /** `d ? d.split('T')[0] : ''`: the date part of an ISO timestamp, '' when absent. */
  function DatePart(d: Option<string>): (r: string)
    ensures d.None? || d == Some("") ==> r == ""
    ensures d.Some? ==> IsPrefix(r, d.value) && 'T' !in r
    ensures d.Some? && |r| < |d.value| ==> d.value[|r|] == 'T'
  {
    if d.Some? && d.value != "" then
      SplitFirstIsBefore(d.value, 'T');
      Split(d.value, 'T')[0]
    else ""
  }
}
