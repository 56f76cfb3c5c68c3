/**
 * A tenant's page: the payment totals, the numbering of house moves, the
 * communication log shown newest first, and the M-Pesa request.
 */
module TenantDetail {
  import opened Js
  import opened Records

  // ---------------------------------------------------------------- payment totals

  predicate IsPaid(p: Payment) {
    p.status == "paid"
  }

  /** The statuses that still owe money. */
  predicate IsOutstanding(p: Payment) {
    p.status == "pending" || p.status == "overdue" || p.status == "partial"
  }

  /** What a paid payment adds to `totalPaid`: the amount paid and the late fee. */
  function PaidShare(p: Payment): int {
    PaidValue(p) + p.lateFee
  }

  /** What an outstanding payment adds to `totalPending`: what is owed and the late fee. */
  function OwedShare(p: Payment): int {
    OrAmount(p.deficit, OrAmount(p.expectedAmount, p.amount)) + p.lateFee
  }

  function DeficitShare(p: Payment): int {
    p.deficit
  }

  /** `totalPaid` */
  function TotalPaid(ps: seq<Payment>): int {
    Sum(Where(ps, IsPaid), PaidShare)
  }

  /** `totalPending` */
  function TotalPending(ps: seq<Payment>): int {
    Sum(Where(ps, IsOutstanding), OwedShare)
  }

  /** `totalDeficit`: over every payment, whatever its status. */
  function TotalDeficit(ps: seq<Payment>): int {
    Sum(ps, DeficitShare)
  }

  /** Every total is 0 for a tenant without payments. */
  lemma TotalsOfNone()
    ensures TotalPaid([]) == 0 && TotalPending([]) == 0 && TotalDeficit([]) == 0
  {
  }

  /** The totals of two lists of payments together are the sums of their totals. */
  lemma TotalsConcat(a: seq<Payment>, b: seq<Payment>)
    ensures TotalPaid(a + b) == TotalPaid(a) + TotalPaid(b)
    ensures TotalPending(a + b) == TotalPending(a) + TotalPending(b)
    ensures TotalDeficit(a + b) == TotalDeficit(a) + TotalDeficit(b)
  {
    WhereConcat(a, b, IsPaid);
    SumConcat(Where(a, IsPaid), Where(b, IsPaid), PaidShare);
    WhereConcat(a, b, IsOutstanding);
    SumConcat(Where(a, IsOutstanding), Where(b, IsOutstanding), OwedShare);
    SumConcat(a, b, DeficitShare);
  }

  /** A payment counts toward `totalPaid` or `totalPending` but never both. */
  lemma StatusesDisjoint(p: Payment)
    ensures !(IsPaid(p) && IsOutstanding(p))
  {
  }

  /** What each payment contributes, by its status. */
  function StatusShare(p: Payment): int {
    if IsPaid(p) then PaidShare(p) else if IsOutstanding(p) then OwedShare(p) else 0
  }

  function PaidOnly(p: Payment): int {
    if IsPaid(p) then PaidShare(p) else 0
  }

  function OwedOnly(p: Payment): int {
    if IsOutstanding(p) then OwedShare(p) else 0
  }

  /**
   * Paid and pending together are one pass over the payments in which each
   * payment adds its paid share, its owed share or nothing, according to its status.
   */
  lemma PaidAndPendingPartition(ps: seq<Payment>)
    ensures TotalPaid(ps) == Sum(ps, PaidOnly)
    ensures TotalPending(ps) == Sum(ps, OwedOnly)
    ensures TotalPaid(ps) + TotalPending(ps) == Sum(ps, StatusShare)
  {
    SumWhere(ps, IsPaid, PaidShare, PaidOnly);
    SumWhere(ps, IsOutstanding, OwedShare, OwedOnly);
    SumAdd(ps, PaidOnly, OwedOnly, StatusShare);
  }

  /** With no negative amounts or fees, no total is negative. */
  lemma TotalsNonNegative(ps: seq<Payment>)
    requires forall i :: 0 <= i < |ps| ==>
               ps[i].amount >= 0 && ps[i].paidAmount >= 0 && ps[i].expectedAmount >= 0 &&
               ps[i].lateFee >= 0 && ps[i].deficit >= 0
    ensures TotalPaid(ps) >= 0 && TotalPending(ps) >= 0 && TotalDeficit(ps) >= 0
  {
    PaidAndPendingPartition(ps);
    SumNonNegative(ps, PaidOnly);
    SumNonNegative(ps, OwedOnly);
    SumNonNegative(ps, DeficitShare);
  }

  // ---------------------------------------------------------------- house moves

  /** The label of each house move: the list is numbered from its length down. */
  function MoveNumbers(moves: seq<JsVal>): (r: seq<int>)
    ensures |r| == |moves|
  {
    seq(|moves|, i => |moves| - i)
  }

  /** The moves are numbered n, n-1, ..., 1: every number from 1 to n once, newest-first order. */
  lemma MoveNumbersCountDown(moves: seq<JsVal>)
    ensures var r := MoveNumbers(moves);
            (forall k :: k in r <==> 1 <= k <= |moves|) &&
            (forall i, j :: 0 <= i < j < |r| ==> r[i] > r[j]) &&
            (|r| > 0 ==> r[0] == |moves| && r[|r| - 1] == 1)
  {
    var r := MoveNumbers(moves);
    forall k | 1 <= k <= |moves|
      ensures k in r
    {
      assert r[|moves| - k] == k;
    }
  }

  // ---------------------------------------------------------------- communication log

  /** Newest first: no entry is older than one after it. */
  predicate NewestFirst(s: seq<Contact>) {
    forall k, l :: 0 <= k < l < |s| ==> s[k].date >= s[l].date
  }

  /** The first `n` entries of `a` are newest first. */
  predicate PrefixNewestFirst(a: array<Contact>, n: int)
    requires 0 <= n <= a.Length
    reads a
  {
    forall k, l :: 0 <= k < l < n ==> a[k].date >= a[l].date
  }

  /** The log is sorted in place, newest first, keeping the same entries. */
  method SortNewestFirst(a: array<Contact>)
    modifies a
    ensures NewestFirst(a[..])
    ensures multiset(a[..]) == multiset(old(a[..]))
  {
    var i := 0;
    while i < a.Length
      invariant 0 <= i <= a.Length
      invariant PrefixNewestFirst(a, i)
      invariant multiset(a[..]) == multiset(old(a[..]))
    {
      InsertNewest(a, i);
      i := i + 1;
    }
  }

  /** Moves `a[i]` left past every older entry, so that the first `i + 1` entries are newest first. */
  method InsertNewest(a: array<Contact>, i: int)
    requires 0 <= i < a.Length
    requires PrefixNewestFirst(a, i)
    modifies a
    ensures PrefixNewestFirst(a, i + 1)
    ensures multiset(a[..]) == multiset(old(a[..]))
  {
    var j := i;
    while j > 0 && a[j - 1].date < a[j].date
      invariant 0 <= j <= i
      invariant forall k, l :: 0 <= k < l <= i && k != j && l != j ==> a[k].date >= a[l].date
      invariant forall l :: j < l <= i ==> a[j].date > a[l].date
      invariant multiset(a[..]) == multiset(old(a[..]))
    {
      SwapAdjacent(a, j - 1);
      j := j - 1;
    }
  }

  /** Exchanges `a[i]` and `a[i + 1]`. */
  method SwapAdjacent(a: array<Contact>, i: int)
    requires 0 <= i && i + 1 < a.Length
    modifies a
    ensures a[i] == old(a[i + 1]) && a[i + 1] == old(a[i])
    ensures forall m :: 0 <= m < a.Length && m != i && m != i + 1 ==> a[m] == old(a[m])
    ensures multiset(a[..]) == multiset(old(a[..]))
  {
    a[i], a[i + 1] := a[i + 1], a[i];
  }

  // ---------------------------------------------------------------- M-Pesa

  /** The M-Pesa form; `amount` is the value `parseFloat` gives, 0 when it is not a number. */
  datatype MpesaForm = MpesaForm(phoneNumber: string, amount: int, month: string, year: int)

  /** The STK push request sent to the server. */
  datatype StkPush = StkPush(phoneNumber: string, amount: JsVal, houseNumber: JsVal, tenantId: string, month: string, year: int)

  /** `handleMpesaPayment`: the request sent, or `None` when it is refused before any call. */
  function MpesaRequest(tenant: Tenant, form: MpesaForm): (r: Option<StkPush>)
    ensures r.None? <==> !Truthy(tenant.house)
  {
    if !Truthy(tenant.house) then None
    else Some(StkPush(
      form.phoneNumber,
      if form.amount != 0 then Num(form.amount) else Get(tenant.house, "rentAmount"),
      Get(tenant.house, "houseNumber"),
      tenant.id,
      form.month,
      form.year))
  }

  /** A request carries the form's phone and period, the house's number, and the typed amount or else the rent. */
  lemma MpesaRequestFields(tenant: Tenant, form: MpesaForm)
    requires Truthy(tenant.house)
    ensures var r := MpesaRequest(tenant, form).value;
            r.phoneNumber == form.phoneNumber && r.month == form.month && r.year == form.year &&
            r.tenantId == tenant.id && r.houseNumber == Get(tenant.house, "houseNumber") &&
            (form.amount != 0 ==> r.amount == Num(form.amount)) &&
            (form.amount == 0 ==> r.amount == Get(tenant.house, "rentAmount"))
  {
  }
}
