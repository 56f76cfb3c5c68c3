/**
 * The dashboard's figures, derived once from the fetched apartments, units,
 * tenants and payments: this month's payments and revenue, and the counts.
 */
module Dashboard {
  import opened Js
  import opened Records
  import TenantDetail

  /** The two-digit text of a month number, as `String(m).padStart(2, '0')` gives it. */
  function MonthText(month: nat): string {
    PadStart2(NatToString(month))
  }

  /** A payment of the current month: year and month strictly equal to the current ones. */
  predicate InMonth(p: Payment, currentMonthIndex: nat, currentYear: int) {
    StrictEq(p.year, Num(currentYear)) && StrictEq(p.month, Str(MonthText(currentMonthIndex + 1)))
  }

  /** `monthlyPayments`; `currentMonthIndex` is `getMonth()`, from 0 for January. */
  function MonthlyPayments(ps: seq<Payment>, currentMonthIndex: nat, currentYear: int): (r: seq<Payment>)
    ensures forall i :: 0 <= i < |r| ==> r[i].year == Num(currentYear) && r[i].month == Str(MonthText(currentMonthIndex + 1))
  {
    Where(ps, InMonthFilter(currentMonthIndex, currentYear))
  }

  function InMonthFilter(currentMonthIndex: nat, currentYear: int): Payment -> bool {
    (p: Payment) => InMonth(p, currentMonthIndex, currentYear)
  }

  /**
   * Exactly this month's payments are kept, in their order: a payment is kept
   * iff it is fetched and its year and month are strictly the current ones.
   */
  lemma MonthlyPaymentsExact(ps: seq<Payment>, m: nat, y: int, p: Payment)
    ensures p in MonthlyPayments(ps, m, y) <==> p in ps && InMonth(p, m, y)
    ensures IsSubseq(MonthlyPayments(ps, m, y), ps)
  {
    WhereMembership(ps, InMonthFilter(m, y), p);
    WhereIsSubseq(ps, InMonthFilter(m, y));
  }

  function RevenueShare(p: Payment): int {
    PaidValue(p)
  }

  /** `monthlyRevenue`: what was paid on this month's paid payments; late fees are not included. */
  function MonthlyRevenue(ps: seq<Payment>, currentMonthIndex: nat, currentYear: int): int {
    Sum(Where(MonthlyPayments(ps, currentMonthIndex, currentYear), TenantDetail.IsPaid), RevenueShare)
  }

  predicate ActiveTenant(t: Tenant) { t.status == Some("active") }

  datatype Stats = Stats(
    totalApartments: nat,
    totalHouses: nat,
    occupiedHouses: nat,
    availableHouses: nat,
    maintenanceHouses: nat,
    totalTenants: nat,
    totalPayments: nat,
    monthlyRevenue: int)

  /** The stats stored after the fetch. */
  function DashboardStats<A>(apartments: seq<A>, houses: seq<House>, tenants: seq<Tenant>, payments: seq<Payment>,
                             currentMonthIndex: nat, currentYear: int): (r: Stats)
    ensures r.totalApartments == |apartments| && r.totalHouses == |houses| && r.totalPayments == |payments|
  {
    Stats(
      |apartments|,
      |houses|,
      Count(houses, IsOccupied),
      Count(houses, IsAvailable),
      Count(houses, IsUnderMaintenance),
      Count(tenants, ActiveTenant),
      |payments|,
      MonthlyRevenue(payments, currentMonthIndex, currentYear))
  }

  /** A unit has one status, so the three counts together never exceed the units. */
  lemma UnitCountsWithinTotal<A>(apartments: seq<A>, houses: seq<House>, tenants: seq<Tenant>, payments: seq<Payment>,
                                 m: nat, y: int)
    ensures var s := DashboardStats(apartments, houses, tenants, payments, m, y);
            s.occupiedHouses + s.availableHouses + s.maintenanceHouses <= s.totalHouses
  {
    CountDisjoint3(houses, IsOccupied, IsAvailable, IsUnderMaintenance);
  }

  /** Exactly the tenants whose status is 'active' are counted; other or missing statuses are not. */
  lemma ActiveTenantsCounted(tenants: seq<Tenant>, t: Tenant)
    ensures t in Where(tenants, ActiveTenant) <==> t in tenants && t.status == Some("active")
  {
    WhereMembership(tenants, ActiveTenant, t);
  }

  function PaidRevenue(p: Payment): int {
    if TenantDetail.IsPaid(p) then PaidValue(p) else 0
  }

  function MonthRevenueOnly(currentMonthIndex: nat, currentYear: int): Payment -> int {
    (p: Payment) => if InMonth(p, currentMonthIndex, currentYear) && TenantDetail.IsPaid(p) then PaidValue(p) else 0
  }

  /**
   * The revenue is one pass over all payments, adding what was paid on each
   * paid payment of this month and nothing for the others.
   */
  lemma RevenueIsMonthPaidSum(ps: seq<Payment>, m: nat, y: int)
    ensures MonthlyRevenue(ps, m, y) == Sum(ps, MonthRevenueOnly(m, y))
  {
    var monthly := MonthlyPayments(ps, m, y);
    SumWhere(monthly, TenantDetail.IsPaid, RevenueShare, PaidRevenue);
    SumWhere(ps, InMonthFilter(m, y), PaidRevenue, MonthRevenueOnly(m, y));
  }

  /** The month's text is always two digits: '01' to '09', then '10' to '12'. */
  lemma MonthTextTwoDigits(month: nat)
    requires 1 <= month <= 12
    ensures |MonthText(month)| == 2
    ensures month < 10 ==> MonthText(month) == ['0', DigitChar(month)]
  {
  }
}
