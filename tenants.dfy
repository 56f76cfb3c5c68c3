/**
 * The tenant list: narrowing by apartment and by a search text, and the
 * tenant form's contents when editing and after a reset.
 */
module Tenants {
  import opened Js
  import opened Records

  /** The apartment of a tenant's unit: `house?.apartment`. */
  function ApartmentOf(t: Tenant): JsVal {
    Get(t.house, "apartment")
  }

  /** `house?.apartment?._id === selected || house?.apartment === selected` */
  predicate InApartment(t: Tenant, selected: string) {
    StrictEq(Get(ApartmentOf(t), "_id"), Str(selected)) || StrictEq(ApartmentOf(t), Str(selected))
  }

  function InApartmentFilter(selected: string): Tenant -> bool {
    t => InApartment(t, selected)
  }

  /** `house?.houseNumber?.toLowerCase().includes(query)` */
  predicate HouseNumberMatches(t: Tenant, query: string) {
    var n := Get(t.house, "houseNumber");
    n.Str? && Contains(Lower(n.s), query)
  }

  /** The search test: names, e-mail and unit number lowercased, the phone as typed. */
  predicate MatchesQuery(t: Tenant, query: string) {
    Contains(Lower(t.firstName), query) ||
    Contains(Lower(t.lastName), query) ||
    Contains(Lower(t.email), query) ||
    Contains(t.phone, query) ||
    HouseNumberMatches(t, query)
  }

  function MatchesFilter(query: string): Tenant -> bool {
    t => MatchesQuery(t, query)
  }

  /** The list `filterTenants` stores, stage by stage. */
  function TenantsShown(tenants: seq<Tenant>, selectedApartment: string, searchQuery: string): seq<Tenant> {
    var byApartment := if selectedApartment != "all" then Where(tenants, InApartmentFilter(selectedApartment)) else tenants;
    if !IsBlank(searchQuery) then Where(byApartment, MatchesFilter(Lower(searchQuery))) else byApartment
  }

  /** `filterTenants` */
  method FilterTenants(tenants: seq<Tenant>, selectedApartment: string, searchQuery: string) returns (filtered: seq<Tenant>)
    ensures filtered == TenantsShown(tenants, selectedApartment, searchQuery)
    ensures IsSubseq(filtered, tenants)
  {
    filtered := tenants;
    SubseqRefl(tenants);
    if selectedApartment != "all" {
      WhereIsSubseq(filtered, InApartmentFilter(selectedApartment));
      filtered := Where(filtered, InApartmentFilter(selectedApartment));
    }
    if !IsBlank(searchQuery) {
      var query := Lower(searchQuery);
      WhereIsSubseq(filtered, MatchesFilter(query));
      SubseqTrans(Where(filtered, MatchesFilter(query)), filtered, tenants);
      filtered := Where(filtered, MatchesFilter(query));
    }
  }

  /** With every apartment and a blank search, all tenants are listed in their order. */
  lemma AllAndBlankKeepsAll(tenants: seq<Tenant>, searchQuery: string)
    requires IsBlank(searchQuery)
    ensures TenantsShown(tenants, "all", searchQuery) == tenants
  {
  }

  /**
   * A tenant is listed exactly when it is in the selected apartment (unless
   * every apartment is selected) and, for a non-blank search, matches it.
   */
  lemma ShownIff(tenants: seq<Tenant>, selectedApartment: string, searchQuery: string, t: Tenant)
    ensures t in TenantsShown(tenants, selectedApartment, searchQuery) <==>
            t in tenants &&
            (selectedApartment == "all" || InApartment(t, selectedApartment)) &&
            (IsBlank(searchQuery) || MatchesQuery(t, Lower(searchQuery)))
  {
    var byApartment := if selectedApartment != "all" then Where(tenants, InApartmentFilter(selectedApartment)) else tenants;
    if selectedApartment != "all" {
      WhereMembership(tenants, InApartmentFilter(selectedApartment), t);
    }
    if !IsBlank(searchQuery) {
      WhereMembership(byApartment, MatchesFilter(Lower(searchQuery)), t);
    }
  }

  /** A tenant without a unit is never in a selected apartment. */
  lemma NoHouseNoApartment(t: Tenant, selected: string)
    requires t.house == Undef || t.house == Null
    ensures !InApartment(t, selected)
  {
  }

  /**
   * The phone is compared as typed against the lowercased query: a phone
   * holding the query matches, but a tenant found only by a phone with
   * capitals, such as "ABC", is not found by searching for that text.
   */
  lemma PhoneComparedRaw(t: Tenant, query: string)
    ensures Contains(t.phone, query) ==> MatchesQuery(t, query)
    ensures t.firstName == "" && t.lastName == "" && t.email == "" && t.phone == "ABC" && !t.house.Obj? ==>
              Contains(t.phone, "ABC") && !MatchesQuery(t, Lower("ABC"))
  {
    if t.firstName == "" && t.lastName == "" && t.email == "" && t.phone == "ABC" && !t.house.Obj? {
      var q := Lower("ABC");
      assert q == "abc";
      assert IsPrefix("ABC", t.phone);
      if Contains(t.phone, q) {
        var i := ContainsWitness(t.phone, q);
        assert false;
      }
    }
  }

  // ---------------------------------------------------------------- the form

  datatype TenantForm = TenantForm(
    firstName: string,
    lastName: string,
    email: string,
    phone: string,
    bankAccountNumber: string,
    bankName: string,
    leaseStartDate: string,
    leaseEndDate: string,
    emergencyContact: JsVal,
    status: Option<string>)

  /** `{ name: '', phone: '' }` */
  function EmptyContact(): JsVal {
    Obj(map["name" := Str(""), "phone" := Str("")])
  }

  /** `resetForm` */
  function EmptyForm(): TenantForm {
    TenantForm("", "", "", "", "", "Equity", "", "", EmptyContact(), Some("active"))
  }

  /**
   * The reset form and the edit form agree on their defaults: editing an active
   * tenant with every text field empty, no lease dates and no emergency contact
   * gives exactly the reset form, so the bank name and contact defaults match.
   */
  lemma EditOfBlankTenantIsReset(t: Tenant)
    requires t.firstName == "" && t.lastName == "" && t.email == "" && t.phone == ""
    requires t.bankAccountNumber == "" && t.bankName == "" && t.status == Some("active")
    requires t.leaseStartDate.None? && t.leaseEndDate.None? && !Truthy(t.emergencyContact)
    ensures EditForm(t) == EmptyForm()
  {
  }

  /** `handleEdit(tenant)` */
  function EditForm(t: Tenant): (r: TenantForm)
    ensures r.firstName == t.firstName && r.lastName == t.lastName && r.email == t.email && r.phone == t.phone
    ensures r.status == t.status && r.bankAccountNumber == t.bankAccountNumber
    ensures r.bankName == if t.bankName != "" then t.bankName else "Equity"
    ensures r.leaseStartDate == DatePart(t.leaseStartDate) && r.leaseEndDate == DatePart(t.leaseEndDate)
    ensures !Truthy(t.emergencyContact) ==> r.emergencyContact == EmptyContact()
    ensures Truthy(t.emergencyContact) ==> r.emergencyContact == t.emergencyContact
  {
    TenantForm(
      t.firstName, t.lastName, t.email, t.phone,
      t.bankAccountNumber,
      if t.bankName != "" then t.bankName else "Equity",
      DatePart(t.leaseStartDate),
      DatePart(t.leaseEndDate),
      Or(t.emergencyContact, EmptyContact()),
      t.status)
  }

  /** The lease dates in the form are the date parts: no 'T', a prefix of the stored text, '' when absent. */
  lemma EditFormDates(t: Tenant)
    ensures t.leaseStartDate.None? ==> EditForm(t).leaseStartDate == ""
    ensures t.leaseStartDate.Some? ==>
              IsPrefix(EditForm(t).leaseStartDate, t.leaseStartDate.value) && 'T' !in EditForm(t).leaseStartDate
    ensures t.leaseStartDate.Some? && 'T' !in t.leaseStartDate.value ==> EditForm(t).leaseStartDate == t.leaseStartDate.value
  {
  }
}
