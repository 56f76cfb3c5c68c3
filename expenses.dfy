/**
 * The expenses page: the expense form, what a saved expense sends, the
 * houses offered for the chosen apartment, and the category colours.
 */
module Expenses {
  import opened Js
  import opened Records

  /** An expense as the server returns it; references are populated objects or raw ids. */
  datatype Expense = Expense(
    id: string,
    apartment: JsVal,
    house: JsVal,
    category: string,
    description: string,
    amount: int,
    expenseDate: Option<string>,
    vendor: string,
    paymentMethod: string,
    receipt: string,
    notes: string,
    maintenanceRequest: JsVal)

  /** The expense form; `amount` is taken as already parsed from the text typed. */
  datatype ExpenseForm = ExpenseForm(
    apartment: JsVal,
    house: JsVal,
    category: string,
    description: string,
    amount: JsVal,
    expenseDate: string,
    vendor: string,
    paymentMethod: string,
    receipt: string,
    notes: string,
    maintenanceRequest: JsVal)

  /** The form of a new expense: spent today, in cash, in the 'other' category. */
  function NewForm(today: string): ExpenseForm {
    ExpenseForm(Str(""), Str(""), "other", "", Str(""), today, "", "cash", "", "", Str(""))
  }


  /**
   * `handleEdit(expense)`: the expense's values, references as ids or '',
   * and the date cut at 'T', or today when the expense has none.
   */
  function EditForm(e: Expense, today: string): (f: ExpenseForm)
    ensures f.apartment == IdOf(e.apartment)
    ensures f.house == IdOrEmpty(e.house) && f.maintenanceRequest == IdOrEmpty(e.maintenanceRequest)
    ensures e.expenseDate.None? || e.expenseDate == Some("") ==> f.expenseDate == today
    ensures e.expenseDate.Some? && e.expenseDate.value != "" ==>
              f.expenseDate == DatePart(e.expenseDate) && IsPrefix(f.expenseDate, e.expenseDate.value) && 'T' !in f.expenseDate
    ensures f.category == e.category && f.description == e.description && f.amount == Num(e.amount)
    ensures f.vendor == e.vendor && f.paymentMethod == e.paymentMethod && f.receipt == e.receipt && f.notes == e.notes
  {
    ExpenseForm(IdOf(e.apartment), IdOrEmpty(e.house), e.category, e.description, Num(e.amount),
                if e.expenseDate.Some? && e.expenseDate.value != "" then DatePart(e.expenseDate) else today,
                e.vendor, e.paymentMethod, e.receipt, e.notes, IdOrEmpty(e.maintenanceRequest))
  }

  /** The data sent on save: the form as entered, with an empty house or maintenance request sent as null. */
  function Payload(f: ExpenseForm): (p: ExpenseForm)
    ensures p == f.(house := p.house, maintenanceRequest := p.maintenanceRequest)
    ensures Truthy(f.house) ==> p.house == f.house
    ensures !Truthy(f.house) ==> p.house == Null
    ensures Truthy(f.maintenanceRequest) ==> p.maintenanceRequest == f.maintenanceRequest
    ensures !Truthy(f.maintenanceRequest) ==> p.maintenanceRequest == Null
  {
    f.(house := Or(f.house, Null), maintenanceRequest := Or(f.maintenanceRequest, Null))
  }

  /** Normalising twice changes nothing more: null stays null and a chosen reference stays chosen. */
  lemma PayloadIdempotent(f: ExpenseForm)
    ensures Payload(Payload(f)) == Payload(f)
  {
  }

  /** An expense opened for editing and saved untouched keeps its references, or sends null for missing ones. */
  lemma EditThenSave(e: Expense, today: string)
    ensures var p := Payload(EditForm(e, today));
            (Truthy(e.house) ==> p.house == IdOf(e.house)) && (!Truthy(e.house) ==> p.house == Null)
  {
  }

  /** The house select: every house when no apartment is chosen, else the chosen apartment's houses. */
  predicate OfApartment(h: House, apartment: JsVal) {
    !Truthy(apartment) || StrictEq(Get(h.apartment, "_id"), apartment) || StrictEq(h.apartment, apartment)
  }

  function OfApartmentFilter(apartment: JsVal): House -> bool {
    (h: House) => OfApartment(h, apartment)
  }

  function HouseOptions(houses: seq<House>, apartment: JsVal): (r: seq<House>)
    ensures forall i :: 0 <= i < |r| ==> OfApartment(r[i], apartment)
  {
    Where(houses, OfApartmentFilter(apartment))
  }

  /** The options keep the houses' order, all houses without an apartment, and exactly the matching houses. */
  lemma HouseOptionsProperties(houses: seq<House>, apartment: JsVal, h: House)
    ensures IsSubseq(HouseOptions(houses, apartment), houses)
    ensures !Truthy(apartment) ==> HouseOptions(houses, apartment) == houses
    ensures h in HouseOptions(houses, apartment) <==> h in houses && OfApartment(h, apartment)
  {
    WhereIsSubseq(houses, OfApartmentFilter(apartment));
    WhereMembership(houses, OfApartmentFilter(apartment), h);
    if !Truthy(apartment) {
      WhereAll(houses, OfApartmentFilter(apartment));
    }
  }

  /** The colours of the known categories. */
  const CategoryColors: map<string, string> := map[
    "maintenance" := "#ef4444", "repair" := "#f59e0b", "utilities" := "#3b82f6",
    "insurance" := "#10b981", "taxes" := "#8b5cf6", "legal" := "#ec4899",
    "marketing" := "#06b6d4", "supplies" := "#84cc16", "other" := "#6b7280"]

  /** `getCategoryColor`: the category's colour, or the 'other' colour. */
  function CategoryColor(category: string): (r: string)
    ensures category in CategoryColors ==> r == CategoryColors[category]
    ensures category !in CategoryColors ==> r == CategoryColors["other"]
  {
    if category in CategoryColors then CategoryColors[category] else CategoryColors["other"]
  }

  /** An unknown category looks like 'other', and every colour shown is one of the nine. */
  lemma CategoryColorFallback(category: string)
    ensures category !in CategoryColors ==> CategoryColor(category) == CategoryColor("other")
    ensures CategoryColor(category) in CategoryColors.Values
  {
  }

  /** A save request. */
  datatype ExpenseCall = Update(expenseId: string, data: ExpenseForm) | Create(data: ExpenseForm)

  class ExpensesPage {
    var formData: ExpenseForm
    var selectedExpense: Option<Expense>
    var showModal: bool

    constructor(today: string)
      ensures formData == NewForm(today) && selectedExpense.None? && !showModal
    {
      formData := NewForm(today);
      selectedExpense := None;
      showModal := false;
    }

    /** Choosing an apartment in the form clears the chosen house. */
    method HandleApartmentChange(apartment: string)
      modifies this
      ensures formData == old(formData).(apartment := Str(apartment), house := Str(""))
      ensures selectedExpense == old(selectedExpense) && showModal == old(showModal)
    {
      formData := formData.(apartment := Str(apartment), house := Str(""));
    }

    /** `handleEdit(expense)`; reading `_id` of a missing apartment throws, so it must be present. */
    method HandleEdit(e: Expense, today: string)
      requires e.apartment != Null && e.apartment != Undef
      modifies this
      ensures formData == EditForm(e, today) && selectedExpense == Some(e) && showModal
    {
      selectedExpense := Some(e);
      formData := EditForm(e, today);
      showModal := true;
    }

    /** `resetForm` */
    method ResetForm(today: string)
      modifies this
      ensures formData == NewForm(today) && selectedExpense.None? && showModal == old(showModal)
    {
      formData := NewForm(today);
      selectedExpense := None;
    }

    /**
     * `handleSubmit`: updates the expense being edited, or creates one, with
     * the normalised form; once the server accepts, the modal closes and the
     * form is reset.
     */
    method HandleSubmit(accepted: bool, today: string) returns (call: ExpenseCall)
      modifies this
      ensures old(selectedExpense).Some? ==> call == Update(old(selectedExpense).value.id, Payload(old(formData)))
      ensures old(selectedExpense).None? ==> call == Create(Payload(old(formData)))
      ensures accepted ==> formData == NewForm(today) && selectedExpense.None? && !showModal
      ensures !accepted ==> formData == old(formData) && selectedExpense == old(selectedExpense) && showModal == old(showModal)
    {
      var data := Payload(formData);
      if selectedExpense.Some? {
        call := Update(selectedExpense.value.id, data);
      } else {
        call := Create(data);
      }
      if accepted {
        showModal := false;
        ResetForm(today);
      }
    }
  }
}
