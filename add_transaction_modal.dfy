/** The add-transaction form (components/AddTransactionModal.tsx): its field
    state, the category picker and the submit guard. */
module AddTransactionModal {
  import opened Types
  import opened Seqs
  import opened Calendar
  import opened FirestoreService

  /** `filteredCategories`: the categories of the selected type, in order. */
  function FilteredCategories(cats: seq<Category>, kind: TransactionType): (r: seq<Category>)
    ensures forall c :: c in r <==> c in cats && c.kind == kind
    ensures IsSubsequence(r, cats)
  {
    Filter(cats, (c: Category) => c.kind == kind)
  }

  /** The form's state: the selected type and the raw text of each field. */
  class TransactionForm {
    var kind: TransactionType
    var amount: string
    var description: string
    var categoryId: string
    var date: string

    /** A fresh form: an expense with empty fields, dated today (`today`
        stands for the clock). */
    constructor(today: CalendarDate)
      ensures kind == Expense && amount == [] && description == [] && categoryId == []
      ensures date == DayKey(today)
    {
      kind := Expense;
      amount := [];
      description := [];
      categoryId := [];
      date := DayKey(today);
    }

    /** The picker's categories for the current type. */
    function Picker(cats: seq<Category>): seq<Category>
      reads this
    {
      FilteredCategories(cats, kind)
    }

    /** The "支出" / "收入" buttons: only the type changes; a category picked
        under the other type stays selected. */
    method SelectType(k: TransactionType)
      modifies this
      ensures kind == k
      ensures amount == old(amount) && description == old(description)
      ensures categoryId == old(categoryId) && date == old(date)
    {
      kind := k;
    }

    method SetAmount(s: string)
      modifies this
      ensures amount == s
      ensures kind == old(kind) && description == old(description)
      ensures categoryId == old(categoryId) && date == old(date)
    {
      amount := s;
    }

    method SetDescription(s: string)
      modifies this
      ensures description == s
      ensures kind == old(kind) && amount == old(amount)
      ensures categoryId == old(categoryId) && date == old(date)
    {
      description := s;
    }

    /** Clicking a category in the picker. */
    method SelectCategory(id: string)
      modifies this
      ensures categoryId == id
      ensures kind == old(kind) && amount == old(amount)
      ensures description == old(description) && date == old(date)
    {
      categoryId := id;
    }

    method SetDate(s: string)
      modifies this
      ensures date == s
      ensures kind == old(kind) && amount == old(amount)
      ensures description == old(description) && categoryId == old(categoryId)
    {
      date := s;
    }

    /** `handleSubmit`: no draft when any field is empty; otherwise the
        draft carries the type, category and description unchanged, the
        amount as `parseFloat` reads it and the date as `new Date` reads it. */
    method Submit(parseAmount: string -> real, parseDate: string -> CalendarDate) returns (draft: Option<TransactionDraft>)
      ensures draft.None? <==> amount == [] || description == [] || categoryId == [] || date == []
      ensures draft.Some? ==> draft.value.kind == kind && draft.value.categoryId == categoryId
      ensures draft.Some? ==> draft.value.description == description
      ensures draft.Some? ==> draft.value.amount == parseAmount(amount) && draft.value.date == parseDate(date)
    {
      if amount == [] || description == [] || categoryId == [] || date == [] {
        return None;
      }
      draft := Some(TransactionDraft(description, parseAmount(amount), kind, parseDate(date), categoryId));
    }
  }

  /** Picking an expense category and then switching to income submits an
      income draft filed under that expense category, which the income
      picker does not even show. */
  method SwitchTypeAfterPicking(today: CalendarDate, cat: Category, parseAmount: string -> real, parseDate: string -> CalendarDate)
    returns (draft: Option<TransactionDraft>)
    requires cat.kind == Expense && cat.id != []
    ensures draft.Some? && draft.value.kind == Income && draft.value.categoryId == cat.id
    ensures cat !in FilteredCategories([cat], Income)
  {
    var form := new TransactionForm(today);
    assert cat in form.Picker([cat]);
    form.SelectCategory(cat.id);
    form.SetAmount("12");
    form.SetDescription("午餐");
    form.SelectType(Income);
    draft := form.Submit(parseAmount, parseDate);
  }
}
