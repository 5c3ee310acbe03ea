/** The budgets view (components/Budgets.tsx): spending per expense category,
    budget progress, setting a budget for the cursor's month, and the
    category manager's create / update / delete routing. */
module Budgets {
  import opened Types
  import opened Seqs
  import opened Ledger
  import opened Calendar
  import opened FirestoreService

  predicate IsExpenseCategory(c: Category) {
    c.kind == Expense
  }

  /** `expenseCategories`: the expense categories, in their order. */
  function ExpenseCategories(cats: seq<Category>): (r: seq<Category>)
    ensures forall c :: c in r <==> c in cats && c.kind == Expense
    ensures IsSubsequence(r, cats)
  {
    Filter(cats, IsExpenseCategory)
  }

  /** The expense transactions of one category. */
  function ExpenseOf(categoryId: string): Transaction -> bool {
    tx => IsExpense(tx) && tx.categoryId == categoryId
  }

  /** `monthlyExpenses[id] || 0`: an absent category has spent nothing. */
  function Spent(expenses: map<string, real>, categoryId: string): real {
    if categoryId in expenses then expenses[categoryId] else 0.0
  }

  /** The dictionary `monthlyExpenses` builds: each expense adds its amount
      to the entry of its category, creating the entry on first use. */
  function ExpenseByCategory(txs: seq<Transaction>): map<string, real> {
    if txs == [] then map[]
    else AddExpense(ExpenseByCategory(txs[..|txs| - 1]), txs[|txs| - 1])
  }

  /** One transaction of the `forEach`; income leaves the dictionary alone. */
  function AddExpense(m: map<string, real>, tx: Transaction): map<string, real> {
    if IsExpense(tx) then m[tx.categoryId := Spent(m, tx.categoryId) + tx.amount] else m
  }

  /** `monthlyExpenses`: the expense transactions, then a `forEach` that adds
      each amount into the dictionary. */
  method MonthlyExpenses(txs: seq<Transaction>) returns (expenses: map<string, real>)
    ensures expenses == ExpenseByCategory(txs)
  {
    expenses := AddUpExpenses(Filter(txs, IsExpense));
    ExpenseByCategoryOfExpenses(txs);
  }

  /** The `forEach` of `monthlyExpenses` over transactions already filtered to expenses. */
  method AddUpExpenses(expenseTxs: seq<Transaction>) returns (expenses: map<string, real>)
    requires forall i :: 0 <= i < |expenseTxs| ==> IsExpense(expenseTxs[i])
    ensures expenses == ExpenseByCategory(expenseTxs)
  {
    expenses := map[];
    for i := 0 to |expenseTxs|
      invariant expenses == ExpenseByCategory(expenseTxs[..i])
    {
      var tx := expenseTxs[i];
      assert expenseTxs[..i + 1] == expenseTxs[..i] + [tx];
      ExpenseByCategorySnoc(expenseTxs[..i], tx);
      expenses := expenses[tx.categoryId := Spent(expenses, tx.categoryId) + tx.amount];
    }
    assert expenseTxs[..|expenseTxs|] == expenseTxs;
  }

  /** Filtering the expenses first changes nothing: income never reaches the dictionary. */
  lemma {:induction false} ExpenseByCategoryOfExpenses(txs: seq<Transaction>)
    ensures ExpenseByCategory(Filter(txs, IsExpense)) == ExpenseByCategory(txs)
  {
    if txs != [] {
      var init, tx := txs[..|txs| - 1], txs[|txs| - 1];
      assert txs == init + [tx];
      ExpenseByCategoryOfExpenses(init);
      FilteredExpensesSnoc(init, tx);
    }
  }

  lemma FilteredExpensesSnoc(init: seq<Transaction>, tx: Transaction)
    requires ExpenseByCategory(Filter(init, IsExpense)) == ExpenseByCategory(init)
    ensures ExpenseByCategory(Filter(init + [tx], IsExpense)) == ExpenseByCategory(init + [tx])
  {
    FilterSnoc(init, tx, IsExpense);
    var f := Filter(init, IsExpense);
    ExpenseByCategorySnoc(init, tx);
    if IsExpense(tx) {
      ExpenseByCategorySnoc(f, tx);
    } else {
      assert f + [] == f;
    }
  }

  lemma ExpenseByCategorySnoc(txs: seq<Transaction>, tx: Transaction)
    ensures ExpenseByCategory(txs + [tx]) == AddExpense(ExpenseByCategory(txs), tx)
  {
    assert (txs + [tx])[..|txs|] == txs;
  }

  /** A category has an entry exactly when some expense belongs to it, and
      the spending of every category (zero when absent) is the sum of the
      amounts of its expense transactions. */
  lemma {:induction false} ExpenseByCategoryMeaning(txs: seq<Transaction>)
    ensures forall id :: id in ExpenseByCategory(txs) <==>
              exists i :: 0 <= i < |txs| && IsExpense(txs[i]) && txs[i].categoryId == id
    ensures forall id :: Spent(ExpenseByCategory(txs), id) == SumOf(txs, ExpenseOf(id))
  {
    if txs != [] {
      var init, tx := txs[..|txs| - 1], txs[|txs| - 1];
      ExpenseByCategoryMeaning(init);
      forall id
        ensures Spent(ExpenseByCategory(txs), id) == SumOf(txs, ExpenseOf(id))
      {
        assert txs == init + [tx];
        SumOfSnoc(init, tx, ExpenseOf(id));
      }
      forall id | id in ExpenseByCategory(txs)
        ensures exists i :: 0 <= i < |txs| && IsExpense(txs[i]) && txs[i].categoryId == id
      {
        if id !in ExpenseByCategory(init) {
          assert IsExpense(txs[|txs| - 1]) && txs[|txs| - 1].categoryId == id;
        } else {
          var i :| 0 <= i < |init| && IsExpense(init[i]) && init[i].categoryId == id;
          assert txs[i] == init[i];
        }
      }
      forall id | exists i :: 0 <= i < |txs| && IsExpense(txs[i]) && txs[i].categoryId == id
        ensures id in ExpenseByCategory(txs)
      {
        var i :| 0 <= i < |txs| && IsExpense(txs[i]) && txs[i].categoryId == id;
        if i < |init| {
          assert init[i] == txs[i];
        }
      }
    }
  }

  /** `budgets.find(b => b.categoryId === id)`: the first budget of the category. */
  function FindBudget(budgets: seq<Budget>, categoryId: string): (r: Option<Budget>)
    ensures r.None? <==> forall i :: 0 <= i < |budgets| ==> budgets[i].categoryId != categoryId
    ensures r.Some? ==> exists i :: 0 <= i < |budgets| && budgets[i] == r.value && r.value.categoryId == categoryId
                                   && forall j :: 0 <= j < i ==> budgets[j].categoryId != categoryId
  {
    if budgets == [] then None
    else if budgets[0].categoryId == categoryId then Some(budgets[0])
    else
      var r := FindBudget(budgets[1..], categoryId);
      assert forall i :: 1 <= i < |budgets| ==> budgets[i] == budgets[1..][i - 1];
      r
  }

  /** `budget && budget.amount > 0 ? (spent / budget.amount) * 100 : 0`: the
      spending as a percentage of a positive budget, not capped at 100. */
  function Progress(budget: Option<Budget>, spent: real): (p: real)
    ensures budget.Some? && budget.value.amount > 0.0 ==> p * budget.value.amount == spent * 100.0
    ensures !(budget.Some? && budget.value.amount > 0.0) ==> p == 0.0
  {
    if budget.Some? && budget.value.amount > 0.0 then (spent / budget.value.amount) * 100.0 else 0.0
  }

  /** `Math.min(progress, 100)`: the width of the bar, in percent. */
  function BarWidth(progress: real): real {
    if progress < 100.0 then progress else 100.0
  }

  /** The bar turns red when `progress > 100`. */
  predicate OverBudget(progress: real) {
    progress > 100.0
  }

  /** Against a positive budget the bar is red exactly when more than the
      budget was spent; it never grows past full width, and below the
      budget its width is the progress itself. */
  lemma OverBudgetIffOverspent(b: Budget, spent: real)
    requires b.amount > 0.0
    ensures OverBudget(Progress(Some(b), spent)) <==> spent > b.amount
    ensures BarWidth(Progress(Some(b), spent)) <= 100.0
    ensures spent <= b.amount ==> BarWidth(Progress(Some(b), spent)) == Progress(Some(b), spent)
  {
    var p := Progress(Some(b), spent);
    assert p * b.amount == spent * 100.0;
    if p > 100.0 {
      assert p * b.amount > 100.0 * b.amount;
    } else {
      assert p * b.amount <= 100.0 * b.amount;
    }
  }

  /** One row of `BudgetManager`. */
  datatype BudgetLine = BudgetLine(category: Category, budget: Option<Budget>, spent: real, progress: real)

  /** `BudgetManager`: one row per expense category, in order, with the
      category's budget, what was spent in it and the progress. */
  function BudgetLines(cats: seq<Category>, budgets: seq<Budget>, txs: seq<Transaction>): (lines: seq<BudgetLine>)
    ensures |lines| == |ExpenseCategories(cats)|
    ensures forall i :: 0 <= i < |lines| ==>
              && lines[i].category == ExpenseCategories(cats)[i]
              && lines[i].budget == FindBudget(budgets, lines[i].category.id)
              && lines[i].spent == SumOf(txs, ExpenseOf(lines[i].category.id))
              && lines[i].progress == Progress(lines[i].budget, lines[i].spent)
  {
    var categories, expenses := ExpenseCategories(cats), ExpenseByCategory(txs);
    ExpenseByCategoryMeaning(txs);
    seq(|categories|, i requires 0 <= i < |categories| =>
      var c := categories[i];
      var b := FindBudget(budgets, c.id);
      var spent := Spent(expenses, c.id);
      BudgetLine(c, b, spent, Progress(b, spent)))
  }

  /** `handleSetBudget(categoryId, parseFloat(input) || 0)`: the budget of
      the cursor's month, with its 1-based month; an input that does not
      parse (`None`) becomes 0. */
  function BudgetFor(cursor: YearMonth, categoryId: string, input: Option<real>): (b: BudgetFields)
    ensures b.year == cursor.year && b.month == cursor.month + 1 && 1 <= b.month <= 12
    ensures b.categoryId == categoryId
    ensures input.None? ==> b.amount == 0.0
    ensures input.Some? ==> b.amount == input.value
  {
    BudgetFields(cursor.year, cursor.month + 1, categoryId, if input.Some? then input.value else 0.0)
  }

  /** Leaving a budget field: writes the budget of the cursor's month. The
      write is not awaited; `succeeded` stands for whether the store accepts
      it, and a rejected write leaves the store as it was. */
  method SetBudget(store: Store, cursor: YearMonth, categoryId: string, input: Option<real>, succeeded: bool)
    modifies store
    ensures succeeded ==> store.budgets == WithBudget(old(store.budgets), BudgetFor(cursor, categoryId, input))
    ensures !succeeded ==> store.budgets == old(store.budgets)
    ensures store.transactions == old(store.transactions) && store.categories == old(store.categories)
  {
    if succeeded {
      store.SetBudget(BudgetFor(cursor, categoryId, input));
    }
  }

  /** The id of the category being created rather than edited. */
  const NEW_CATEGORY_ID := "new"

  /** The category form's state (`editingCategory`). */
  class CategoryEditor {
    var editing: Option<Category>

    constructor()
      ensures editing == None
    {
      editing := None;
    }

    /** "新增分类": a blank expense category with the sentinel id. */
    method StartNew()
      modifies this
      ensures editing == Some(Category(NEW_CATEGORY_ID, "", "FoodIcon", Expense))
    {
      editing := Some(Category(NEW_CATEGORY_ID, "", "FoodIcon", Expense));
    }

    /** "编辑": edit an existing category. */
    method StartEdit(c: Category)
      modifies this
      ensures editing == Some(c)
    {
      editing := Some(c);
    }

    /** Picking an icon in the open form. */
    method SelectIcon(icon: string)
      modifies this
      ensures old(editing).None? ==> editing == None
      ensures old(editing).Some? ==> editing == Some(old(editing).value.(icon := icon))
    {
      if editing.Some? {
        editing := Some(editing.value.(icon := icon));
      }
    }

    /** "取消" */
    method Cancel()
      modifies this
      ensures editing == None
    {
      editing := None;
    }

    /** `handleSaveCategory`: with nothing being edited it does nothing;
        the sentinel id creates a category under a newly generated id, any
        other id updates that category; the form is closed afterwards. The
        write is not awaited: `succeeded` stands for whether the store
        accepts it, and the form closes either way. */
    method Save(name: string, icon: string, kind: TransactionType, store: Store, freshId: string, succeeded: bool)
      requires editing.Some? && editing.value.id == NEW_CATEGORY_ID ==> freshId !in store.categories
      modifies this, store
      ensures editing == None
      ensures store.transactions == old(store.transactions) && store.budgets == old(store.budgets)
      ensures old(editing).None? || !succeeded ==> store.categories == old(store.categories)
      ensures old(editing).Some? && old(editing).value.id == NEW_CATEGORY_ID && succeeded ==>
                && store.categories == old(store.categories)[freshId := CategoryFields(name, icon, kind)]
                && |store.categories| == |old(store.categories)| + 1
      ensures old(editing).Some? && old(editing).value.id != NEW_CATEGORY_ID && succeeded ==>
                var id := old(editing).value.id;
                store.categories == if id in old(store.categories)
                                    then old(store.categories)[id := CategoryFields(name, icon, kind)]
                                    else old(store.categories)
    {
      if editing.None? {
        return;
      }
      if succeeded {
        if editing.value.id == NEW_CATEGORY_ID {
          store.AddCategory(CategoryFields(name, icon, kind), freshId);
        } else {
          var _ := store.UpdateCategory(editing.value.id, CategoryPatch(Some(name), Some(icon), Some(kind)));
        }
      }
      editing := None;
    }
  }

  /** "删除": `window.confirm(...) && deleteCategory(cat.id)`. The delete is
      not awaited: `succeeded` stands for whether the store accepts it. */
  method DeleteCategory(store: Store, c: Category, confirmed: bool, succeeded: bool)
    modifies store
    ensures store.categories == if confirmed && succeeded then old(store.categories) - {c.id} else old(store.categories)
    ensures store.transactions == old(store.transactions) && store.budgets == old(store.budgets)
  {
    if confirmed && succeeded {
      store.DeleteCategory(c.id);
    }
  }
}
