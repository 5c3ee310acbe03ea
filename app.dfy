/** The application shell (App.tsx): the month cursor, the month filters,
    the state the store subscriptions and handlers update, and which view
    is shown with which data. */
module App {
  import opened Types
  import opened Seqs
  import opened Calendar
  import opened FirestoreService
  import opened Reports

  datatype Direction = Prev | Next

  datatype View = Home | ReportsView | BudgetsView

  /** `handleMonthChange`: `new Date(year, month ± 1, 1)`. One month away
      from the cursor, except that a cursor year from 0 to 99 is first read
      as 1900 + year. */
  function Advance(cursor: YearMonth, dir: Direction): (r: YearMonth)
    ensures !(0 <= cursor.year <= 99) ==>
              MonthOrdinal(r) == MonthOrdinal(cursor) + (if dir == Prev then -1 else 1)
    ensures 0 <= cursor.year <= 99 ==>
              MonthOrdinal(r) == MonthOrdinal(cursor) + 1900 * 12 + (if dir == Prev then -1 else 1)
  {
    NewDate(cursor.year, cursor.month + (if dir == Prev then -1 else 1))
  }

  /** December steps forward into January of the next year, January back
      into December of the previous one; other months keep their year. The
      year is the one `new Date` reads: 1900 + year for years 0 to 99. */
  lemma AdvanceRollsOver(cursor: YearMonth, dir: Direction)
    ensures dir == Next && cursor.month == 11 ==> Advance(cursor, dir) == YearMonth(DateYear(cursor.year) + 1, 0)
    ensures dir == Prev && cursor.month == 0 ==> Advance(cursor, dir) == YearMonth(DateYear(cursor.year) - 1, 11)
    ensures dir == Next && cursor.month < 11 ==> Advance(cursor, dir) == YearMonth(DateYear(cursor.year), cursor.month + 1)
    ensures dir == Prev && cursor.month > 0 ==> Advance(cursor, dir) == YearMonth(DateYear(cursor.year), cursor.month - 1)
  {
    var r, y := Advance(cursor, dir), DateYear(cursor.year);
    if dir == Next && cursor.month == 11 {
      MonthOrdinalInjective(r, YearMonth(y + 1, 0));
    } else if dir == Prev && cursor.month == 0 {
      MonthOrdinalInjective(r, YearMonth(y - 1, 11));
    } else if dir == Next {
      MonthOrdinalInjective(r, YearMonth(y, cursor.month + 1));
    } else {
      MonthOrdinalInjective(r, YearMonth(y, cursor.month - 1));
    }
  }

  /** Stepping back and then forward, or forward and then back, returns to
      the same month when neither the cursor nor the month in between lies
      in the years 0 to 99; a cursor in those years comes back 1900 years later. */
  lemma AdvanceRoundTrip(cursor: YearMonth)
    ensures !(0 <= cursor.year <= 99) && !(0 <= Advance(cursor, Prev).year <= 99) ==>
              Advance(Advance(cursor, Prev), Next) == cursor
    ensures !(0 <= cursor.year <= 99) && !(0 <= Advance(cursor, Next).year <= 99) ==>
              Advance(Advance(cursor, Next), Prev) == cursor
    ensures 0 <= cursor.year <= 99 ==>
              && Advance(Advance(cursor, Prev), Next) == YearMonth(cursor.year + 1900, cursor.month)
              && Advance(Advance(cursor, Next), Prev) == YearMonth(cursor.year + 1900, cursor.month)
  {
    var back, ahead := Advance(cursor, Prev), Advance(cursor, Next);
    if 0 <= cursor.year <= 99 {
      MonthOrdinalInjective(Advance(back, Next), YearMonth(cursor.year + 1900, cursor.month));
      MonthOrdinalInjective(Advance(ahead, Prev), YearMonth(cursor.year + 1900, cursor.month));
    } else {
      if !(0 <= back.year <= 99) {
        MonthOrdinalInjective(Advance(back, Next), cursor);
      }
      if !(0 <= ahead.year <= 99) {
        MonthOrdinalInjective(Advance(ahead, Prev), cursor);
      }
    }
  }

  /** Where the years 0 to 99 break the arrows: December of year 99 steps
      forward into January 2000, and January of year 100 steps back into
      December of year 99 and then forward into January 2000. */
  lemma AdvanceTwoDigitYears()
    ensures Advance(YearMonth(99, 11), Next) == YearMonth(2000, 0)
    ensures Advance(YearMonth(100, 0), Prev) == YearMonth(99, 11)
    ensures Advance(Advance(YearMonth(100, 0), Prev), Next) == YearMonth(2000, 0)
  {
    MonthOrdinalInjective(Advance(YearMonth(99, 11), Next), YearMonth(2000, 0));
    MonthOrdinalInjective(Advance(YearMonth(100, 0), Prev), YearMonth(99, 11));
  }

  /** `monthlyTransactions`: the transactions with a date in the cursor's
      month (same year, same 0-based month), in order; undated ones drop out. */
  function MonthlyTransactions(txs: seq<Transaction>, cursor: YearMonth): (r: seq<Transaction>)
    ensures forall tx :: tx in r <==>
              tx in txs && tx.date.Some? && tx.date.value.year == cursor.year && tx.date.value.month == cursor.month
    ensures IsSubsequence(r, txs)
  {
    Filter(txs, InMonth(cursor))
  }

  /** `monthlyBudgets`: the budgets stored for the cursor's year and its
      1-based month, in order. */
  function MonthlyBudgets(budgets: seq<Budget>, cursor: YearMonth): (r: seq<Budget>)
    ensures forall b :: b in r <==> b in budgets && b.year == cursor.year && b.month == cursor.month + 1
    ensures IsSubsequence(r, budgets)
  {
    Filter(budgets, (b: Budget) => b.year == cursor.year && b.month == cursor.month + 1)
  }

  /** `{ id: doc.id, ...doc.data(), date: doc.data().date.toDate() }` */
  function TransactionFromDoc(id: string, doc: TransactionDoc): (tx: Transaction)
    ensures tx.id == id && tx.date == Some(ToDate(doc.date))
  {
    Transaction(id, doc.description, doc.amount, doc.kind, Some(ToDate(doc.date)), doc.categoryId)
  }

  /** `{ id: doc.id, ...doc.data() }` for a category. */
  function CategoryFromDoc(id: string, doc: CategoryFields): (c: Category)
    ensures c.id == id
    ensures CategoryFields(c.name, c.icon, c.kind) == doc
  {
    Category(id, doc.name, doc.icon, doc.kind)
  }

  /** `{ id: doc.id, ...doc.data() }` for a budget. */
  function BudgetFromDoc(id: string, doc: BudgetFields): (b: Budget)
    ensures b.id == id
    ensures BudgetFields(b.year, b.month, b.categoryId, b.amount) == doc
  {
    Budget(id, doc.year, doc.month, doc.categoryId, doc.amount)
  }

  /** A submitted draft, once stored and read back, is the transaction the
      form described, and it is listed in the month of its date. */
  lemma StoredDraftReadsBack(id: string, draft: TransactionDraft)
    ensures TransactionFromDoc(id, TransactionDocOf(draft)) ==
            Transaction(id, draft.description, draft.amount, draft.kind, Some(draft.date), draft.categoryId)
    ensures TransactionFromDoc(id, TransactionDocOf(draft)) in
            MonthlyTransactions([TransactionFromDoc(id, TransactionDocOf(draft))], MonthOf(draft.date))
  {
  }

  /** A budget set while the cursor is on a month is read back under its
      key as a budget of exactly that month, for that category. */
  lemma StoredBudgetInItsMonth(budget: BudgetFields, cursor: YearMonth, other: YearMonth)
    requires budget.year == cursor.year && budget.month == cursor.month + 1
    ensures var b := BudgetFromDoc(BudgetKey(budget), budget);
            && MonthlyBudgets([b], cursor) == [b]
            && (other != cursor ==> MonthlyBudgets([b], other) == [])
            && ParseBudgetKey(b.id) == Some((cursor.year, cursor.month + 1, budget.categoryId))
  {
    var b := BudgetFromDoc(BudgetKey(budget), budget);
    BudgetKeyRoundTrip(budget);
  }

  /** The message any subscription error shows. */
  const LOAD_ERROR := "无法加载数据，请检查您的Firebase设置和网络连接。"

  /** What `renderContent` shows, with the data each view receives. */
  datatype Content =
    | Loading
    | ErrorMessage(message: string)
    | HomeContent(transactions: seq<Transaction>, categories: seq<Category>)
    | ReportsContent(transactions: seq<Transaction>, categories: seq<Category>)
    | BudgetsContent(categories: seq<Category>, budgets: seq<Budget>, transactions: seq<Transaction>, cursor: YearMonth)

  /** The application's state. */
  class FinanceApp {
    var transactions: seq<Transaction>
    var categories: seq<Category>
    var budgets: seq<Budget>
    var loading: bool
    var error: Option<string>
    var cursor: YearMonth
    var isModalOpen: bool
    var activeView: View

    /** The first render: nothing loaded yet, the cursor on the clock's month `now`. */
    constructor(now: YearMonth)
      ensures transactions == [] && categories == [] && budgets == []
      ensures loading && error == None && cursor == now
      ensures !isModalOpen && activeView == Home
    {
      transactions := [];
      categories := [];
      budgets := [];
      loading := true;
      error := None;
      cursor := now;
      isModalOpen := false;
      activeView := Home;
    }

    /** A transactions snapshot replaces the whole list and ends loading. */
    method OnTransactionsSnapshot(docs: seq<(string, TransactionDoc)>)
      modifies this
      ensures |transactions| == |docs|
      ensures forall i :: 0 <= i < |docs| ==> transactions[i] == TransactionFromDoc(docs[i].0, docs[i].1)
      ensures !loading
      ensures categories == old(categories) && budgets == old(budgets) && error == old(error)
      ensures cursor == old(cursor) && isModalOpen == old(isModalOpen) && activeView == old(activeView)
    {
      transactions := seq(|docs|, i requires 0 <= i < |docs| => TransactionFromDoc(docs[i].0, docs[i].1));
      loading := false;
    }

    /** A categories snapshot replaces only the categories. */
    method OnCategoriesSnapshot(docs: seq<(string, CategoryFields)>)
      modifies this
      ensures |categories| == |docs|
      ensures forall i :: 0 <= i < |docs| ==> categories[i] == CategoryFromDoc(docs[i].0, docs[i].1)
      ensures transactions == old(transactions) && budgets == old(budgets) && error == old(error)
      ensures loading == old(loading)
      ensures cursor == old(cursor) && isModalOpen == old(isModalOpen) && activeView == old(activeView)
    {
      categories := seq(|docs|, i requires 0 <= i < |docs| => CategoryFromDoc(docs[i].0, docs[i].1));
    }

    /** A budgets snapshot replaces only the budgets. */
    method OnBudgetsSnapshot(docs: seq<(string, BudgetFields)>)
      modifies this
      ensures |budgets| == |docs|
      ensures forall i :: 0 <= i < |docs| ==> budgets[i] == BudgetFromDoc(docs[i].0, docs[i].1)
      ensures transactions == old(transactions) && categories == old(categories) && error == old(error)
      ensures loading == old(loading)
      ensures cursor == old(cursor) && isModalOpen == old(isModalOpen) && activeView == old(activeView)
    {
      budgets := seq(|docs|, i requires 0 <= i < |docs| => BudgetFromDoc(docs[i].0, docs[i].1));
    }

    /** `handleError`: any subscription error shows the message and ends loading. */
    method OnError()
      modifies this
      ensures error == Some(LOAD_ERROR) && !loading
      ensures transactions == old(transactions) && categories == old(categories) && budgets == old(budgets)
      ensures cursor == old(cursor) && isModalOpen == old(isModalOpen) && activeView == old(activeView)
    {
      error := Some(LOAD_ERROR);
      loading := false;
    }

    /** The header's month arrows. */
    method ChangeMonth(dir: Direction)
      modifies this
      ensures cursor == Advance(old(cursor), dir)
      ensures transactions == old(transactions) && categories == old(categories) && budgets == old(budgets)
      ensures loading == old(loading) && error == old(error)
      ensures isModalOpen == old(isModalOpen) && activeView == old(activeView)
    {
      cursor := Advance(cursor, dir);
    }

    /** The floating add button, which exists only on the home view. */
    method PressAddButton()
      modifies this
      ensures isModalOpen == (old(isModalOpen) || old(activeView) == Home)
      ensures transactions == old(transactions) && categories == old(categories) && budgets == old(budgets)
      ensures loading == old(loading) && error == old(error)
      ensures cursor == old(cursor) && activeView == old(activeView)
    {
      if activeView == Home {
        isModalOpen := true;
      }
    }

    /** The form's close button. */
    method CloseModal()
      modifies this
      ensures !isModalOpen
      ensures transactions == old(transactions) && categories == old(categories) && budgets == old(budgets)
      ensures loading == old(loading) && error == old(error)
      ensures cursor == old(cursor) && activeView == old(activeView)
    {
      isModalOpen := false;
    }

    /** The bottom navigation. */
    method SelectView(v: View)
      modifies this
      ensures activeView == v
      ensures transactions == old(transactions) && categories == old(categories) && budgets == old(budgets)
      ensures loading == old(loading) && error == old(error)
      ensures cursor == old(cursor) && isModalOpen == old(isModalOpen)
    {
      activeView := v;
    }

    /** `handleAddTransaction`: the draft is written under a newly generated id;
        the form closes only once the write succeeded (`succeeded` stands
        for the outcome of the awaited write), and stays open otherwise. */
    method HandleAddTransaction(draft: TransactionDraft, store: Store, freshId: string, succeeded: bool)
      requires freshId !in store.transactions
      modifies this, store
      ensures isModalOpen == (old(isModalOpen) && !succeeded)
      ensures store.transactions == if succeeded then old(store.transactions)[freshId := TransactionDocOf(draft)]
                                    else old(store.transactions)
      ensures |store.transactions| == |old(store.transactions)| + (if succeeded then 1 else 0)
      ensures store.categories == old(store.categories) && store.budgets == old(store.budgets)
      ensures transactions == old(transactions) && categories == old(categories) && budgets == old(budgets)
      ensures loading == old(loading) && error == old(error)
      ensures cursor == old(cursor) && activeView == old(activeView)
    {
      if succeeded {
        store.AddTransaction(draft, freshId);
        isModalOpen := false;
      }
    }

    /** `renderContent`: loading first, then an error, then the active view.
        The reports receive every transaction; the home and budget views
        receive only the cursor month's transactions, and the budget view
        only the cursor month's budgets. */
    function Render(): (c: Content)
      reads this
      ensures c == Loading <==> loading
      ensures c.ErrorMessage? <==> !loading && error.Some?
      ensures c.ErrorMessage? ==> c.message == error.value
      ensures c.HomeContent? <==> !loading && error.None? && activeView == Home
      ensures c.ReportsContent? <==> !loading && error.None? && activeView == ReportsView
      ensures c.BudgetsContent? <==> !loading && error.None? && activeView == BudgetsView
      ensures c.ReportsContent? ==> c.transactions == transactions
      ensures c.HomeContent? || c.BudgetsContent? ==>
                forall tx :: tx in c.transactions <==>
                  tx in transactions && tx.date.Some? && MonthOf(tx.date.value) == cursor
      ensures c.BudgetsContent? ==>
                && c.cursor == cursor
                && forall b :: b in c.budgets <==> b in budgets && b.year == cursor.year && b.month == cursor.month + 1
      ensures c.HomeContent? || c.ReportsContent? || c.BudgetsContent? ==> c.categories == categories
    {
      if loading then Loading
      else if error.Some? then ErrorMessage(error.value)
      else match activeView
        case ReportsView => ReportsContent(transactions, categories)
        case BudgetsView => BudgetsContent(categories, MonthlyBudgets(budgets, cursor), MonthlyTransactions(transactions, cursor), cursor)
        case Home => HomeContent(MonthlyTransactions(transactions, cursor), categories)
    }
  }

  /** Once a subscription error is reported, the error message stays on
      screen even when a snapshot arrives afterwards. */
  method ErrorOutlastsSnapshots(app: FinanceApp, docs: seq<(string, TransactionDoc)>)
    modifies app
    ensures app.Render() == ErrorMessage(LOAD_ERROR)
  {
    app.OnError();
    app.OnTransactionsSnapshot(docs);
  }
}
