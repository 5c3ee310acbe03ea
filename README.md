# Finance tracker model

A Dafny model of the bookkeeping core of a small personal-finance web
application (React and TypeScript over a Firestore database). The user
records income and expense transactions, files each one under a category,
sets monthly budgets per expense category, and browses the data month by
month. The model covers what the application computes from its data and
how its state changes:

- **The application shell** (`App.tsx`, module `App`).
  - A month cursor that the header arrows move one month at a time, across year ends, as `new Date(year, month ± 1, 1)` does (it reads a year from 0 to 99 as 1900 + year).
  - The two month filters: transactions by year and 0-based month, budgets by year and 1-based month.
  - A `FinanceApp` class holding the state that the store subscriptions and the handlers overwrite.
  - The precedence of what is shown: loading, then an error, then the active view.
- **The monthly summary** (`components/MonthlySummary.tsx`, module `MonthlySummary`): the income, expense and balance fold.
- **The budgets view** (`components/Budgets.tsx`, module `Budgets`).
  - Spending per expense category, and the budget found for each category.
  - The uncapped progress percentage, the capped bar width, and the red bar.
  - Setting a budget for the cursor's month.
  - The category editor (`CategoryEditor`), which routes a save to create or update.
- **The transaction list** (`components/TransactionList.tsx`, module `TransactionList`).
  - The category map.
  - Grouping by ISO day, with days sorted newest first.
  - The fallback category name `未分类`.
- **The reports** (`components/Reports.tsx`, module `Reports`).
  - The pie data: expense totals per category *name*.
  - The bar data: income and expense for each of the twelve months ending at the clock's month.
- **The persistence layer** (`services/firestoreService.ts`, module `FirestoreService`).
  - A `Store` class with one map per collection.
  - The budget document id `${year}-${month}-${categoryId}`, written as a full overwrite.
  - Seeding the eight default categories when the collection is empty.
  - The field mapping of a new transaction.
- **The add-transaction form** (`components/AddTransactionModal.tsx`, module `AddTransactionModal`).
  - The form state as a class.
  - The category picker filtered by the selected type.
  - The submit guard that rejects empty fields.

Helper modules:

| module | what it models |
|---|---|
| `Types` | the records of `types.ts` |
| `Format` | `String(n)`, `padStart` and the code-point order of strings |
| `Calendar` | JS month arithmetic, the `YYYY-MM-DD` day key and the `YYYY-MM` month key |
| `Seqs` | `Array.prototype.filter` |
| `Dicts` | a JS plain object used as a dictionary, with keys in insertion order |
| `Ledger` | sums of transaction amounts |

Each loop of the source that fills a dictionary or accumulates totals is a
`method` whose loop invariant ties the state to a specification function
over the prefix processed so far. Lemmas then state what that function
means. Components whose state the source overwrites with setters are
classes: `FinanceApp`, `CategoryEditor`, `TransactionForm` and `Store`.

The amount of a transaction is a `real`. A transaction's date is an
`Option`, because the views skip any value that is not a `Date`. Months
are 0-based, as `getMonth()` returns them. A stored budget's month is
1-based.

Two observations about the source:

- The comment on `Budget.id` in `types.ts` gives the id format as `YYYY-MM-categoryId`. The code writes `${year}-${month}-${categoryId}` with an unpadded month (`services/firestoreService.ts:66`). The model follows the code, so January 2024 is `2024-1-…`.
- The pie chart is titled "本月支出分类" (this month's expenses by category). However, the application hands the reports view every transaction (`App.tsx:104`), so the pie totals all expenses ever recorded. The model follows the code: `App.FinanceApp.Render` passes all transactions to `ReportsContent`, and `Reports.PieChartData` sums whatever it is given.

## Model

| member | source | states |
|---|---|---|
| App.Advance | App.tsx:83-85 | the cursor moves exactly one month back (`Prev`) or forward (`Next`), except that a cursor year from 0 to 99 is first read as 1900 + year, as `new Date` reads it |
| App.AdvanceRollsOver | App.tsx:84 | next from December gives January of the following year; previous from January gives December of the year before; every other step keeps the year; the year is the one `new Date` reads (1900 + year for years 0 to 99) |
| App.AdvanceRoundTrip | App.tsx:83-85 | previous then next, and next then previous, return to the same month when neither the cursor nor the month in between lies in the years 0 to 99; a cursor in those years comes back 1900 years later |
| App.AdvanceTwoDigitYears | App.tsx:84 | December of year 99 steps forward into January 2000, and January of year 100 steps back into December of year 99 and then forward into January 2000 |
| App.MonthlyTransactions | App.tsx:68-74 | keeps exactly the transactions with a date whose year and 0-based month are the cursor's, in their order; undated ones are dropped |
| App.MonthlyBudgets | App.tsx:76-80 | keeps exactly the budgets whose year is the cursor's year and whose stored month is the cursor's month + 1, in their order |
| App.TransactionFromDoc | App.tsx:43-47 | a snapshot document becomes a transaction with the document's id and its timestamp read back as a date |
| App.CategoryFromDoc | App.tsx:51 | a category document becomes a category carrying the document's id and every field of the document |
| App.BudgetFromDoc | App.tsx:54 | a budget document becomes a budget carrying the document's id and every field of the document |
| App.StoredDraftReadsBack | App.tsx:43-47 | a submitted draft, stored and read back, is the transaction the form described, and it is listed in the month of its date |
| App.StoredBudgetInItsMonth | App.tsx:76-80 | a budget set while the cursor is on a month is read back as a budget of that month only, and its id parses back to its year, month and category |
| App.FinanceApp.constructor | App.tsx:21-28 | the first state: empty lists, loading, no error, the modal closed, the home view, the cursor on the clock's month |
| App.FinanceApp.OnTransactionsSnapshot | App.tsx:42-49 | a transactions snapshot replaces the whole list and ends loading; nothing else changes |
| App.FinanceApp.OnCategoriesSnapshot | App.tsx:50-52 | a categories snapshot replaces only the categories and leaves loading as it was |
| App.FinanceApp.OnBudgetsSnapshot | App.tsx:53-55 | a budgets snapshot replaces only the budgets and leaves loading as it was |
| App.FinanceApp.OnError | App.tsx:58-62 | any subscription error sets the fixed error message and ends loading; the data stays |
| App.FinanceApp.ChangeMonth | App.tsx:83-85 | only the cursor changes, to the month `Advance` gives in the given direction |
| App.FinanceApp.PressAddButton | App.tsx:129-133 | the add button opens the form only on the home view, where alone it is shown |
| App.FinanceApp.CloseModal | App.tsx:137 | closing the form changes nothing else |
| App.FinanceApp.SelectView | App.tsx:143 | the bottom navigation changes only the active view |
| App.FinanceApp.HandleAddTransaction | App.tsx:87-95 | the draft is stored as one more document, under an id not yet in the collection, and the form closes only when the write succeeds; on failure the form stays open and the store is unchanged |
| App.FinanceApp.Render | App.tsx:98-116 | the loading screen shows exactly while loading, the error message exactly when not loading and an error is set, and otherwise the active view; reports receive every transaction, while home and budgets receive exactly the transactions dated in the cursor's month; budgets receive exactly the budgets of the cursor's year and 1-based month; every view receives the categories unchanged |
| App.ErrorOutlastsSnapshots | App.tsx:42-62 | once an error is reported, a later transactions snapshot does not bring the data back on screen: the error message stays |
| MonthlySummary.Summarize | components/MonthlySummary.tsx:10-21 | income is the sum of income amounts, expense the sum of all other amounts, balance their difference; an empty list gives three zeros |
| MonthlySummary.IncomeAndExpenseCoverAll | components/MonthlySummary.tsx:13-19 | income plus expense is the sum of all amounts: each transaction counts in exactly one total |
| MonthlySummary.TotalsNonNegative | components/MonthlySummary.tsx:11-19 | with non-negative amounts both totals are non-negative |
| Budgets.ExpenseCategories | components/Budgets.tsx:25 | exactly the expense categories, in their order |
| Budgets.MonthlyExpenses | components/Budgets.tsx:27-35 | the dictionary built equals the category-to-spending specification |
| Budgets.AddUpExpenses | components/Budgets.tsx:31-33 | the `forEach` over the filtered expenses builds the specification's dictionary |
| Budgets.ExpenseByCategoryOfExpenses | components/Budgets.tsx:29-30 | filtering out income first changes nothing, because income never reaches the dictionary |
| Budgets.ExpenseByCategoryMeaning | components/Budgets.tsx:27-35 | a category has an entry exactly when some expense belongs to it (absent, not zero, otherwise); every category's spending, zero when absent, is the sum of its expense amounts |
| Budgets.FindBudget | components/Budgets.tsx:66 | no budget when none has the category; otherwise the first budget with that category |
| Budgets.Progress | components/Budgets.tsx:68 | against a budget with a positive amount, progress × amount = spent × 100 (not capped); otherwise 0 |
| Budgets.OverBudgetIffOverspent | components/Budgets.tsx:86-87 | the bar is red exactly when more than the budget was spent; its width never exceeds 100 and equals the progress while within budget |
| Budgets.BudgetLines | components/Budgets.tsx:65-68 | one line per expense category, in order, with the first matching budget, the category's summed expenses and the progress |
| Budgets.BudgetFor | components/Budgets.tsx:37-44 | the written budget carries the cursor's year, its 1-based month, the category and the amount; input that does not parse becomes 0 |
| Budgets.SetBudget | components/Budgets.tsx:37-44 | leaving a budget field overwrites the budget document of the cursor's month when the store accepts the un-awaited write, and leaves the store as it was when it rejects it; no other collection changes |
| Budgets.CategoryEditor.constructor | components/Budgets.tsx:23 | no category is being edited at first |
| Budgets.CategoryEditor.StartNew | components/Budgets.tsx:100 | creating starts from a blank expense category with the sentinel id `new` and the food icon |
| Budgets.CategoryEditor.StartEdit | components/Budgets.tsx:110 | editing starts from the chosen category |
| Budgets.CategoryEditor.SelectIcon | components/Budgets.tsx:131 | picking an icon changes only the icon of the category being edited |
| Budgets.CategoryEditor.Cancel | components/Budgets.tsx:138 | cancelling closes the form |
| Budgets.CategoryEditor.Save | components/Budgets.tsx:46-60 | with nothing being edited, or when the store rejects the un-awaited write, nothing is written; otherwise the sentinel id adds one category under an id not yet in the collection, and any other id updates that category only; the form closes either way |
| Budgets.DeleteCategory | components/Budgets.tsx:111 | a confirmed delete that the store accepts removes exactly that category document; an unconfirmed or rejected one removes nothing |
| TransactionList.CategoryMap | components/TransactionList.tsx:12-16 | the map built equals the id-to-category specification |
| TransactionList.CategoryIndexMeaning | components/TransactionList.tsx:12-16 | the map's ids are exactly the categories' ids, and each id maps to the last category carrying it |
| TransactionList.CategoryLabel | components/TransactionList.tsx:45-56 | a row shows its category's name, or `未分类` when the category is unknown or its name is empty; never an empty label |
| TransactionList.GroupByDay | components/TransactionList.tsx:18-30 | the dictionary built equals the grouping specification |
| TransactionList.GroupsKeys | components/TransactionList.tsx:18-30 | the groups' keys are distinct and are exactly the ISO days of the dated transactions |
| TransactionList.GroupsContents | components/TransactionList.tsx:20-26 | a day's group is exactly the transactions dated that day, in input order, and is never empty |
| TransactionList.GroupsMeaning | components/TransactionList.tsx:18-30 | both halves together: every dated transaction is in the group of its day and no other; undated ones are in none |
| TransactionList.InsertDescending | components/TransactionList.tsx:32 | inserting a key into a descending list gives a descending list holding one more copy of that key |
| TransactionList.SortDescending | components/TransactionList.tsx:32 | the sort returns a permutation of the keys in descending code-point order |
| TransactionList.SortDescendingStrict | components/TransactionList.tsx:32 | sorting distinct keys lists each once, in strictly descending order |
| TransactionList.DayHasHeading | components/TransactionList.tsx:18-32 | every dated transaction's day has a heading |
| TransactionList.NewestDayFirst | components/TransactionList.tsx:32 | of two transactions in four-digit years, the later day's heading comes before the earlier day's |
| TransactionList.HeadingsAreGroups | components/TransactionList.tsx:40-44 | each heading names a group, and that group holds the day's transactions |
| TransactionList.Render | components/TransactionList.tsx:34-66 | an empty list shows the "no records" message; otherwise one group per sorted heading, holding that day's transactions in input order with their labels |
| Reports.NameIndexAgrees | components/Reports.tsx:16 | the reports' id-to-name map has the same ids as the list's category map, with those categories' names |
| Reports.PieLabelCases | components/Reports.tsx:24 | a slice name is the category's name, or `未分类` when the category is unknown or its name is empty; never empty |
| Reports.PieLabelAsListLabel | components/Reports.tsx:24 | the pie files a transaction under the same name the list shows for it |
| Reports.ExpenseTransactions | components/Reports.tsx:18 | exactly the expense transactions, in order |
| Reports.PieTotalsKeys | components/Reports.tsx:21-28 | the slices are distinct, and are exactly the names of the transactions' categories |
| Reports.PieTotalsSeen | components/Reports.tsx:21-28 | the slices are exactly the labels of the expenses |
| Reports.PieTotalsOrder | components/Reports.tsx:21-31 | the slices are listed in the order their names first occur among the expenses, the order that assigns the slice colours |
| Reports.PieTotalsSums | components/Reports.tsx:23-26 | each slice holds the sum of the transactions filed under its name, so categories with the same name share a slice |
| Reports.SumSlices | components/Reports.tsx:23-26 | the `forEach` builds the pie specification's dictionary |
| Reports.CountExpense | components/Reports.tsx:24-25 | one transaction adds its amount to its name's slice, creating the slice at zero |
| Reports.PieSlices | components/Reports.tsx:27-30 | the final dictionary's keys are the names of the expense transactions' categories, in the order first seen, and each value is the total of its slice |
| Reports.PieSlicesOfExpenses | components/Reports.tsx:18-26 | a name labels some filtered expense exactly when it labels some expense transaction of the input; income never makes a slice |
| Reports.PieChartData | components/Reports.tsx:21-35 | labels and data have equal length and correspond index by index; the labels are distinct and are exactly the slice names of the expense transactions, in the order the names first occur; each figure is its slice's expense total |
| Reports.Window | components/Reports.tsx:42-43 | twelve months, oldest first, each one month after the previous, ending at the clock's month, or 1900 years after it when the clock's year is from 0 to 99 |
| Reports.WindowConsecutive | components/Reports.tsx:42-43 | consecutive window entries are consecutive calendar months, across year ends |
| Reports.WindowLabels | components/Reports.tsx:42-46 | twelve distinct `YYYY-MM` labels, the k-th being the key of the k-th window month |
| Reports.ZeroSeriesMeaning | components/Reports.tsx:45 | with distinct keys, the initial series has exactly those keys in order, each at zero income and zero expense |
| Reports.AddToSeriesStep | components/Reports.tsx:49-57 | a transaction adds its amount to the income of its own month when it is income, otherwise to that month's expense; other months are untouched |
| Reports.BarSeriesMeaning | components/Reports.tsx:48-59 | the series keeps the twelve keys in window order; each month holds the totals of income and of other transactions dated in it; nothing outside the window counts |
| Reports.EmptyMonths | components/Reports.tsx:42-46 | the counting loop from 11 down to 0 builds the twelve zeroed window months, oldest first |
| Reports.AddEmptyMonth | components/Reports.tsx:43-45 | one turn of that loop adds the next window month, at zero |
| Reports.CountTransaction | components/Reports.tsx:49-58 | the `forEach` callback performs one specification step |
| Reports.MonthlySeries | components/Reports.tsx:39-59 | the zeroed months, then every transaction counted in turn, give the specification's series |
| Reports.BarSeriesOutputs | components/Reports.tsx:61-66 | reading the final series in key order gives, for each window month, its income and expense totals |
| Reports.BarChartData | components/Reports.tsx:38-70 | twelve labels in window order; the k-th income and expense figures are the income and non-income totals dated in the k-th window month |
| Reports.QuietMonthIsZero | components/Reports.tsx:45 | a window month without transactions still appears, at zero income and zero expense: the series is dense |
| FirestoreService.TransactionDocOf | services/firestoreService.ts:18-23 | every draft field is stored unchanged, and the date as a timestamp that reads back as the same date |
| FirestoreService.BudgetKeyRoundTrip | services/firestoreService.ts:66 | a budget id splits back into its year, unpadded month and category id |
| FirestoreService.BudgetKeyInjective | services/firestoreService.ts:66 | two budgets share an id exactly when they agree on year, month and category |
| FirestoreService.SetBudgetOverwrites | services/firestoreService.ts:65-68 | setting the same year, month and category twice leaves only the second write |
| FirestoreService.SetBudgetSingleRecord | services/firestoreService.ts:65-68 | in a collection keyed by budget ids, a write keeps it so, and leaves exactly one document for the slot, holding the written budget |
| FirestoreService.DefaultCategoriesShape | services/firestoreService.ts:26-35 | eight defaults with pairwise distinct names and icons: six expense categories, then two income categories |
| FirestoreService.ApplyWritesContents | services/firestoreService.ts:41-46 | committing writes at distinct ids into an empty collection stores each write once and nothing else |
| FirestoreService.SeededEmpty | services/firestoreService.ts:40-46 | seeding an empty collection with distinct generated ids stores exactly the eight defaults |
| FirestoreService.SeededNonEmpty | services/firestoreService.ts:39-40 | a collection that is not empty is left as it is |
| FirestoreService.SeedIdempotent | services/firestoreService.ts:37-49 | seeding twice has the effect of seeding once |
| FirestoreService.Store.AddTransaction | services/firestoreService.ts:18-23 | adds exactly one document, with the draft's fields, under an id not yet in the collection; the other collections are untouched |
| FirestoreService.Store.AddCategory | services/firestoreService.ts:52-54 | adds exactly one category document, under an id not yet in the collection |
| FirestoreService.Store.UpdateCategory | services/firestoreService.ts:56-58 | merges the given fields into that one document; a missing document is reported and nothing changes |
| FirestoreService.Store.DeleteCategory | services/firestoreService.ts:60-62 | removes exactly the document with that id |
| FirestoreService.Store.SetBudget | services/firestoreService.ts:65-68 | a full overwrite at the budget's composite id |
| FirestoreService.Store.InitializeDefaultCategories | services/firestoreService.ts:37-49 | when the batch commits, the categories become the seeded collection, and a non-empty collection is left alone; otherwise nothing changes |
| AddTransactionModal.FilteredCategories | components/AddTransactionModal.tsx:19 | the picker shows exactly the categories of the selected type, in order |
| AddTransactionModal.TransactionForm.constructor | components/AddTransactionModal.tsx:13-17 | a new form is an expense with empty fields, dated with today's ISO day |
| AddTransactionModal.TransactionForm.SelectType | components/AddTransactionModal.tsx:45-46 | switching type changes only the type; a category picked earlier stays selected |
| AddTransactionModal.TransactionForm.SetAmount | components/AddTransactionModal.tsx:51 | typing changes only the amount text |
| AddTransactionModal.TransactionForm.SetDescription | components/AddTransactionModal.tsx:69 | typing changes only the description |
| AddTransactionModal.TransactionForm.SelectCategory | components/AddTransactionModal.tsx:59 | clicking a category changes only the chosen category id |
| AddTransactionModal.TransactionForm.SetDate | components/AddTransactionModal.tsx:73 | picking a date changes only the date text |
| AddTransactionModal.TransactionForm.Submit | components/AddTransactionModal.tsx:21-34 | no draft exactly when the amount, description, category or date is empty; otherwise the draft carries the type, category and description unchanged, with the parsed amount and date |
| AddTransactionModal.SwitchTypeAfterPicking | components/AddTransactionModal.tsx:45-59 | picking an expense category and then switching to income submits an income draft filed under that expense category, which the income picker does not show |
| Calendar.ShiftMonth | App.tsx:84 | the month `delta` months from `(y, m)`, an out-of-range month carrying into the year |
| Calendar.NewDate | App.tsx:84 | `new Date(y, m, 1)` for any integer month lies `m` months after January of `y`, where a year `y` from 0 to 99 stands for 1900 + `y` |
| Calendar.ShiftMonthAdd | components/Reports.tsx:43 | shifting by a and then by b is shifting by a + b |
| Calendar.DayKeyChronological | components/TransactionList.tsx:22 | for years 0 to 9999, code-point order of day keys is calendar order of the days |
| Calendar.DayKeyInjective | components/TransactionList.tsx:22 | for years 0 to 9999, distinct days have distinct keys |
| Calendar.MonthKeyInjective | components/Reports.tsx:44 | distinct months have distinct `YYYY-MM` keys, for every year |
| Calendar.TwoDigitsFixed | components/Reports.tsx:44 | `String(n).padStart(2, '0')` is the two-digit rendering of any n below 100 |
| Format.PaddedIsFixed | components/Reports.tsx:44 | zero-padding the decimal rendering of a number that fits gives its fixed-width rendering |
| Format.IntToStringRoundTrip | services/firestoreService.ts:66 | the decimal rendering of an integer reads back as that integer |
| Seqs.Filter | App.tsx:69-73 | `filter` keeps exactly the elements satisfying the predicate, each exactly as often as it occurs in the input, as a subsequence of the input |

## Left out

- Subscriptions, `onSnapshot`, `query`/`orderBy` and unsubscribing are not modelled. Each snapshot callback is modelled only by its effect on the state. The order of a snapshot's documents is an input.
- The asynchronous writes are not modelled as asynchronous. Whether a write succeeds, awaited or not, and whether the seeding batch commits, are inputs. Three things are left out for this reason:
  - the race between reading the categories and committing the seed batch;
  - `window.confirm`, which is an input;
  - `alert`.
- The ids Firestore generates are inputs. `FirestoreService.SeededEmpty` requires them to be distinct, and the methods that add a document require the id not to be in the collection yet, as generated ids are.
- Chart.js, JSX, Tailwind classes, the icon components and `iconMap` are not modelled. The files `services/firebase.ts`, `BottomNav.tsx`, `Header.tsx` and `FloatingActionButton.tsx` are not part of this model.
- The clock is not modelled: `new Date()` in the application, the reports and the form is a parameter.
- The day of the month of the application's cursor is not modelled. The month filters read only the year and month, and moving the cursor resets the day to 1.
- Amounts are exact reals. Floating-point rounding, `NaN` and `toFixed` formatting are not modelled.
- `AddTransactionModal.TransactionForm.Submit`: `parseFloat` and `new Date(string)` are function parameters. The `NaN` amount and the invalid date they can produce are not modelled.
- `Budgets.BudgetFor`: `parseFloat(input) || 0` is modelled with the parse as an `Option`, where `None` stands for `NaN`. A parsed `-0` is not distinguished from 0.
- `Budgets.CategoryEditor.Save`: the form's name, icon and type arrive as parameters, because `FormData` reads them from the page. The HTML `required` attribute on the name is not modelled.
- `FirestoreService.Store.UpdateCategory`: the rejected promise for a missing document is modelled as a returned `false`. The category editor ignores it, as the source does.
- Dates carry a calendar day only. `toISOString` works in UTC while `getMonth` and `getFullYear` work in local time. This mismatch is not modelled: a transaction's day key and its month are both taken from the same calendar date.
- `TransactionList.NewestDayFirst` and `Calendar.DayKeyChronological` are proved only for years 0 to 9999. Outside that range the ISO key carries a sign and six digits, and its code-point order no longer follows the calendar.
- `localeCompare` is modelled as code-point order. For years 0 to 9999 every day key has digits and dashes in the same positions, and the two orders agree on such keys. Other years are not covered.
- JS objects list integer-like keys first, in numeric order. This is not modelled: keys are listed in insertion order. Day and month keys are never integer-like, but a category named like an integer would move to the front of the pie labels (`Reports.PieChartData`).
- Reports.PieTotalsOrder: the first-seen order holds only for category names that are not integer-like, because JS lists such keys first.
- Keys of a plain object that collide with `Object.prototype` members are not modelled.
- The days of a `CalendarDate` range over 1 to 31 for every month. Impossible dates are not excluded.
- The active tab of the budgets view (budgets or categories) is not modelled; it is display state.
- Calendar.NewDate: `new Date` gives an invalid date beyond ±8.64·10^15 milliseconds from 1970 (about ±275,760 years); this is not modelled, and every year is treated as valid.
- App.Advance: the invalid date beyond about ±275,760 years is not modelled (see `Calendar.NewDate`).
- App.FinanceApp.ChangeMonth: the invalid date beyond about ±275,760 years is not modelled (see `Calendar.NewDate`).
- Reports.Window: the invalid date beyond about ±275,760 years is not modelled (see `Calendar.NewDate`).
