/** The records of the application (types.ts): transactions, categories and
    budgets, with the calendar part of a JS `Date`. */
module Types {

  datatype Option<+T> = None | Some(value: T)

  /** `TransactionType`: every transaction and category is either an expense or an income. */
  datatype TransactionType = Expense | Income

  /** A month as `Date.prototype.getMonth()` returns it: 0 is January. */
  type MonthIndex = m: int | 0 <= m < 12

  /** A day of the month as `Date.prototype.getDate()` returns it. */
  type DayOfMonth = d: int | 1 <= d <= 31 witness 1

  /** The calendar date of a JS `Date`; the time of day is not modelled. */
  datatype CalendarDate = CalendarDate(year: int, month: MonthIndex, day: DayOfMonth)

  /** A transaction as the application holds it. `date` is `None` when the
      stored value is not a `Date`, which the views skip. */
  datatype Transaction = Transaction(
    id: string,
    description: string,
    amount: real,
    kind: TransactionType,
    date: Option<CalendarDate>,
    categoryId: string)

  datatype Category = Category(id: string, name: string, icon: string, kind: TransactionType)

  /** A monthly budget; `month` is stored 1-based (1 is January). */
  datatype Budget = Budget(id: string, year: int, month: int, categoryId: string, amount: real)
}
