/** The reports view (components/Reports.tsx): expense totals per category
    name for the pie chart, and the income / expense series of the last
    twelve months for the bar chart. */
module Reports {
  import opened Types
  import opened Seqs
  import opened Dicts
  import opened Ledger
  import opened Calendar
  import opened TransactionList

  /** `new Map(categories.map(c => [c.id, c.name]))`: a later category with
      the same id replaces an earlier one. */
  function NameIndex(cats: seq<Category>): map<string, string> {
    if cats == [] then map[]
    else NameIndex(cats[..|cats| - 1])[cats[|cats| - 1].id := cats[|cats| - 1].name]
  }

  /** The name map holds, for each id, the name of the category the list's
      category map holds for it. */
  lemma {:induction false} NameIndexAgrees(cats: seq<Category>)
    ensures forall id :: id in NameIndex(cats) <==> id in CategoryIndex(cats)
    ensures forall id :: id in NameIndex(cats) ==> NameIndex(cats)[id] == CategoryIndex(cats)[id].name
  {
    if cats != [] {
      NameIndexAgrees(cats[..|cats| - 1]);
    }
  }

  /** `categoryMap.get(tx.categoryId) || '未分类'`. */
  function PieLabel(names: map<string, string>, categoryId: string): string {
    if categoryId in names && names[categoryId] != [] then names[categoryId] else UNCATEGORIZED
  }

  /** A slice is never unnamed: an unknown category, or one whose name is
      empty, is filed under the fallback name. */
  lemma PieLabelCases(names: map<string, string>, categoryId: string)
    ensures PieLabel(names, categoryId) != []
    ensures categoryId !in names ==> PieLabel(names, categoryId) == UNCATEGORIZED
    ensures categoryId in names && names[categoryId] == [] ==> PieLabel(names, categoryId) == UNCATEGORIZED
    ensures categoryId in names && names[categoryId] != [] ==> PieLabel(names, categoryId) == names[categoryId]
  {
  }

  /** The pie chart names a transaction's category as the list does. */
  lemma PieLabelAsListLabel(cats: seq<Category>, categoryId: string)
    ensures PieLabel(NameIndex(cats), categoryId) == CategoryLabel(CategoryIndex(cats), categoryId)
  {
    NameIndexAgrees(cats);
  }

  /** `expenseTransactions` */
  function ExpenseTransactions(txs: seq<Transaction>): (r: seq<Transaction>)
    ensures forall tx :: tx in r <==> tx in txs && tx.kind == Expense
    ensures IsSubsequence(r, txs)
  {
    Filter(txs, IsExpense)
  }

  /** The transactions whose pie label is `name`. */
  function Named(names: map<string, string>, name: string): Transaction -> bool {
    (tx: Transaction) => PieLabel(names, tx.categoryId) == name
  }

  /** Some transaction of `expenses` is filed under `name`. */
  predicate Labelled(expenses: seq<Transaction>, names: map<string, string>, name: string) {
    exists tx :: tx in expenses && PieLabel(names, tx.categoryId) == name
  }

  lemma LabelledSnoc(expenses: seq<Transaction>, tx: Transaction, names: map<string, string>, name: string)
    ensures Labelled(expenses + [tx], names, name) <==>
            Labelled(expenses, names, name) || PieLabel(names, tx.categoryId) == name
  {
    if Labelled(expenses + [tx], names, name) {
      var t :| t in expenses + [tx] && PieLabel(names, t.categoryId) == name;
      assert t in expenses || t == tx;
    }
    if Labelled(expenses, names, name) {
      var t :| t in expenses && PieLabel(names, t.categoryId) == name;
      assert t in expenses + [tx];
    }
    if PieLabel(names, tx.categoryId) == name {
      assert tx in expenses + [tx];
    }
  }

  /** The total of a pie slice so far, zero before its first transaction (`data[name] || 0`). */
  function SliceOf(data: Dict<real>, name: string): real {
    if name in data.entries then data.entries[name] else 0.0
  }

  /** The dictionary `pieChartData` fills: each transaction adds its amount
      to the slice of its category's name. */
  function PieTotals(expenses: seq<Transaction>, names: map<string, string>): Dict<real> {
    if expenses == [] then Empty()
    else AddToSlice(PieTotals(expenses[..|expenses| - 1], names), expenses[|expenses| - 1], names)
  }

  /** One transaction's amount added to the slice of its category's name. */
  function AddToSlice(data: Dict<real>, tx: Transaction, names: map<string, string>): Dict<real> {
    var name := PieLabel(names, tx.categoryId);
    Put(data, name, SliceOf(data, name) + tx.amount)
  }

  lemma PieTotalsSnoc(expenses: seq<Transaction>, tx: Transaction, names: map<string, string>)
    ensures PieTotals(expenses + [tx], names) == AddToSlice(PieTotals(expenses, names), tx, names)
  {
    var s := expenses + [tx];
    assert s[..|s| - 1] == expenses;
    assert s[|s| - 1] == tx;
  }

  /** The slices are exactly the names of the transactions' categories,
      each listed once. */
  lemma {:induction false} PieTotalsKeys(expenses: seq<Transaction>, names: map<string, string>)
    ensures Valid(PieTotals(expenses, names))
    ensures forall name :: name in PieTotals(expenses, names).entries <==> Labelled(expenses, names, name)
  {
    if expenses != [] {
      var init, tx := expenses[..|expenses| - 1], expenses[|expenses| - 1];
      PieTotalsKeys(init, names);
      assert expenses == init + [tx];
      forall name
        ensures name in PieTotals(expenses, names).entries <==> Labelled(expenses, names, name)
      {
        LabelledSnoc(init, tx, names, name);
      }
    }
  }

  /** The pie label of each expense, in the order of the expenses. */
  function LabelsOf(expenses: seq<Transaction>, names: map<string, string>): seq<string> {
    seq(|expenses|, i requires 0 <= i < |expenses| => PieLabel(names, expenses[i].categoryId))
  }

  lemma LabelsOfSnoc(init: seq<Transaction>, tx: Transaction, names: map<string, string>)
    ensures LabelsOf(init + [tx], names) == LabelsOf(init, names) + [PieLabel(names, tx.categoryId)]
  {
    assert forall i :: 0 <= i < |init| ==> (init + [tx])[i] == init[i];
  }

  /** The slices are exactly the labels of the expenses. */
  lemma PieTotalsSeen(expenses: seq<Transaction>, names: map<string, string>)
    ensures forall name :: name in PieTotals(expenses, names).keys <==> name in LabelsOf(expenses, names)
  {
    PieTotalsKeys(expenses, names);
    var labels := LabelsOf(expenses, names);
    forall name
      ensures Labelled(expenses, names, name) <==> name in labels
    {
      if name in labels {
        var i :| 0 <= i < |labels| && labels[i] == name;
        assert expenses[i] in expenses;
      }
      if Labelled(expenses, names, name) {
        var tx :| tx in expenses && PieLabel(names, tx.categoryId) == name;
        var i :| 0 <= i < |expenses| && expenses[i] == tx;
        assert labels[i] == name;
      }
    }
  }

  /** The slices are listed in the order in which their names first occur
      among the expenses; this order picks each slice's colour. */
  lemma {:induction false} PieTotalsOrder(expenses: seq<Transaction>, names: map<string, string>)
    ensures FirstSeenOrder(PieTotals(expenses, names).keys, LabelsOf(expenses, names))
  {
    PieTotalsSeen(expenses, names);
    if expenses != [] {
      var init, tx := expenses[..|expenses| - 1], expenses[|expenses| - 1];
      assert expenses == init + [tx];
      PieTotalsOrder(init, names);
      PieTotalsSeen(init, names);
      PieTotalsStep(init, tx, names);
      LabelsOfSnoc(init, tx, names);
      var before, after := PieTotals(init, names).keys, PieTotals(expenses, names).keys;
      var lb, name := LabelsOf(init, names), PieLabel(names, tx.categoryId);
      forall i, j | 0 <= i < j < |after|
        ensures after[i] in lb + [name] && after[j] in lb + [name] &&
                FirstIndex(lb + [name], after[i]) < FirstIndex(lb + [name], after[j])
      {
        assert after[i] == before[i] && after[i] in lb;
        FirstIndexSnoc(lb, name, after[i]);
        FirstIndexSnoc(lb, name, after[j]);
        if j == |before| {
          assert after[j] == name && name !in lb;
        } else {
          assert after[j] == before[j];
        }
      }
    }
  }

  /** One more expense adds its label at the end of the slices when the label is new. */
  lemma PieTotalsStep(init: seq<Transaction>, tx: Transaction, names: map<string, string>)
    ensures var before, after := PieTotals(init, names).keys, PieTotals(init + [tx], names).keys;
            var name := PieLabel(names, tx.categoryId);
            && (name in before ==> after == before)
            && (name !in before ==> after == before + [name])
  {
    PieTotalsKeys(init, names);
    PieTotalsSnoc(init, tx, names);
  }

  /** A slice holds the total of the transactions carrying its name, so
      categories sharing a name share a slice. */
  lemma {:induction false} PieTotalsSums(expenses: seq<Transaction>, names: map<string, string>)
    ensures forall name :: name in PieTotals(expenses, names).entries ==>
              PieTotals(expenses, names).entries[name] == SumOf(expenses, Named(names, name))
  {
    if expenses != [] {
      var init, tx := expenses[..|expenses| - 1], expenses[|expenses| - 1];
      PieTotalsSums(init, names);
      PieTotalsKeys(init, names);
      assert expenses == init + [tx];
      forall name | name in PieTotals(expenses, names).entries
        ensures PieTotals(expenses, names).entries[name] == SumOf(expenses, Named(names, name))
      {
        SliceSnoc(init, tx, names, name);
      }
    }
  }

  /** One more transaction keeps a slice equal to the total of its transactions. */
  lemma SliceSnoc(init: seq<Transaction>, tx: Transaction, names: map<string, string>, name: string)
    requires name in PieTotals(init, names).entries <==> Labelled(init, names, name)
    requires name in PieTotals(init, names).entries ==>
               PieTotals(init, names).entries[name] == SumOf(init, Named(names, name))
    ensures name in PieTotals(init + [tx], names).entries ==>
              PieTotals(init + [tx], names).entries[name] == SumOf(init + [tx], Named(names, name))
  {
    PieTotalsSnoc(init, tx, names);
    SumOfSnoc(init, tx, Named(names, name));
    if name !in PieTotals(init, names).entries {
      NoneNamed(init, names, name);
    }
  }

  lemma NoneNamed(txs: seq<Transaction>, names: map<string, string>, name: string)
    requires !Labelled(txs, names, name)
    ensures SumOf(txs, Named(names, name)) == 0.0
  {
    forall i | 0 <= i < |txs|
      ensures !Named(names, name)(txs[i])
    {
      assert txs[i] in txs;
    }
    SumOfNone(txs, Named(names, name));
  }

  /** `pieChartData`: `labels` and `data` run in step, one slice per
      category name of an expense transaction, in the order the names first
      occur, each holding the total of the expense transactions filed under
      that name. Income never reaches the pie. */
  method PieChartData(txs: seq<Transaction>, cats: seq<Category>) returns (labels: seq<string>, data: seq<real>)
    ensures labels == PieTotals(ExpenseTransactions(txs), NameIndex(cats)).keys
    ensures |labels| == |data| && Distinct(labels)
    ensures forall name :: name in labels <==>
              exists tx :: tx in txs && tx.kind == Expense && PieLabel(NameIndex(cats), tx.categoryId) == name
    ensures forall i :: 0 <= i < |data| ==>
              data[i] == SumOf(ExpenseTransactions(txs), Named(NameIndex(cats), labels[i]))
    ensures FirstSeenOrder(labels, LabelsOf(ExpenseTransactions(txs), NameIndex(cats)))
  {
    var totals := SumSlices(ExpenseTransactions(txs), NameIndex(cats));
    PieSlices(txs, cats);
    labels := totals.keys;
    data := Values(totals);
  }

  /** The `forEach` of `pieChartData` over the expense transactions. */
  method SumSlices(expenses: seq<Transaction>, names: map<string, string>) returns (totals: Dict<real>)
    ensures totals == PieTotals(expenses, names)
  {
    totals := Empty();
    for i := 0 to |expenses|
      invariant totals == PieTotals(expenses[..i], names)
    {
      var tx := expenses[i];
      assert expenses[..i + 1] == expenses[..i] + [tx];
      PieTotalsSnoc(expenses[..i], tx, names);
      totals := CountExpense(totals, tx, names);
    }
    assert expenses[..|expenses|] == expenses;
  }

  /** The `forEach` callback of `pieChartData`: `data[name] = (data[name] || 0) + tx.amount`. */
  method CountExpense(totals: Dict<real>, tx: Transaction, names: map<string, string>) returns (updated: Dict<real>)
    ensures updated == AddToSlice(totals, tx, names)
  {
    var name := PieLabel(names, tx.categoryId);
    updated := Put(totals, name, SliceOf(totals, name) + tx.amount);
  }

  /** What the pie's final dictionary holds, stated on its keys and values. */
  lemma PieSlices(txs: seq<Transaction>, cats: seq<Category>)
    ensures var totals := PieTotals(ExpenseTransactions(txs), NameIndex(cats));
            && Valid(totals)
            && (forall name :: name in totals.keys <==>
                  exists tx :: tx in txs && tx.kind == Expense && PieLabel(NameIndex(cats), tx.categoryId) == name)
            && (forall i :: 0 <= i < |totals.keys| ==>
                  Values(totals)[i] == SumOf(ExpenseTransactions(txs), Named(NameIndex(cats), totals.keys[i])))
            && FirstSeenOrder(totals.keys, LabelsOf(ExpenseTransactions(txs), NameIndex(cats)))
  {
    PieTotalsOrder(ExpenseTransactions(txs), NameIndex(cats));
    PieTotalsKeys(ExpenseTransactions(txs), NameIndex(cats));
    PieTotalsSums(ExpenseTransactions(txs), NameIndex(cats));
    PieSlicesOfExpenses(txs, NameIndex(cats));
  }

  /** The pie's slices are the names of the expense transactions' categories. */
  lemma PieSlicesOfExpenses(txs: seq<Transaction>, names: map<string, string>)
    ensures forall name :: Labelled(ExpenseTransactions(txs), names, name) <==>
              exists tx :: tx in txs && tx.kind == Expense && PieLabel(names, tx.categoryId) == name
  {
  }

  /** The twelve months of the bar chart, oldest first: `new Date(y, m - i,
      1)` for `i` from 11 down to 0, where `y` and `m` are the year and month
      of the clock's `now`. They end at `now`'s month, 1900 years later when
      `now` lies in the years 0 to 99. */
  function Window(now: YearMonth): (w: seq<YearMonth>)
    ensures |w| == 12
    ensures forall k :: 0 <= k < 12 ==> MonthOrdinal(w[k]) == DateYear(now.year) * 12 + now.month - 11 + k
    ensures !(0 <= now.year <= 99) ==> w[11] == now
    ensures 0 <= now.year <= 99 ==> w[11] == YearMonth(now.year + 1900, now.month)
  {
    var w := seq(12, k requires 0 <= k < 12 => NewDate(now.year, now.month + k - 11));
    assert forall k :: 0 <= k < 12 ==> w[k] == NewDate(now.year, now.month + k - 11);
    MonthOrdinalInjective(w[11], YearMonth(DateYear(now.year), now.month));
    w
  }

  /** Consecutive entries of the window are consecutive months, across year ends. */
  lemma WindowConsecutive(now: YearMonth, k: int)
    requires 0 <= k < 11
    ensures Window(now)[k + 1] == ShiftMonth(Window(now)[k], 1)
  {
    var w := Window(now);
    MonthOrdinalInjective(w[k + 1], ShiftMonth(w[k], 1));
  }

  /** The bar chart's labels, the month keys of the window. */
  function WindowLabels(now: YearMonth): (labels: seq<string>)
    ensures |labels| == 12 && Distinct(labels)
    ensures forall k :: 0 <= k < 12 ==> labels[k] == MonthKey(Window(now)[k])
  {
    var w := Window(now);
    var labels := seq(12, k requires 0 <= k < 12 => MonthKey(w[k]));
    assert Distinct(labels) by {
      forall i, j | 0 <= i < j < 12
        ensures labels[i] != labels[j]
      {
        if labels[i] == labels[j] {
          MonthKeyInjective(w[i], w[j]);
        }
      }
    }
    labels
  }

  /** The income and expense of one bar-chart month. */
  datatype MonthTotals = MonthTotals(income: real, expense: real)

  /** The months so far, each at `{ income: 0, expense: 0 }`. */
  function ZeroSeries(keys: seq<string>): Dict<MonthTotals> {
    if keys == [] then Empty()
    else Put(ZeroSeries(keys[..|keys| - 1]), keys[|keys| - 1], MonthTotals(0.0, 0.0))
  }

  lemma {:induction false} ZeroSeriesMeaning(keys: seq<string>)
    requires Distinct(keys)
    ensures Valid(ZeroSeries(keys)) && ZeroSeries(keys).keys == keys
    ensures forall k :: k in ZeroSeries(keys).entries ==> ZeroSeries(keys).entries[k] == MonthTotals(0.0, 0.0)
  {
    if keys != [] {
      ZeroSeriesMeaning(keys[..|keys| - 1]);
    }
  }

  /** The transactions dated in month `ym`. */
  function InMonth(ym: YearMonth): Transaction -> bool {
    (tx: Transaction) => tx.date.Some? && MonthOf(tx.date.value) == ym
  }

  /** Income dated in `ym`. */
  function IncomeIn(ym: YearMonth): Transaction -> bool {
    (tx: Transaction) => tx.date.Some? && MonthOf(tx.date.value) == ym && IsIncome(tx)
  }

  /** Anything but income dated in `ym`: the `else` branch counts it as expense. */
  function ExpenseIn(ym: YearMonth): Transaction -> bool {
    (tx: Transaction) => tx.date.Some? && MonthOf(tx.date.value) == ym && !IsIncome(tx)
  }

  /** One transaction of the `forEach`: a dated transaction whose month key
      is in the series adds its amount to that month's income when it is
      income, to its expense otherwise. */
  function AddToSeries(series: Dict<MonthTotals>, tx: Transaction): Dict<MonthTotals> {
    if tx.date.Some? && MonthKey(MonthOf(tx.date.value)) in series.entries then
      var key := MonthKey(MonthOf(tx.date.value));
      var totals := series.entries[key];
      Put(series, key, if IsIncome(tx) then totals.(income := totals.income + tx.amount)
                       else totals.(expense := totals.expense + tx.amount))
    else series
  }

  /** The series `barChartData` ends with. */
  function BarSeries(txs: seq<Transaction>, now: YearMonth): Dict<MonthTotals> {
    CountAll(ZeroSeries(WindowLabels(now)), txs)
  }

  /** `series` with every transaction of `txs` counted in turn. */
  function CountAll(series: Dict<MonthTotals>, txs: seq<Transaction>): Dict<MonthTotals> {
    if txs == [] then series
    else AddToSeries(CountAll(series, txs[..|txs| - 1]), txs[|txs| - 1])
  }

  /** The series keeps the twelve month keys in window order, and holds for
      each window month the totals of the income and of the other
      transactions dated in it; nothing dated outside the window counts. */
  lemma {:induction false} BarSeriesMeaning(txs: seq<Transaction>, now: YearMonth)
    ensures Valid(BarSeries(txs, now)) && BarSeries(txs, now).keys == WindowLabels(now)
    ensures forall k :: 0 <= k < 12 ==>
              BarSeries(txs, now).entries[WindowLabels(now)[k]] ==
              MonthTotals(SumOf(txs, IncomeIn(Window(now)[k])), SumOf(txs, ExpenseIn(Window(now)[k])))
  {
    var labels, w := WindowLabels(now), Window(now);
    if txs == [] {
      ZeroSeriesMeaning(labels);
    } else {
      var init, tx := txs[..|txs| - 1], txs[|txs| - 1];
      assert txs == init + [tx];
      BarSeriesMeaning(init, now);
      forall k | 0 <= k < 12
        ensures BarSeries(txs, now).entries[labels[k]] ==
                MonthTotals(SumOf(txs, IncomeIn(w[k])), SumOf(txs, ExpenseIn(w[k])))
      {
        SumOfSnoc(init, tx, IncomeIn(w[k]));
        SumOfSnoc(init, tx, ExpenseIn(w[k]));
        assert labels[k] in BarSeries(init, now).keys;
        AddToSeriesStep(BarSeries(init, now), tx, w[k]);
      }
    }
  }

  lemma CountAllSnoc(series: Dict<MonthTotals>, txs: seq<Transaction>, tx: Transaction)
    ensures CountAll(series, txs + [tx]) == AddToSeries(CountAll(series, txs), tx)
  {
    assert (txs + [tx])[..|txs|] == txs;
  }

  /** One transaction changes only the totals of its own month, and only when that month is in the series. */
  lemma AddToSeriesStep(series: Dict<MonthTotals>, tx: Transaction, ym: YearMonth)
    requires MonthKey(ym) in series.entries
    ensures AddToSeries(series, tx).entries[MonthKey(ym)] ==
            MonthTotals(series.entries[MonthKey(ym)].income + (if IncomeIn(ym)(tx) then tx.amount else 0.0),
                        series.entries[MonthKey(ym)].expense + (if ExpenseIn(ym)(tx) then tx.amount else 0.0))
  {
    var key := MonthKey(ym);
    var before := series.entries[key];
    if tx.date.Some? && MonthOf(tx.date.value) == ym {
      if IsIncome(tx) {
        assert AddToSeries(series, tx) == Put(series, key, before.(income := before.income + tx.amount));
      } else {
        assert AddToSeries(series, tx) == Put(series, key, before.(expense := before.expense + tx.amount));
      }
    } else {
      if tx.date.Some? && MonthKey(MonthOf(tx.date.value)) == key {
        MonthKeyInjective(MonthOf(tx.date.value), ym);
        assert false;
      }
      assert AddToSeries(series, tx).entries[key] == before;
    }
  }

  /** The window loop's step: the month `i` months before `now` is the next label. */
  lemma ZeroSeriesStep(now: YearMonth, i: int)
    requires 0 <= i <= 11
    ensures ZeroSeries(WindowLabels(now)[..12 - i]) ==
            Put(ZeroSeries(WindowLabels(now)[..11 - i]), MonthKey(NewDate(now.year, now.month - i)), MonthTotals(0.0, 0.0))
  {
    var labels := WindowLabels(now);
    assert labels[..12 - i][..11 - i] == labels[..11 - i];
    assert labels[11 - i] == MonthKey(Window(now)[11 - i]);
    MonthOrdinalInjective(Window(now)[11 - i], NewDate(now.year, now.month - i));
  }

  /** The counting loop of `barChartData`: the twelve months of the window,
      oldest first, each at `{ income: 0, expense: 0 }`. */
  method EmptyMonths(now: YearMonth) returns (series: Dict<MonthTotals>)
    ensures series == ZeroSeries(WindowLabels(now))
  {
    series := Empty();
    var i := 11;
    while i >= 0
      invariant -1 <= i <= 11
      invariant series == ZeroSeries(WindowLabels(now)[..11 - i])
    {
      series := AddEmptyMonth(series, now, i);
      i := i - 1;
    }
    assert WindowLabels(now)[..12] == WindowLabels(now);
  }

  /** One turn of the window loop: `monthlyData[key] = { income: 0, expense: 0 }`
      for the month `i` months before `now`, the next month of the window. */
  method AddEmptyMonth(series: Dict<MonthTotals>, now: YearMonth, i: int) returns (next: Dict<MonthTotals>)
    requires 0 <= i <= 11
    requires series == ZeroSeries(WindowLabels(now)[..11 - i])
    ensures next == ZeroSeries(WindowLabels(now)[..12 - i])
  {
    var d := NewDate(now.year, now.month - i);
    var key := MonthKey(d);
    ZeroSeriesStep(now, i);
    next := Put(series, key, MonthTotals(0.0, 0.0));
  }

  /** The `forEach` callback of `barChartData`: `monthlyData[key].income +=
      tx.amount` (or `.expense`) for a dated transaction whose month is in
      the series. */
  method CountTransaction(series: Dict<MonthTotals>, tx: Transaction) returns (updated: Dict<MonthTotals>)
    ensures updated == AddToSeries(series, tx)
  {
    updated := series;
    if tx.date.Some? {
      var key := MonthKey(MonthOf(tx.date.value));
      if key in updated.entries {
        var totals := updated.entries[key];
        if IsIncome(tx) {
          totals := totals.(income := totals.income + tx.amount);
        } else {
          totals := totals.(expense := totals.expense + tx.amount);
        }
        updated := Put(updated, key, totals);
      }
    }
  }

  /** `barChartData`: the twelve window months as labels, oldest first,
      with one income and one expense figure per month; a month without
      transactions still appears, at zero. */
  method BarChartData(txs: seq<Transaction>, now: YearMonth) returns (labels: seq<string>, income: seq<real>, expense: seq<real>)
    ensures labels == WindowLabels(now)
    ensures |income| == 12 && |expense| == 12
    ensures forall k :: 0 <= k < 12 ==>
              income[k] == SumOf(txs, IncomeIn(Window(now)[k])) && expense[k] == SumOf(txs, ExpenseIn(Window(now)[k]))
  {
    var series := MonthlySeries(txs, now);
    BarSeriesOutputs(txs, now);
    labels := series.keys;
    var totals := Values(series);
    income := seq(|totals|, k requires 0 <= k < |totals| => totals[k].income);
    expense := seq(|totals|, k requires 0 <= k < |totals| => totals[k].expense);
  }

  /** The series of `barChartData`: the empty window months, then every
      transaction counted in turn. */
  method MonthlySeries(txs: seq<Transaction>, now: YearMonth) returns (series: Dict<MonthTotals>)
    ensures series == BarSeries(txs, now)
  {
    series := EmptyMonths(now);
    ghost var start := series;
    for j := 0 to |txs|
      invariant series == CountAll(start, txs[..j])
    {
      var tx := txs[j];
      assert txs[..j + 1] == txs[..j] + [tx];
      CountAllSnoc(start, txs[..j], tx);
      series := CountTransaction(series, tx);
    }
    assert txs[..|txs|] == txs;
  }

  /** The final series read month by month, as the two datasets read it. */
  lemma BarSeriesOutputs(txs: seq<Transaction>, now: YearMonth)
    ensures Valid(BarSeries(txs, now)) && BarSeries(txs, now).keys == WindowLabels(now)
    ensures |Values(BarSeries(txs, now))| == 12
    ensures forall k :: 0 <= k < 12 ==>
              && Values(BarSeries(txs, now))[k].income == SumOf(txs, IncomeIn(Window(now)[k]))
              && Values(BarSeries(txs, now))[k].expense == SumOf(txs, ExpenseIn(Window(now)[k]))
  {
    BarSeriesMeaning(txs, now);
  }

  /** A window month in which nothing is dated shows zero income and zero expense. */
  lemma QuietMonthIsZero(txs: seq<Transaction>, now: YearMonth, k: int)
    requires 0 <= k < 12
    requires forall i :: 0 <= i < |txs| ==> !InMonth(Window(now)[k])(txs[i])
    ensures SumOf(txs, IncomeIn(Window(now)[k])) == 0.0 && SumOf(txs, ExpenseIn(Window(now)[k])) == 0.0
  {
    SumOfNone(txs, IncomeIn(Window(now)[k]));
    SumOfNone(txs, ExpenseIn(Window(now)[k]));
  }
}
