/** The income, expense and balance totals of the month (components/MonthlySummary.tsx). */
module MonthlySummary {
  import opened Types
  import opened Ledger

  datatype Totals = Totals(income: real, expense: real, balance: real)

  /** The `else` branch of the fold: everything that is not income. */
  predicate IsNotIncome(tx: Transaction) {
    !IsIncome(tx)
  }

  predicate AnyTransaction(tx: Transaction) {
    true
  }

  /** The fold of the summary: income-typed amounts are added to the income,
      all other amounts to the expense, and the balance is their difference. */
  method Summarize(txs: seq<Transaction>) returns (t: Totals)
    ensures t.income == SumOf(txs, IsIncome)
    ensures t.expense == SumOf(txs, IsNotIncome)
    ensures t.balance == t.income - t.expense
    ensures txs == [] ==> t == Totals(0.0, 0.0, 0.0)
  {
    var income, expense := 0.0, 0.0;
    for i := 0 to |txs|
      invariant income == SumOf(txs[..i], IsIncome)
      invariant expense == SumOf(txs[..i], IsNotIncome)
    {
      assert txs[..i + 1] == txs[..i] + [txs[i]];
      SumOfSnoc(txs[..i], txs[i], IsIncome);
      SumOfSnoc(txs[..i], txs[i], IsNotIncome);
      if txs[i].kind == Income {
        income := income + txs[i].amount;
      } else {
        expense := expense + txs[i].amount;
      }
    }
    assert txs[..|txs|] == txs;
    t := Totals(income, expense, income - expense);
  }

  /** Every transaction counts in exactly one of the two totals: together
      they add up to the sum of all amounts. */
  lemma {:induction false} IncomeAndExpenseCoverAll(txs: seq<Transaction>)
    ensures SumOf(txs, IsIncome) + SumOf(txs, IsNotIncome) == SumOf(txs, AnyTransaction)
  {
    if txs != [] {
      IncomeAndExpenseCoverAll(txs[..|txs| - 1]);
    }
  }

  /** With non-negative amounts both totals are non-negative. */
  lemma TotalsNonNegative(txs: seq<Transaction>)
    requires AmountsNonNegative(txs)
    ensures SumOf(txs, IsIncome) >= 0.0 && SumOf(txs, IsNotIncome) >= 0.0
  {
    SumOfNonNegative(txs, IsIncome);
    SumOfNonNegative(txs, IsNotIncome);
  }
}
