/** Sums of transaction amounts, the fold every total of the application is made of. */
module Ledger {
  import opened Types

  predicate IsIncome(tx: Transaction) {
    tx.kind == Income
  }

  predicate IsExpense(tx: Transaction) {
    tx.kind == Expense
  }

  /** The sum of the amounts of the transactions satisfying `p`. */
  function SumOf(txs: seq<Transaction>, p: Transaction -> bool): real {
    if txs == [] then 0.0
    else SumOf(txs[..|txs| - 1], p) + (if p(txs[|txs| - 1]) then txs[|txs| - 1].amount else 0.0)
  }

  predicate AmountsNonNegative(txs: seq<Transaction>) {
    forall i :: 0 <= i < |txs| ==> txs[i].amount >= 0.0
  }

  lemma SumOfSnoc(txs: seq<Transaction>, tx: Transaction, p: Transaction -> bool)
    ensures SumOf(txs + [tx], p) == SumOf(txs, p) + (if p(tx) then tx.amount else 0.0)
  {
    assert (txs + [tx])[..|txs|] == txs;
  }

  /** A sum over a predicate no transaction satisfies is zero. */
  lemma {:induction false} SumOfNone(txs: seq<Transaction>, p: Transaction -> bool)
    requires forall i :: 0 <= i < |txs| ==> !p(txs[i])
    ensures SumOf(txs, p) == 0.0
  {
    if txs != [] {
      SumOfNone(txs[..|txs| - 1], p);
    }
  }

  lemma {:induction false} SumOfNonNegative(txs: seq<Transaction>, p: Transaction -> bool)
    requires AmountsNonNegative(txs)
    ensures SumOf(txs, p) >= 0.0
  {
    if txs != [] {
      SumOfNonNegative(txs[..|txs| - 1], p);
    }
  }
}
