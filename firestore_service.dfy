/** The persistence layer (services/firestoreService.ts) over an abstract
    document store: one map from document id to document per collection. */
module FirestoreService {
  import opened Types
  import opened Format
  import opened Seqs

  /** What the add-transaction form submits: a transaction without an id. */
  datatype TransactionDraft = TransactionDraft(
    description: string,
    amount: real,
    kind: TransactionType,
    date: CalendarDate,
    categoryId: string)

  /** A Firestore `Timestamp`; only its calendar date is modelled. */
  datatype Timestamp = Timestamp(date: CalendarDate)

  /** A stored transaction document. */
  datatype TransactionDoc = TransactionDoc(
    description: string,
    amount: real,
    kind: TransactionType,
    date: Timestamp,
    categoryId: string)

  /** A stored category document (a category without its id). */
  datatype CategoryFields = CategoryFields(name: string, icon: string, kind: TransactionType)

  /** The partial record `updateCategory` merges into a category. */
  datatype CategoryPatch = CategoryPatch(name: Option<string>, icon: Option<string>, kind: Option<TransactionType>)

  /** A stored budget document: a budget without its id. */
  datatype BudgetFields = BudgetFields(year: int, month: int, categoryId: string, amount: real)

  /** `Timestamp.fromDate` */
  function FromDate(d: CalendarDate): Timestamp {
    Timestamp(d)
  }

  /** `Timestamp.prototype.toDate` */
  function ToDate(t: Timestamp): CalendarDate {
    t.date
  }

  /** The document `addTransaction` writes: every field of the draft
      unchanged, the date as a timestamp that reads back as the same date. */
  function TransactionDocOf(draft: TransactionDraft): (doc: TransactionDoc)
    ensures ToDate(doc.date) == draft.date
    ensures doc.description == draft.description && doc.amount == draft.amount
    ensures doc.kind == draft.kind && doc.categoryId == draft.categoryId
  {
    TransactionDoc(draft.description, draft.amount, draft.kind, FromDate(draft.date), draft.categoryId)
  }

  /** `updateDoc` merges the fields present in the patch. */
  function ApplyPatch(f: CategoryFields, p: CategoryPatch): CategoryFields {
    CategoryFields(
      if p.name.Some? then p.name.value else f.name,
      if p.icon.Some? then p.icon.value else f.icon,
      if p.kind.Some? then p.kind.value else f.kind)
  }

  /** `${year}-${month}-${categoryId}`, the id of a budget document. */
  function BudgetKey(b: BudgetFields): string {
    IntToString(b.year) + "-" + IntToString(b.month) + "-" + b.categoryId
  }

  /** Reads an integer field ended by a dash off the front of `s`, and what follows the dash. */
  function SplitIntField(s: string): Option<(int, string)> {
    if s == [] then None
    else
      var i := IndexOfFrom(s, '-', 1);
      if i == |s| then None else Some((IntValue(s[..i]), s[i + 1..]))
  }

  lemma SplitIntFieldRoundTrip(n: int, rest: string)
    ensures SplitIntField(IntToString(n) + "-" + rest) == Some((n, rest))
  {
    var s := IntToString(n) + "-" + rest;
    DashAfterInt(n, rest);
    assert s[..|IntToString(n)|] == IntToString(n);
    assert s[|IntToString(n)| + 1..] == rest;
    IntToStringRoundTrip(n);
  }

  /** Splits a budget id back into year, month and category id. */
  function ParseBudgetKey(key: string): Option<(int, int, string)> {
    match SplitIntField(key)
    case None => None
    case Some((year, rest)) =>
      match SplitIntField(rest)
      case None => None
      case Some((month, categoryId)) => Some((year, month, categoryId))
  }

  /** The budget id determines the year, the month and the category id. */
  lemma BudgetKeyRoundTrip(b: BudgetFields)
    ensures ParseBudgetKey(BudgetKey(b)) == Some((b.year, b.month, b.categoryId))
  {
    var tail := IntToString(b.month) + "-" + b.categoryId;
    assert BudgetKey(b) == IntToString(b.year) + "-" + tail;
    SplitIntFieldRoundTrip(b.year, tail);
    SplitIntFieldRoundTrip(b.month, b.categoryId);
  }

  /** Two budgets share a document exactly when they agree on year, month and category. */
  lemma BudgetKeyInjective(a: BudgetFields, b: BudgetFields)
    ensures BudgetKey(a) == BudgetKey(b) <==> SameSlot(a, b)
  {
    BudgetKeyRoundTrip(a);
    BudgetKeyRoundTrip(b);
  }

  /** The budgets collection after `setBudget(b)`: a full overwrite at the budget's key. */
  function WithBudget(budgets: map<string, BudgetFields>, b: BudgetFields): map<string, BudgetFields> {
    budgets[BudgetKey(b) := b]
  }

  /** Two budgets for the same year, month and category. */
  predicate SameSlot(a: BudgetFields, b: BudgetFields) {
    a.year == b.year && a.month == b.month && a.categoryId == b.categoryId
  }

  /** Every budget document sits at the key of its own year, month and category. */
  ghost predicate BudgetsKeyed(budgets: map<string, BudgetFields>) {
    forall k :: k in budgets ==> k == BudgetKey(budgets[k])
  }

  /** Setting the budget of the same year, month and category twice leaves
      the second write, as if the first had not happened. */
  lemma SetBudgetOverwrites(budgets: map<string, BudgetFields>, b1: BudgetFields, b2: BudgetFields)
    requires SameSlot(b1, b2)
    ensures WithBudget(WithBudget(budgets, b1), b2) == WithBudget(budgets, b2)
  {
  }

  /** In a store whose budgets are keyed by their own fields, `setBudget`
      keeps that so and leaves exactly one document for the budget's year,
      month and category, holding the written budget. */
  lemma SetBudgetSingleRecord(budgets: map<string, BudgetFields>, b: BudgetFields)
    requires BudgetsKeyed(budgets)
    ensures BudgetsKeyed(WithBudget(budgets, b))
    ensures BudgetKey(b) in WithBudget(budgets, b) && WithBudget(budgets, b)[BudgetKey(b)] == b
    ensures forall k :: k in WithBudget(budgets, b) && SameSlot(WithBudget(budgets, b)[k], b) ==> k == BudgetKey(b)
  {
    var after := WithBudget(budgets, b);
    forall k | k in after && SameSlot(after[k], b)
      ensures k == BudgetKey(b)
    {
      BudgetKeyInjective(after[k], b);
    }
  }

  /** `defaultCategories`: six expense and two income categories. */
  const DEFAULT_CATEGORIES: seq<CategoryFields> := [
    CategoryFields("餐饮", "FoodIcon", Expense),
    CategoryFields("交通", "TransportIcon", Expense),
    CategoryFields("购物", "ShoppingIcon", Expense),
    CategoryFields("娱乐", "EntertainmentIcon", Expense),
    CategoryFields("住房", "HousingIcon", Expense),
    CategoryFields("医疗", "HealthIcon", Expense),
    CategoryFields("工资", "IncomeIcon", Income),
    CategoryFields("理财", "InvestmentIcon", Income)
  ]

  /** The defaults have distinct names and distinct icons; the first six are
      expense categories and the last two income categories. */
  lemma DefaultCategoriesShape()
    ensures |DEFAULT_CATEGORIES| == 8
    ensures forall i, j :: 0 <= i < j < 8 ==> DEFAULT_CATEGORIES[i].name != DEFAULT_CATEGORIES[j].name
    ensures forall i, j :: 0 <= i < j < 8 ==> DEFAULT_CATEGORIES[i].icon != DEFAULT_CATEGORIES[j].icon
    ensures forall i :: 0 <= i < 8 ==> (DEFAULT_CATEGORIES[i].kind == Expense <==> i < 6)
  {
  }

  /** The seeding batch: default `i` is set at the `i`-th generated document id. */
  function SeedBatch(ids: seq<string>): (batch: seq<(string, CategoryFields)>)
    requires |ids| == |DEFAULT_CATEGORIES|
    ensures |batch| == |ids|
    ensures forall i :: 0 <= i < |ids| ==> batch[i] == (ids[i], DEFAULT_CATEGORIES[i])
  {
    seq(|ids|, i requires 0 <= i < |ids| => (ids[i], DEFAULT_CATEGORIES[i]))
  }

  /** Committing a batch of `set` writes, applied in order. */
  function ApplyWrites(docs: map<string, CategoryFields>, writes: seq<(string, CategoryFields)>): map<string, CategoryFields> {
    if writes == [] then docs
    else ApplyWrites(docs, writes[..|writes| - 1])[writes[|writes| - 1].0 := writes[|writes| - 1].1]
  }

  /** The categories after `initializeDefaultCategories` with a committed
      batch: seeded only when the collection was empty. */
  function Seeded(categories: map<string, CategoryFields>, ids: seq<string>): map<string, CategoryFields>
    requires |ids| == |DEFAULT_CATEGORIES|
  {
    if |categories| == 0 then ApplyWrites(categories, SeedBatch(ids)) else categories
  }

  lemma {:induction false} ApplyWritesContents(writes: seq<(string, CategoryFields)>)
    requires forall i, j :: 0 <= i < j < |writes| ==> writes[i].0 != writes[j].0
    ensures |ApplyWrites(map[], writes)| == |writes|
    ensures forall i :: 0 <= i < |writes| ==>
              writes[i].0 in ApplyWrites(map[], writes) && ApplyWrites(map[], writes)[writes[i].0] == writes[i].1
    ensures forall k :: k in ApplyWrites(map[], writes) ==> exists i :: 0 <= i < |writes| && writes[i].0 == k
  {
    if writes != [] {
      var init := writes[..|writes| - 1];
      ApplyWritesContents(init);
      var before := ApplyWrites(map[], init);
      var last := writes[|writes| - 1];
      var after := ApplyWrites(map[], writes);
      assert after == before[last.0 := last.1];
      assert last.0 !in before;
      assert after.Keys == before.Keys + {last.0};
      forall i | 0 <= i < |writes|
        ensures writes[i].0 in after && after[writes[i].0] == writes[i].1
      {
        if i < |init| {
          assert writes[i] == init[i];
        }
      }
      forall k | k in after
        ensures exists i :: 0 <= i < |writes| && writes[i].0 == k
      {
        if k != last.0 {
          var i :| 0 <= i < |init| && init[i].0 == k;
          assert writes[i] == init[i];
        }
      }
    }
  }

  /** Seeding an empty collection with distinct generated ids stores each of
      the eight defaults exactly once, and nothing else. */
  lemma SeededEmpty(ids: seq<string>)
    requires |ids| == |DEFAULT_CATEGORIES| && Distinct(ids)
    ensures |Seeded(map[], ids)| == 8
    ensures forall i :: 0 <= i < 8 ==> ids[i] in Seeded(map[], ids) && Seeded(map[], ids)[ids[i]] == DEFAULT_CATEGORIES[i]
    ensures forall k :: k in Seeded(map[], ids) ==> k in ids
  {
    var batch := SeedBatch(ids);
    ApplyWritesContents(batch);
  }

  /** A collection that is not empty is left as it is. */
  lemma SeededNonEmpty(categories: map<string, CategoryFields>, ids: seq<string>)
    requires |ids| == |DEFAULT_CATEGORIES| && |categories| > 0
    ensures Seeded(categories, ids) == categories
  {
  }

  /** Seeding twice is seeding once: after the first run the collection is not empty. */
  lemma SeedIdempotent(categories: map<string, CategoryFields>, ids1: seq<string>, ids2: seq<string>)
    requires |ids1| == |DEFAULT_CATEGORIES| && |ids2| == |DEFAULT_CATEGORIES|
    ensures Seeded(Seeded(categories, ids1), ids2) == Seeded(categories, ids1)
  {
    var batch := SeedBatch(ids1);
    var s := Seeded(categories, ids1);
    if |categories| == 0 {
      assert batch[|batch| - 1].0 in s;
    }
  }

  /** The document store behind the three collections. Generated document
      ids and whether an asynchronous write is acknowledged are inputs. */
  class Store {
    var transactions: map<string, TransactionDoc>
    var categories: map<string, CategoryFields>
    var budgets: map<string, BudgetFields>

    constructor(transactions: map<string, TransactionDoc>, categories: map<string, CategoryFields>, budgets: map<string, BudgetFields>)
      ensures this.transactions == transactions && this.categories == categories && this.budgets == budgets
    {
      this.transactions := transactions;
      this.categories := categories;
      this.budgets := budgets;
    }

    /** `addTransaction(draft)`: a new document, under an id not yet in the
        collection, with the draft's fields and its date as a timestamp. */
    method AddTransaction(draft: TransactionDraft, freshId: string)
      requires freshId !in transactions
      modifies this
      ensures transactions == old(transactions)[freshId := TransactionDocOf(draft)]
      ensures |transactions| == |old(transactions)| + 1
      ensures categories == old(categories) && budgets == old(budgets)
    {
      transactions := transactions[freshId := TransactionDocOf(draft)];
    }

    /** `addCategory(fields)`: a new document under an id not yet in the collection. */
    method AddCategory(fields: CategoryFields, freshId: string)
      requires freshId !in categories
      modifies this
      ensures categories == old(categories)[freshId := fields]
      ensures |categories| == |old(categories)| + 1
      ensures transactions == old(transactions) && budgets == old(budgets)
    {
      categories := categories[freshId := fields];
    }

    /** `updateCategory(id, patch)`: merges the patch into that one document;
        Firestore rejects the update when the document does not exist. */
    method UpdateCategory(id: string, patch: CategoryPatch) returns (ok: bool)
      modifies this
      ensures ok <==> id in old(categories)
      ensures ok ==> categories == old(categories)[id := ApplyPatch(old(categories)[id], patch)]
      ensures !ok ==> categories == old(categories)
      ensures transactions == old(transactions) && budgets == old(budgets)
    {
      ok := id in categories;
      if ok {
        categories := categories[id := ApplyPatch(categories[id], patch)];
      }
    }

    /** `deleteCategory(id)`: removes exactly that document. */
    method DeleteCategory(id: string)
      modifies this
      ensures categories == old(categories) - {id}
      ensures transactions == old(transactions) && budgets == old(budgets)
    {
      categories := categories - {id};
    }

    /** `setBudget(b)`: a full overwrite at the budget's composite key. */
    method SetBudget(b: BudgetFields)
      modifies this
      ensures budgets == WithBudget(old(budgets), b)
      ensures transactions == old(transactions) && categories == old(categories)
    {
      budgets := budgets[BudgetKey(b) := b];
    }

    /** `initializeDefaultCategories()`: when the collection is empty, one
        batch setting the eight defaults at generated ids. */
    method InitializeDefaultCategories(ids: seq<string>, committed: bool)
      requires |ids| == |DEFAULT_CATEGORIES|
      modifies this
      ensures categories == if committed then Seeded(old(categories), ids) else old(categories)
      ensures transactions == old(transactions) && budgets == old(budgets)
    {
      if |categories| == 0 {
        var batch: seq<(string, CategoryFields)> := [];
        for i := 0 to |DEFAULT_CATEGORIES|
          invariant batch == SeedBatch(ids)[..i]
        {
          batch := batch + [(ids[i], DEFAULT_CATEGORIES[i])];
        }
        assert batch == SeedBatch(ids);
        if committed {
          categories := ApplyWrites(categories, batch);
        }
      }
    }
  }
}
