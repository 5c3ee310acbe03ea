/** The transaction list (components/TransactionList.tsx): transactions
    grouped under their ISO day, days newest first, each row labelled with
    its category's name. */
module TransactionList {
  import opened Types
  import opened Format
  import opened Seqs
  import opened Dicts
  import opened Calendar

  /** The `Map` from category id to category: a later category with the
      same id replaces an earlier one. */
  function CategoryIndex(cats: seq<Category>): map<string, Category> {
    if cats == [] then map[]
    else CategoryIndex(cats[..|cats| - 1])[cats[|cats| - 1].id := cats[|cats| - 1]]
  }

  /** `categoryMap`: `map.set(cat.id, cat)` for each category in order. */
  method CategoryMap(cats: seq<Category>) returns (index: map<string, Category>)
    ensures index == CategoryIndex(cats)
  {
    index := map[];
    for i := 0 to |cats|
      invariant index == CategoryIndex(cats[..i])
    {
      assert cats[..i + 1][..i] == cats[..i];
      index := index[cats[i].id := cats[i]];
    }
    assert cats[..|cats|] == cats;
  }

  /** Every category id is in the index, nothing else is, and an id maps to
      the last category carrying it. */
  lemma CategoryIndexMeaning(cats: seq<Category>)
    ensures forall id :: id in CategoryIndex(cats) <==> exists i :: 0 <= i < |cats| && cats[i].id == id
    ensures forall id :: id in CategoryIndex(cats) ==>
              exists i :: 0 <= i < |cats| && cats[i] == CategoryIndex(cats)[id] &&
                          forall j :: i < j < |cats| ==> cats[j].id != id
  {
    CategoryIndexKeys(cats);
    CategoryIndexLatest(cats);
  }

  lemma {:induction false} CategoryIndexKeys(cats: seq<Category>)
    ensures forall id :: id in CategoryIndex(cats) <==> exists i :: 0 <= i < |cats| && cats[i].id == id
  {
    if cats != [] {
      var init, last := cats[..|cats| - 1], cats[|cats| - 1];
      CategoryIndexKeys(init);
      forall id | id in CategoryIndex(cats)
        ensures exists i :: 0 <= i < |cats| && cats[i].id == id
      {
        if id == last.id {
          assert cats[|cats| - 1].id == id;
        } else {
          assert id in CategoryIndex(init);
          var i :| 0 <= i < |init| && init[i].id == id;
          assert cats[i] == init[i];
        }
      }
      forall id | exists i :: 0 <= i < |cats| && cats[i].id == id
        ensures id in CategoryIndex(cats)
      {
        var i :| 0 <= i < |cats| && cats[i].id == id;
        if i < |init| {
          assert init[i] == cats[i];
        }
      }
    }
  }

  lemma {:induction false} CategoryIndexLatest(cats: seq<Category>)
    ensures forall id :: id in CategoryIndex(cats) ==>
              exists i :: 0 <= i < |cats| && cats[i] == CategoryIndex(cats)[id] &&
                          forall j :: i < j < |cats| ==> cats[j].id != id
  {
    if cats != [] {
      var init, last := cats[..|cats| - 1], cats[|cats| - 1];
      CategoryIndexLatest(init);
      forall id | id in CategoryIndex(cats)
        ensures exists i :: 0 <= i < |cats| && cats[i] == CategoryIndex(cats)[id] &&
                            forall j :: i < j < |cats| ==> cats[j].id != id
      {
        if id == last.id {
          assert cats[|cats| - 1] == CategoryIndex(cats)[id];
        } else {
          assert id in CategoryIndex(init);
          var i :| 0 <= i < |init| && init[i] == CategoryIndex(init)[id] &&
                   forall j :: i < j < |init| ==> init[j].id != id;
          assert cats[i] == init[i];
          forall j | i < j < |cats|
            ensures cats[j].id != id
          {
            if j < |init| {
              assert cats[j] == init[j];
            }
          }
        }
      }
    }
  }

  /** The row label when the category is missing or has an empty name. */
  const UNCATEGORIZED := "未分类"

  /** `category?.name || '未分类'`: the category's name, unless the category
      is unknown or its name is empty. A label is never empty. */
  function CategoryLabel(index: map<string, Category>, categoryId: string): (name: string)
    ensures name != []
    ensures categoryId !in index ==> name == UNCATEGORIZED
    ensures categoryId in index && index[categoryId].name != [] ==> name == index[categoryId].name
    ensures categoryId in index && index[categoryId].name == [] ==> name == UNCATEGORIZED
  {
    if categoryId in index && index[categoryId].name != [] then index[categoryId].name else UNCATEGORIZED
  }

  /** The ISO day key of a dated transaction. */
  function DayOf(tx: Transaction): string
    requires tx.date.Some?
  {
    DayKey(tx.date.value)
  }

  /** The transactions filed under day key `key`. */
  function OnDay(key: string): Transaction -> bool {
    (tx: Transaction) => tx.date.Some? && DayKey(tx.date.value) == key
  }

  /** The group of `key`, or no transactions when it has none yet (`!groups[dateStr]`). */
  function GroupOf(groups: Dict<seq<Transaction>>, key: string): seq<Transaction> {
    if key in groups.entries then groups.entries[key] else []
  }

  /** The dictionary `groupedTransactions` builds: each dated transaction is
      pushed onto the group of its day; undated ones are skipped. */
  function Groups(txs: seq<Transaction>): Dict<seq<Transaction>> {
    if txs == [] then Empty()
    else
      var groups, tx := Groups(txs[..|txs| - 1]), txs[|txs| - 1];
      if tx.date.Some? then Put(groups, DayOf(tx), GroupOf(groups, DayOf(tx)) + [tx]) else groups
  }

  /** `groupedTransactions`. */
  method GroupByDay(txs: seq<Transaction>) returns (groups: Dict<seq<Transaction>>)
    ensures groups == Groups(txs)
  {
    groups := Empty();
    for i := 0 to |txs|
      invariant groups == Groups(txs[..i])
    {
      var tx := txs[i];
      assert txs[..i + 1][..i] == txs[..i];
      if tx.date.Some? {
        var dateStr := DayKey(tx.date.value);
        if dateStr !in groups.entries {
          groups := Put(groups, dateStr, []);
        }
        groups := Put(groups, dateStr, groups.entries[dateStr] + [tx]);
      }
    }
    assert txs[..|txs|] == txs;
  }

  /** Some dated transaction falls on day `k`. */
  predicate HasDay(txs: seq<Transaction>, k: string) {
    exists i :: 0 <= i < |txs| && txs[i].date.Some? && DayOf(txs[i]) == k
  }

  lemma HasDaySnoc(init: seq<Transaction>, tx: Transaction, k: string)
    ensures HasDay(init + [tx], k) <==> HasDay(init, k) || (tx.date.Some? && DayOf(tx) == k)
  {
    var txs := init + [tx];
    if HasDay(txs, k) {
      var i :| 0 <= i < |txs| && txs[i].date.Some? && DayOf(txs[i]) == k;
      if i < |init| {
        assert init[i] == txs[i];
      }
    }
    if HasDay(init, k) {
      var i :| 0 <= i < |init| && init[i].date.Some? && DayOf(init[i]) == k;
      assert txs[i] == init[i];
    }
    if tx.date.Some? && DayOf(tx) == k {
      assert txs[|init|] == tx;
    }
  }

  lemma GroupsSnoc(init: seq<Transaction>, tx: Transaction)
    ensures Groups(init + [tx]) ==
              if tx.date.Some? then Put(Groups(init), DayOf(tx), GroupOf(Groups(init), DayOf(tx)) + [tx])
              else Groups(init)
  {
    assert (init + [tx])[..|init|] == init;
  }

  /** The grouping is a dictionary whose keys are exactly the days of the
      dated transactions, each listed once. */
  lemma {:induction false} GroupsKeys(txs: seq<Transaction>)
    ensures Valid(Groups(txs))
    ensures forall k :: k in Groups(txs).entries <==> HasDay(txs, k)
  {
    if txs != [] {
      var init, tx := txs[..|txs| - 1], txs[|txs| - 1];
      assert txs == init + [tx];
      GroupsKeys(init);
      GroupsSnoc(init, tx);
      forall k
        ensures k in Groups(txs).entries <==> HasDay(txs, k)
      {
        HasDaySnoc(init, tx, k);
      }
    }
  }

  /** No transaction of a day that has no dated transaction survives the filter. */
  lemma {:induction false} NoneOnDay(txs: seq<Transaction>, k: string)
    requires !HasDay(txs, k)
    ensures Filter(txs, OnDay(k)) == []
  {
    if txs != [] {
      var init, tx := txs[..|txs| - 1], txs[|txs| - 1];
      assert txs == init + [tx];
      HasDaySnoc(init, tx, k);
      NoneOnDay(init, k);
      FilterSnoc(init, tx, OnDay(k));
    }
  }

  /** The group of a day holds exactly that day's transactions, in their
      order; so no group is empty and no dated transaction is lost. */
  lemma {:induction false} GroupsContents(txs: seq<Transaction>)
    ensures forall k :: k in Groups(txs).entries ==> Groups(txs).entries[k] == Filter(txs, OnDay(k))
    ensures forall k :: k in Groups(txs).entries ==> Groups(txs).entries[k] != []
  {
    if txs != [] {
      var init, tx := txs[..|txs| - 1], txs[|txs| - 1];
      GroupsContents(init);
      GroupsKeys(init);
      assert txs == init + [tx];
      GroupsSnoc(init, tx);
      forall k | k in Groups(txs).entries
        ensures Groups(txs).entries[k] == Filter(txs, OnDay(k))
      {
        FilterSnoc(init, tx, OnDay(k));
        if k !in Groups(init).entries {
          NoneOnDay(init, k);
        }
      }
    }
  }

  /** Both halves of the meaning of the grouping. */
  lemma GroupsMeaning(txs: seq<Transaction>)
    ensures Valid(Groups(txs))
    ensures forall k :: k in Groups(txs).entries <==> HasDay(txs, k)
    ensures forall k :: k in Groups(txs).entries ==> Groups(txs).entries[k] == Filter(txs, OnDay(k))
    ensures forall k :: k in Groups(txs).entries ==> Groups(txs).entries[k] != []
  {
    GroupsKeys(txs);
    GroupsContents(txs);
  }

  /** `r` lists no key before a larger one (`localeCompare` order, read as
      code-point order). */
  predicate Descending(r: seq<string>) {
    forall i, j :: 0 <= i < j < |r| ==> !LexLess(r[i], r[j])
  }

  lemma NotLessTransitive(a: string, b: string, c: string)
    requires !LexLess(a, b) && !LexLess(b, c)
    ensures !LexLess(a, c)
  {
    if LexLess(a, c) {
      if a != b {
        LexTotal(a, b);
        LexTransitive(b, a, c);
      }
    }
  }

  /** Inserts `x` before the first key it is not smaller than. */
  function InsertDescending(x: string, r: seq<string>): (res: seq<string>)
    requires Descending(r)
    ensures multiset(res) == multiset(r) + multiset{x}
    ensures Descending(res)
  {
    if r == [] then [x]
    else if !LexLess(x, r[0]) then
      NotBelowAny(x, r);
      [x] + r
    else
      assert r == [r[0]] + r[1..];
      var tail := InsertDescending(x, r[1..]);
      HeadAboveInsert(x, r, tail);
      [r[0]] + tail
  }

  /** A key not smaller than the head of a descending list is smaller than none of it. */
  lemma NotBelowAny(x: string, r: seq<string>)
    requires Descending(r) && r != [] && !LexLess(x, r[0])
    ensures forall k :: 0 <= k < |r| ==> !LexLess(x, r[k])
  {
    forall k | 0 < k < |r|
      ensures !LexLess(x, r[k])
    {
      NotLessTransitive(x, r[0], r[k]);
    }
  }

  /** The head of a descending list stays above the rest after a smaller key joins it. */
  lemma HeadAboveInsert(x: string, r: seq<string>, tail: seq<string>)
    requires Descending(r) && r != [] && LexLess(x, r[0])
    requires multiset(tail) == multiset(r[1..]) + multiset{x}
    ensures forall y :: y in tail ==> !LexLess(r[0], y)
  {
    forall y | y in tail
      ensures !LexLess(r[0], y)
    {
      assert y in multiset(tail);
      if y == x {
        LexAsymmetric(x, r[0]);
      } else {
        assert y in multiset(r[1..]);
        var k :| 0 <= k < |r[1..]| && r[1..][k] == y;
        assert r[k + 1] == y;
      }
    }
  }

  /** `keys.sort((a, b) => b.localeCompare(a))`: the same keys, largest first. */
  function SortDescending(keys: seq<string>): (r: seq<string>)
    ensures multiset(r) == multiset(keys)
    ensures Descending(r)
  {
    if keys == [] then []
    else
      assert keys == [keys[0]] + keys[1..];
      InsertDescending(keys[0], SortDescending(keys[1..]))
  }

  /** Sorting distinct keys gives a strictly decreasing list of the same keys. */
  lemma SortDescendingStrict(keys: seq<string>)
    requires Distinct(keys)
    ensures Distinct(SortDescending(keys))
    ensures forall i, j :: 0 <= i < j < |SortDescending(keys)| ==>
              LexLess(SortDescending(keys)[j], SortDescending(keys)[i])
  {
    var r := SortDescending(keys);
    forall i, j | 0 <= i < j < |r|
      ensures r[i] != r[j]
    {
      if r[i] == r[j] {
        var s := multiset(r);
        assert multiset(r[..j]) + multiset(r[j..]) == s by {
          assert r == r[..j] + r[j..];
        }
        assert r[i] in multiset(r[..j]);
        assert r[j] in multiset(r[j..]);
        assert s[r[i]] >= 2;
        DistinctCountsOne(keys, r[i]);
      }
    }
    forall i, j | 0 <= i < j < |r|
      ensures LexLess(r[j], r[i])
    {
      LexTotal(r[i], r[j]);
    }
  }

  lemma {:induction false} DistinctCountsOne(s: seq<string>, x: string)
    requires Distinct(s)
    ensures multiset(s)[x] <= 1
  {
    if s != [] {
      assert s == [s[0]] + s[1..];
      DistinctCountsOne(s[1..], x);
      if x == s[0] {
        assert x !in s[1..];
      }
    }
  }

  /** The day headings, newest day first. */
  function SortedDates(txs: seq<Transaction>): seq<string> {
    SortDescending(Groups(txs).keys)
  }

  /** Of two dated transactions in four-digit years, the later day's heading
      comes first; two transactions of the same day share one heading. */
  lemma NewestDayFirst(txs: seq<Transaction>, a: Transaction, b: Transaction)
    requires a in txs && b in txs && a.date.Some? && b.date.Some?
    requires 0 <= a.date.value.year <= 9999 && 0 <= b.date.value.year <= 9999
    requires DateBefore(a.date.value, b.date.value)
    ensures exists i, j :: 0 <= i < j < |SortedDates(txs)| &&
              SortedDates(txs)[i] == DayOf(b) && SortedDates(txs)[j] == DayOf(a)
  {
    var r := SortedDates(txs);
    DayHasHeading(txs, a);
    DayHasHeading(txs, b);
    var j :| 0 <= j < |r| && r[j] == DayOf(a);
    var i :| 0 <= i < |r| && r[i] == DayOf(b);
    DayKeyChronological(a.date.value, b.date.value);
    LexIrreflexive(DayOf(a));
    LexAsymmetric(DayOf(a), DayOf(b));
    assert i < j;
  }

  /** Every dated transaction's day has a heading. */
  lemma DayHasHeading(txs: seq<Transaction>, t: Transaction)
    requires t in txs && t.date.Some?
    ensures DayOf(t) in SortedDates(txs)
  {
    GroupsMeaning(txs);
    var k :| 0 <= k < |txs| && txs[k] == t;
    assert HasDay(txs, DayOf(t));
    assert DayOf(t) in multiset(SortedDates(txs));
  }

  /** Each heading names a group, which holds that day's transactions. */
  lemma HeadingsAreGroups(txs: seq<Transaction>)
    ensures forall i :: 0 <= i < |SortedDates(txs)| ==>
              && SortedDates(txs)[i] in Groups(txs).entries
              && Groups(txs).entries[SortedDates(txs)[i]] == Filter(txs, OnDay(SortedDates(txs)[i]))
  {
    var dates := SortedDates(txs);
    GroupsMeaning(txs);
    forall i | 0 <= i < |dates|
      ensures dates[i] in Groups(txs).entries
    {
      assert dates[i] in multiset(dates);
    }
  }

  /** One line of the list: the transaction and the label under its description. */
  datatype Row = Row(tx: Transaction, categoryName: string)

  /** One day: its heading and its rows. */
  datatype DayGroup = DayGroup(date: string, rows: seq<Row>)

  /** What the list shows: the "no records" message, or the day groups. */
  datatype Screen = NoRecords | Days(days: seq<DayGroup>)

  /** The rows of one group, in the order the transactions were pushed:
      each shows its transaction under the name of its category, or under
      the fallback when the category is unknown or its name is empty. */
  function RowsOf(group: seq<Transaction>, index: map<string, Category>): (rows: seq<Row>)
    ensures |rows| == |group|
    ensures forall j :: 0 <= j < |rows| ==> rows[j].tx == group[j] && rows[j].categoryName != []
    ensures forall j :: 0 <= j < |rows| && group[j].categoryId in index && index[group[j].categoryId].name != [] ==>
              rows[j].categoryName == index[group[j].categoryId].name
    ensures forall j :: 0 <= j < |rows| && (group[j].categoryId !in index || index[group[j].categoryId].name == []) ==>
              rows[j].categoryName == UNCATEGORIZED
  {
    seq(|group|, j requires 0 <= j < |group| => Row(group[j], CategoryLabel(index, group[j].categoryId)))
  }

  /** The rendered list. An empty input shows the message; otherwise one
      group per heading of `SortedDates`, holding that day's transactions
      in their input order. */
  function Render(txs: seq<Transaction>, cats: seq<Category>): (s: Screen)
    ensures s.NoRecords? <==> txs == []
    ensures s.Days? ==> |s.days| == |SortedDates(txs)|
    ensures s.Days? ==> forall i :: 0 <= i < |s.days| ==>
              && s.days[i].date == SortedDates(txs)[i]
              && s.days[i].rows == RowsOf(Filter(txs, OnDay(s.days[i].date)), CategoryIndex(cats))
  {
    if txs == [] then NoRecords
    else
      var groups, dates, index := Groups(txs), SortedDates(txs), CategoryIndex(cats);
      HeadingsAreGroups(txs);
      Days(seq(|dates|, i requires 0 <= i < |dates| => DayGroup(dates[i], RowsOf(groups.entries[dates[i]], index))))
  }
}
