/** Sequence helpers: `Array.prototype.filter` and what it keeps. */
module Seqs {

  /** `r` is `s` with some elements left out and the rest in their order. */
  ghost predicate IsSubsequence<T>(r: seq<T>, s: seq<T>)
    decreases |s|
  {
    if r == [] then true
    else if s == [] then false
    else (r[|r| - 1] == s[|s| - 1] && IsSubsequence(r[..|r| - 1], s[..|s| - 1]))
         || IsSubsequence(r, s[..|s| - 1])
  }

  predicate Distinct<T(==)>(s: seq<T>) {
    forall i, j :: 0 <= i < j < |s| ==> s[i] != s[j]
  }

  /** `s.filter(p)`: exactly the elements satisfying `p`, each as often as in
      `s`, in their order in `s`. */
  function Filter<T(==,!new)>(s: seq<T>, p: T -> bool): (r: seq<T>)
    ensures forall x :: x in r <==> x in s && p(x)
    ensures forall x :: multiset(r)[x] == if p(x) then multiset(s)[x] else 0
    ensures IsSubsequence(r, s)
    decreases |s|, 1
  {
    if s == [] then []
    else
      var init, last := s[..|s| - 1], s[|s| - 1];
      var r := Filter(init, p) + (if p(last) then [last] else []);
      assert s == init + [last];
      FilterStepCounts(init, last, p);
      assert p(last) ==> r[..|r| - 1] == Filter(init, p);
      assert !p(last) ==> r == Filter(init, p);
      assert forall x :: x in s <==> x in init || x == last;
      r
  }

  /** One more element: the kept elements' counts follow the input's. */
  lemma FilterStepCounts<T(!new)>(init: seq<T>, last: T, p: T -> bool)
    ensures forall x :: multiset(Filter(init, p) + (if p(last) then [last] else []))[x] ==
                        if p(x) then multiset(init + [last])[x] else 0
    decreases |init| + 1, 0
  {
  }

  lemma FilterSnoc<T(!new)>(s: seq<T>, x: T, p: T -> bool)
    ensures Filter(s + [x], p) == Filter(s, p) + (if p(x) then [x] else [])
  {
    assert (s + [x])[..|s|] == s;
  }

  /** The index of the first occurrence of `x` in `s`. */
  function FirstIndex<T(==)>(s: seq<T>, x: T): (i: nat)
    requires x in s
    ensures i < |s| && s[i] == x && x !in s[..i]
  {
    if s[0] == x then 0
    else
      var i := 1 + FirstIndex(s[1..], x);
      assert s[..i] == [s[0]] + s[1..][..i - 1];
      i
  }

  /** The elements of `keys` occur in `s`, each first occurring before the
      first occurrence of the next. */
  predicate FirstSeenOrder<T(==)>(keys: seq<T>, s: seq<T>) {
    forall i, j :: 0 <= i < j < |keys| ==>
      keys[i] in s && keys[j] in s && FirstIndex(s, keys[i]) < FirstIndex(s, keys[j])
  }

  /** An occurrence with no earlier one is the first. */
  lemma FirstIndexUnique<T>(s: seq<T>, x: T, i: nat)
    requires i < |s| && s[i] == x && x !in s[..i]
    ensures FirstIndex(s, x) == i
  {
    var f := FirstIndex(s, x);
    assert forall j :: 0 <= j < i ==> s[..i][j] == s[j];
    assert forall j :: 0 <= j < f ==> s[..f][j] == s[j];
  }

  /** Appending an element leaves every first occurrence where it was, and
      an element new to the sequence first occurs at the end. */
  lemma FirstIndexSnoc<T>(s: seq<T>, y: T, x: T)
    ensures x in s ==> x in s + [y] && FirstIndex(s + [y], x) == FirstIndex(s, x)
    ensures x !in s && x == y ==> FirstIndex(s + [y], x) == |s|
  {
    if x in s {
      var i := FirstIndex(s, x);
      assert (s + [y])[..i] == s[..i];
      FirstIndexUnique(s + [y], x, i);
    } else if x == y {
      assert (s + [y])[..|s|] == s;
      FirstIndexUnique(s + [y], x, |s|);
    }
  }
}
