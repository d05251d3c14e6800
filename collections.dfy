/** Sequence operations the source takes from the JavaScript runtime or the data
    service: `Array.prototype.sort` with a numeric comparator (stable),
    `Math.min`/`Math.max` over a spread list, `Array.from(new Set(xs))`, and a
    row limit. */
module Collections {
  import opened Base

  // ---- stable sort by an integer key --------------------------------------

  predicate SortedBy<T>(s: seq<T>, key: T -> int)
  {
    forall i, j :: 0 <= i < j < |s| ==> key(s[i]) <= key(s[j])
  }

  /** Puts `x` in front of the first element whose key is not smaller. */
  function Insert<T(==)>(x: T, s: seq<T>, key: T -> int): (r: seq<T>)
    ensures |r| == |s| + 1
    decreases |s|
  {
    if s == [] || key(x) <= key(s[0]) then [x] + s
    else [s[0]] + Insert(x, s[1..], key)
  }

  /** Inserting adds `x` and loses nothing. */
  lemma {:induction false} InsertPermutes<T>(x: T, s: seq<T>, key: T -> int)
    ensures multiset(Insert(x, s, key)) == multiset(s) + multiset{x}
    decreases |s|
  {
    if s != [] && key(x) > key(s[0]) {
      InsertPermutes(x, s[1..], key);
      assert s == [s[0]] + s[1..];
    }
  }

  /** Every key of the result is at least any bound that `x` and `s` respect. */
  lemma {:induction false} InsertLowerBound<T>(x: T, s: seq<T>, key: T -> int, b: int)
    requires key(x) >= b
    requires forall i :: 0 <= i < |s| ==> key(s[i]) >= b
    ensures forall i :: 0 <= i < |Insert(x, s, key)| ==> key(Insert(x, s, key)[i]) >= b
    decreases |s|
  {
    if s != [] && key(x) > key(s[0]) {
      InsertLowerBound(x, s[1..], key, b);
    }
  }

  lemma {:induction false} InsertSorted<T>(x: T, s: seq<T>, key: T -> int)
    requires SortedBy(s, key)
    ensures SortedBy(Insert(x, s, key), key)
    decreases |s|
  {
    if s != [] && key(x) > key(s[0]) {
      InsertSorted(x, s[1..], key);
      InsertLowerBound(x, s[1..], key, key(s[0]));
    }
  }

  /** `xs.sort((a, b) => key(a) - key(b))`: an insertion sort, stable because an
      element is placed before the later elements that share its key. */
  function SortBy<T(==)>(s: seq<T>, key: T -> int): (r: seq<T>)
    ensures SortedBy(r, key)
    ensures multiset(r) == multiset(s)
    decreases |s|
  {
    if s == [] then []
    else
      assert s == [s[0]] + s[1..];
      InsertSorted(s[0], SortBy(s[1..], key), key);
      InsertPermutes(s[0], SortBy(s[1..], key), key);
      Insert(s[0], SortBy(s[1..], key), key)
  }

  /** The elements whose key is `k`, in order. */
  function WithKey<T>(s: seq<T>, k: int, key: T -> int): seq<T>
    decreases |s|
  {
    if s == [] then []
    else (if key(s[0]) == k then [s[0]] else []) + WithKey(s[1..], k, key)
  }

  lemma {:induction false} InsertWithKey<T>(x: T, s: seq<T>, k: int, key: T -> int)
    requires SortedBy(s, key)
    ensures WithKey(Insert(x, s, key), k, key) ==
            (if key(x) == k then [x] else []) + WithKey(s, k, key)
    decreases |s|
  {
    var mine: seq<T> := if key(x) == k then [x] else [];
    if s == [] || key(x) <= key(s[0]) {
      var r := [x] + s;
      assert Insert(x, s, key) == r;
      assert r[0] == x && r[1..] == s;
      assert WithKey(r, k, key) == mine + WithKey(s, k, key);
    } else {
      var head: seq<T> := if key(s[0]) == k then [s[0]] else [];
      var rest := WithKey(s[1..], k, key);
      assert SortedBy(s[1..], key);
      InsertWithKey(x, s[1..], k, key);
      var t := Insert(x, s[1..], key);
      var r := [s[0]] + t;
      assert Insert(x, s, key) == r;
      assert r[0] == s[0] && r[1..] == t;
      assert WithKey(r, k, key) == head + WithKey(t, k, key);
      assert WithKey(t, k, key) == mine + rest;
      assert WithKey(s, k, key) == head + rest;
      if key(x) == k {
        assert head == [];
      } else {
        assert mine == [];
      }
    }
  }

  /** The sort is stable: among elements with equal keys the input order is kept. */
  lemma {:induction false} SortByStable<T>(s: seq<T>, k: int, key: T -> int)
    ensures WithKey(SortBy(s, key), k, key) == WithKey(s, k, key)
    decreases |s|
  {
    if s != [] {
      SortByStable(s[1..], k, key);
      InsertWithKey(s[0], SortBy(s[1..], key), k, key);
    }
  }

  /** Sorting a sequence that is already in key order changes nothing. */
  lemma {:induction false} SortBySortedIsIdentity<T>(s: seq<T>, key: T -> int)
    requires SortedBy(s, key)
    ensures SortBy(s, key) == s
    decreases |s|
  {
    if s != [] {
      assert SortedBy(s[1..], key);
      SortBySortedIsIdentity(s[1..], key);
      assert s == [s[0]] + s[1..];
    }
  }

  /** `xs.filter(keep)`. */
  function Filter<T>(s: seq<T>, keep: T -> bool): (r: seq<T>)
    ensures |r| <= |s|
    ensures forall i :: 0 <= i < |r| ==> keep(r[i])
    decreases |s|
  {
    if s == [] then []
    else (if keep(s[0]) then [s[0]] else []) + Filter(s[1..], keep)
  }

  /** Nothing that passes the test is dropped. */
  lemma {:induction false} FilterComplete<T>(s: seq<T>, keep: T -> bool, j: nat)
    requires j < |s| && keep(s[j])
    ensures s[j] in Filter(s, keep)
    decreases |s|
  {
    if j > 0 {
      assert s[1..][j - 1] == s[j];
      FilterComplete(s[1..], keep, j - 1);
    }
  }

  /** Filtering keeps the order of the input: filtering two parts in sequence
      is filtering the whole. */
  lemma {:induction false} FilterAppend<T>(a: seq<T>, b: seq<T>, keep: T -> bool)
    ensures Filter(a + b, keep) == Filter(a, keep) + Filter(b, keep)
    decreases |a|
  {
    if a == [] {
      assert a + b == b;
    } else {
      assert (a + b)[1..] == a[1..] + b;
      FilterAppend(a[1..], b, keep);
    }
  }

  /** A bound that every key of `s` respects holds for every kept element. */
  lemma {:induction false} FilterLowerBound<T>(s: seq<T>, keep: T -> bool, key: T -> int, b: int)
    requires forall i :: 0 <= i < |s| ==> key(s[i]) >= b
    ensures forall i :: 0 <= i < |Filter(s, keep)| ==> key(Filter(s, keep)[i]) >= b
    decreases |s|
  {
    if s != [] {
      FilterLowerBound(s[1..], keep, key, b);
    }
  }

  /** Each kept element is an element of the input. */
  lemma {:induction false} FilterSubset<T>(s: seq<T>, keep: T -> bool, i: nat)
    requires i < |Filter(s, keep)|
    ensures exists j :: 0 <= j < |s| && s[j] == Filter(s, keep)[i]
    decreases |s|
  {
    if keep(s[0]) && i == 0 {
      assert s[0] == Filter(s, keep)[0];
    } else {
      var k := if keep(s[0]) then i - 1 else i;
      assert Filter(s, keep)[i] == Filter(s[1..], keep)[k];
      FilterSubset(s[1..], keep, k);
      var j :| 0 <= j < |s[1..]| && s[1..][j] == Filter(s[1..], keep)[k];
      assert s[j + 1] == Filter(s, keep)[i];
    }
  }

  lemma FilterCons<T>(x: T, t: seq<T>, keep: T -> bool)
    ensures Filter([x] + t, keep) == (if keep(x) then [x] else []) + Filter(t, keep)
  {
    assert ([x] + t)[1..] == t;
  }

  lemma FilterInsertFront<T>(x: T, t: seq<T>, key: T -> int, keep: T -> bool)
    requires SortedBy(t, key)
    requires t == [] || key(x) <= key(t[0])
    ensures Filter(Insert(x, t, key), keep) ==
            if keep(x) then Insert(x, Filter(t, keep), key) else Filter(t, keep)
  {
    var f := Filter(t, keep);
    assert Insert(x, t, key) == [x] + t;
    FilterCons(x, t, keep);
    if keep(x) {
      if t != [] {
        FilterLowerBound(t, keep, key, key(t[0]));
      }
      assert Insert(x, f, key) == [x] + f;
    }
  }

  /** Unfolds `Insert` and `Filter` once past a smaller head `t[0]`. */
  lemma FilterInsertPastHead<T>(x: T, t: seq<T>, key: T -> int, keep: T -> bool)
    requires t != [] && key(x) > key(t[0])
    ensures Filter(Insert(x, t, key), keep) ==
            (if keep(t[0]) then [t[0]] else []) + Filter(Insert(x, t[1..], key), keep)
    ensures Filter(t, keep) == (if keep(t[0]) then [t[0]] else []) + Filter(t[1..], keep)
  {
    assert Insert(x, t, key) == [t[0]] + Insert(x, t[1..], key);
    FilterCons(t[0], Insert(x, t[1..], key), keep);
    assert t == [t[0]] + t[1..];
    FilterCons(t[0], t[1..], keep);
  }

  lemma InsertPastHead<T>(x: T, y: T, f: seq<T>, key: T -> int)
    requires key(x) > key(y)
    ensures Insert(x, [y] + f, key) == [y] + Insert(x, f, key)
  {
    assert ([y] + f)[1..] == f;
  }

  lemma FilterInsertBehind<T>(x: T, t: seq<T>, key: T -> int, keep: T -> bool)
    requires t != [] && key(x) > key(t[0])
    requires Filter(Insert(x, t[1..], key), keep) ==
             if keep(x) then Insert(x, Filter(t[1..], keep), key) else Filter(t[1..], keep)
    ensures Filter(Insert(x, t, key), keep) ==
            if keep(x) then Insert(x, Filter(t, keep), key) else Filter(t, keep)
  {
    FilterInsertPastHead(x, t, key, keep);
    var head := if keep(t[0]) then [t[0]] else [];
    var f1 := Filter(t[1..], keep);
    var g := Filter(Insert(x, t[1..], key), keep);
    assert Filter(Insert(x, t, key), keep) == head + g;
    assert Filter(t, keep) == head + f1;
    if keep(x) {
      assert g == Insert(x, f1, key);
      if keep(t[0]) {
        InsertPastHead(x, t[0], f1, key);
      } else {
        assert head + f1 == f1;
        assert head + g == g;
      }
    } else {
      assert g == f1;
    }
  }

  /** Filtering after inserting into a sorted sequence is inserting (if kept)
      into the filtered sequence. */
  lemma {:induction false} FilterInsert<T>(x: T, t: seq<T>, key: T -> int, keep: T -> bool)
    requires SortedBy(t, key)
    ensures Filter(Insert(x, t, key), keep) ==
            if keep(x) then Insert(x, Filter(t, keep), key) else Filter(t, keep)
    decreases |t|
  {
    if t == [] || key(x) <= key(t[0]) {
      FilterInsertFront(x, t, key, keep);
    } else {
      assert SortedBy(t[1..], key);
      FilterInsert(x, t[1..], key, keep);
      FilterInsertBehind(x, t, key, keep);
    }
  }

  /** Unfolds `SortBy` and `Filter` once at the head of `s`. */
  lemma FilterSortUnfold<T>(s: seq<T>, key: T -> int, keep: T -> bool)
    requires s != []
    ensures SortBy(s, key) == Insert(s[0], SortBy(s[1..], key), key)
    ensures Filter(s, keep) == (if keep(s[0]) then [s[0]] else []) + Filter(s[1..], keep)
  {
    assert s == [s[0]] + s[1..];
    FilterCons(s[0], s[1..], keep);
  }

  lemma SortByCons<T>(x: T, f: seq<T>, key: T -> int)
    ensures SortBy([x] + f, key) == Insert(x, SortBy(f, key), key)
  {
    assert ([x] + f)[1..] == f;
  }

  lemma FilterSortStep<T>(s: seq<T>, key: T -> int, keep: T -> bool)
    requires s != []
    requires Filter(SortBy(s[1..], key), keep) == SortBy(Filter(s[1..], keep), key)
    requires Filter(Insert(s[0], SortBy(s[1..], key), key), keep) ==
             if keep(s[0]) then Insert(s[0], Filter(SortBy(s[1..], key), keep), key)
             else Filter(SortBy(s[1..], key), keep)
    ensures Filter(SortBy(s, key), keep) == SortBy(Filter(s, keep), key)
  {
    FilterSortUnfold(s, key, keep);
    var sorted1 := SortBy(s[1..], key);
    var f1 := Filter(s[1..], keep);
    assert Filter(SortBy(s, key), keep) == Filter(Insert(s[0], sorted1, key), keep);
    assert Filter(sorted1, keep) == SortBy(f1, key);
    if keep(s[0]) {
      assert Filter(s, keep) == [s[0]] + f1;
      SortByCons(s[0], f1, key);
      assert Filter(Insert(s[0], sorted1, key), keep) == Insert(s[0], SortBy(f1, key), key);
    } else {
      assert Filter(s, keep) == f1;
      assert Filter(Insert(s[0], sorted1, key), keep) == Filter(sorted1, keep);
    }
  }

  /** Dropping elements before or after a stable sort gives the same sequence. */
  lemma {:induction false} FilterSortCommute<T>(s: seq<T>, key: T -> int, keep: T -> bool)
    ensures Filter(SortBy(s, key), keep) == SortBy(Filter(s, keep), key)
    decreases |s|
  {
    if s != [] {
      FilterSortCommute(s[1..], key, keep);
      FilterInsert(s[0], SortBy(s[1..], key), key, keep);
      FilterSortStep(s, key, keep);
    }
  }

  /** Sorting what a filter kept keeps only such elements. */
  lemma SortedFilterKeeps<T>(s: seq<T>, key: T -> int, keep: T -> bool)
    ensures forall i :: 0 <= i < |SortBy(Filter(s, keep), key)| ==> keep(SortBy(Filter(s, keep), key)[i])
  {
    FilterSortCommute(s, key, keep);
  }

  // ---- map, then drop the nulls -------------------------------------------

  /** `xs.map(f)` where a null result shows nothing: the values `f` gives, in
      the order of `s`. */
  function FilterMap<A, B>(s: seq<A>, f: A -> Option<B>): (r: seq<B>)
    ensures |r| <= |s|
    decreases |s|
  {
    if s == [] then []
    else (if f(s[0]).Some? then [f(s[0]).value] else []) + FilterMap(s[1..], f)
  }

  /** When every element yields nothing, nothing is shown. */
  lemma {:induction false} FilterMapAllNone<A, B>(s: seq<A>, f: A -> Option<B>)
    requires forall i :: 0 <= i < |s| ==> f(s[i]).None?
    ensures FilterMap(s, f) == []
    decreases |s|
  {
    if s != [] {
      assert forall i :: 0 <= i < |s[1..]| ==> s[1..][i] == s[i + 1];
      FilterMapAllNone(s[1..], f);
    }
  }

  /** Elements that `keep` refuses can only yield nothing, so dropping them
      first changes nothing. */
  lemma {:induction false} FilterMapDropsUnkept<A, B>(s: seq<A>, f: A -> Option<B>, keep: A -> bool)
    requires forall x :: f(x).Some? ==> keep(x)
    ensures FilterMap(s, f) == FilterMap(Filter(s, keep), f)
    decreases |s|
  {
    if s != [] {
      FilterMapDropsUnkept(s[1..], f, keep);
      var t := Filter(s[1..], keep);
      if keep(s[0]) {
        assert Filter(s, keep) == [s[0]] + t;
        assert ([s[0]] + t)[1..] == t;
      } else {
        assert Filter(s, keep) == t;
      }
    }
  }

  /** When every element yields a value, there is one value per element, in order. */
  lemma {:induction false} FilterMapAllSome<A, B>(s: seq<A>, f: A -> Option<B>)
    requires forall i :: 0 <= i < |s| ==> f(s[i]).Some?
    ensures |FilterMap(s, f)| == |s|
    ensures forall i :: 0 <= i < |s| ==> FilterMap(s, f)[i] == f(s[i]).value
    decreases |s|
  {
    if s != [] {
      assert forall i :: 0 <= i < |s[1..]| ==> s[1..][i] == s[i + 1];
      FilterMapAllSome(s[1..], f);
      var rest := FilterMap(s[1..], f);
      assert FilterMap(s, f) == [f(s[0]).value] + rest;
      forall i | 1 <= i < |s|
        ensures FilterMap(s, f)[i] == f(s[i]).value
      {
        assert FilterMap(s, f)[i] == rest[i - 1];
      }
    }
  }

  // ---- a row limit --------------------------------------------------------

  /** `.limit(n)`: the first `n` rows, or all of them when there are fewer. */
  function Take<T>(s: seq<T>, n: nat): (r: seq<T>)
    ensures |r| <= n && |r| <= |s|
    ensures |r| == if |s| <= n then |s| else n
    ensures r == s[..|r|]
    ensures |s| <= n ==> r == s
  {
    if |s| <= n then s else s[..n]
  }

  // ---- Math.min / Math.max over a list ------------------------------------

  /** `Math.min(...xs)`; `None` stands for the `Infinity` of an empty list. */
  function MinOf(xs: seq<int>): (m: Option<int>)
    ensures m.None? <==> xs == []
    ensures m.Some? ==> m.value in xs && forall x :: x in xs ==> m.value <= x
    decreases |xs|
  {
    if xs == [] then None
    else
      var rest := MinOf(xs[1..]);
      assert xs == [xs[0]] + xs[1..];
      if rest.None? || xs[0] <= rest.value then Some(xs[0]) else rest
  }

  /** `Math.max(...xs)`; `None` stands for the `-Infinity` of an empty list. */
  function MaxOf(xs: seq<int>): (m: Option<int>)
    ensures m.None? <==> xs == []
    ensures m.Some? ==> m.value in xs && forall x :: x in xs ==> x <= m.value
    decreases |xs|
  {
    if xs == [] then None
    else
      var rest := MaxOf(xs[1..]);
      assert xs == [xs[0]] + xs[1..];
      if rest.None? || xs[0] >= rest.value then Some(xs[0]) else rest
  }

  // ---- Array.from(new Set(xs)) --------------------------------------------

  predicate NoDuplicates<T(==)>(s: seq<T>)
  {
    forall i, j :: 0 <= i < j < |s| ==> s[i] != s[j]
  }

  /** The position of the first occurrence of `x` in `s`. */
  function FirstIndex<T(==)>(s: seq<T>, x: T): (i: nat)
    requires x in s
    ensures i < |s| && s[i] == x && x !in s[..i]
    decreases |s|
  {
    if s[0] == x then 0
    else
      assert s == [s[0]] + s[1..];
      var j := FirstIndex(s[1..], x);
      assert s[..j + 1] == [s[0]] + s[1..][..j];
      j + 1
  }

  /** The first occurrence of `x` in a prefix is its first occurrence in the whole. */
  lemma FirstIndexOfPrefix<T>(s: seq<T>, n: nat, x: T)
    requires n <= |s| && x in s[..n]
    ensures x in s && FirstIndex(s, x) == FirstIndex(s[..n], x)
  {
    var i := FirstIndex(s[..n], x);
    assert s[..n][i] == s[i] == x;
    assert s[..n][..i] == s[..i];
  }

  /** `Array.from(new Set(xs))`: each distinct element once, in order of first occurrence. */
  function Distinct<T(==)>(s: seq<T>): (r: seq<T>)
    ensures forall i :: 0 <= i < |r| ==> r[i] in s
    ensures forall i :: 0 <= i < |s| ==> s[i] in r
    ensures NoDuplicates(r)
    decreases |s|
  {
    if s == [] then []
    else
      var init := s[..|s| - 1];
      var last := s[|s| - 1];
      var d := Distinct(init);
      assert s == init + [last];
      if last in d then d else d + [last]
  }

  /** A value seen again later is dropped; a new one is added at the end. */
  lemma DistinctSnoc<T>(s: seq<T>, x: T)
    ensures Distinct(s + [x]) == if x in s then Distinct(s) else Distinct(s) + [x]
  {
    assert (s + [x])[..|s|] == s;
    assert x in s ==> x in Distinct(s) by {
      if x in s {
        var i :| 0 <= i < |s| && s[i] == x;
      }
    }
    assert x in Distinct(s) ==> x in s by {
      if x in Distinct(s) {
        var i :| 0 <= i < |Distinct(s)| && Distinct(s)[i] == x;
      }
    }
  }

  /** The elements of `Distinct(s)` come in the order of their first occurrence in `s`. */
  lemma {:induction false} DistinctInFirstOccurrenceOrder<T>(s: seq<T>)
    ensures forall i, j :: 0 <= i < j < |Distinct(s)| ==>
              FirstIndex(s, Distinct(s)[i]) < FirstIndex(s, Distinct(s)[j])
    decreases |s|
  {
    if s != [] {
      var init := s[..|s| - 1];
      var last := s[|s| - 1];
      var d := Distinct(init);
      DistinctInFirstOccurrenceOrder(init);
      assert s == init + [last];
      forall x | x in d
        ensures FirstIndex(s, x) == FirstIndex(init, x) < |init|
      {
        FirstIndexOfPrefix(s, |init|, x);
      }
      if last !in d {
        assert FirstIndex(s, last) == |init|;
        var r := d + [last];
        forall i, j | 0 <= i < j < |r|
          ensures FirstIndex(s, r[i]) < FirstIndex(s, r[j])
        {
          if j < |d| {
            assert r[i] == d[i] && r[j] == d[j];
          } else {
            assert r[i] == d[i] && r[j] == last;
          }
        }
      }
    }
  }

  /** The least element of a list is what `MinOf` returns. */
  lemma MinOfIsLeast(xs: seq<int>, lo: int)
    requires lo in xs && forall i :: 0 <= i < |xs| ==> lo <= xs[i]
    ensures MinOf(xs) == Some(lo)
  {
    var m := MinOf(xs);
    var a :| 0 <= a < |xs| && xs[a] == m.value;
    assert lo <= xs[a];
  }

  /** The greatest element of a list is what `MaxOf` returns. */
  lemma MaxOfIsGreatest(xs: seq<int>, hi: int)
    requires hi in xs && forall i :: 0 <= i < |xs| ==> xs[i] <= hi
    ensures MaxOf(xs) == Some(hi)
  {
    var m := MaxOf(xs);
    var a :| 0 <= a < |xs| && xs[a] == m.value;
    assert xs[a] <= hi;
  }
}
