/** Sorting by a total preorder, and the order of strings. */
module Ordering {

  ghost predicate TotalPreorder<T(!new)>(le: (T, T) -> bool) {
    && (forall x, y :: le(x, y) || le(y, x))
    && (forall x, y, z :: le(x, y) && le(y, z) ==> le(x, z))
  }

  ghost predicate SortedBy<T>(xs: seq<T>, le: (T, T) -> bool) {
    forall i, j | 0 <= i < j < |xs| :: le(xs[i], xs[j])
  }

  function Insert<T>(x: T, xs: seq<T>, le: (T, T) -> bool): seq<T> {
    if xs == [] then [x]
    else if le(x, xs[0]) then [x] + xs
    else [xs[0]] + Insert(x, xs[1..], le)
  }

  /** The stable sort. */
  function Sort<T>(xs: seq<T>, le: (T, T) -> bool): seq<T> {
    if xs == [] then [] else Insert(xs[0], Sort(xs[1..], le), le)
  }

  /** Two sorted runs merged, the first run going first among equals. */
  function MergeRuns<T>(a: seq<T>, b: seq<T>, le: (T, T) -> bool): seq<T>
    decreases |a| + |b|
  {
    if a == [] then b
    else if b == [] then a
    else if le(a[0], b[0]) then [a[0]] + MergeRuns(a[1..], b, le)
    else [b[0]] + MergeRuns(a, b[1..], le)
  }

  lemma {:induction false} InsertMerges<T(!new)>(x: T, a: seq<T>, b: seq<T>, le: (T, T) -> bool)
    requires TotalPreorder(le)
    ensures Insert(x, MergeRuns(a, b, le), le) == MergeRuns(Insert(x, a, le), b, le)
    decreases |a| + |b|
  {
    var merged, inserted := MergeRuns(a, b, le), Insert(x, a, le);
    if b == [] {
    } else if a == [] {
      assert inserted[1..] == [];
      if !le(x, b[0]) {
        InsertMerges(x, a, b[1..], le);
      }
    } else if le(a[0], b[0]) {
      assert merged[1..] == MergeRuns(a[1..], b, le);
      if le(x, a[0]) {
        assert le(x, b[0]) && inserted[1..] == a;
      } else {
        InsertMerges(x, a[1..], b, le);
        assert inserted[0] == a[0] && inserted[1..] == Insert(x, a[1..], le);
      }
    } else {
      assert merged[1..] == MergeRuns(a, b[1..], le);
      if le(x, b[0]) {
        assert le(x, a[0]) && inserted[1..] == a;
      } else {
        InsertMerges(x, a, b[1..], le);
      }
    }
  }

  lemma {:induction false} SortAppend<T(!new)>(a: seq<T>, b: seq<T>, le: (T, T) -> bool)
    requires TotalPreorder(le)
    ensures Sort(a + b, le) == MergeRuns(Sort(a, le), Sort(b, le), le)
    decreases |a|
  {
    if a == [] {
      assert a + b == b;
    } else {
      assert (a + b)[0] == a[0] && (a + b)[1..] == a[1..] + b;
      SortAppend(a[1..], b, le);
      InsertMerges(a[0], Sort(a[1..], le), Sort(b, le), le);
    }
  }

  lemma {:induction false} InsertAdds<T>(x: T, xs: seq<T>, le: (T, T) -> bool)
    ensures multiset(Insert(x, xs, le)) == multiset{x} + multiset(xs)
    decreases |xs|
  {
    if xs != [] {
      assert xs == [xs[0]] + xs[1..];
      if !le(x, xs[0]) {
        InsertAdds(x, xs[1..], le);
      }
    }
  }

  lemma {:induction false} InsertKeepsOrder<T(!new)>(x: T, xs: seq<T>, le: (T, T) -> bool)
    requires TotalPreorder(le) && SortedBy(xs, le)
    ensures SortedBy(Insert(x, xs, le), le)
    decreases |xs|
  {
    if xs != [] && !le(x, xs[0]) {
      InsertKeepsOrder(x, xs[1..], le);
      InsertAdds(x, xs[1..], le);
      var rest := Insert(x, xs[1..], le);
      forall i | 0 <= i < |rest|
        ensures le(xs[0], rest[i])
      {
        assert rest[i] in multiset(rest);
        assert rest[i] == x || rest[i] in xs[1..];
      }
    }
  }

  lemma {:induction false} SortSorts<T(!new)>(xs: seq<T>, le: (T, T) -> bool)
    requires TotalPreorder(le)
    ensures SortedBy(Sort(xs, le), le) && multiset(Sort(xs, le)) == multiset(xs)
    decreases |xs|
  {
    if xs != [] {
      SortSorts(xs[1..], le);
      InsertKeepsOrder(xs[0], Sort(xs[1..], le), le);
      InsertAdds(xs[0], Sort(xs[1..], le), le);
      assert xs == [xs[0]] + xs[1..];
    }
  }

  lemma {:induction false} SortOfSorted<T>(xs: seq<T>, le: (T, T) -> bool)
    requires SortedBy(xs, le)
    ensures Sort(xs, le) == xs
    decreases |xs|
  {
    if xs != [] {
      SortOfSorted(xs[1..], le);
      if |xs| > 1 {
        assert le(xs[0], xs[1]);
      }
    }
  }

  /** Sorting parts first does not matter. */
  lemma SortParts<T(!new)>(a: seq<T>, b: seq<T>, le: (T, T) -> bool)
    requires TotalPreorder(le)
    ensures Sort(Sort(a, le) + Sort(b, le), le) == Sort(a + b, le)
    ensures Sort(Sort(a, le), le) == Sort(a, le)
  {
    SortSorts(a, le);
    SortSorts(b, le);
    SortOfSorted(Sort(a, le), le);
    SortOfSorted(Sort(b, le), le);
    SortAppend(a, b, le);
    SortAppend(Sort(a, le), Sort(b, le), le);
  }

  ghost predicate TellsApart<T>(le: (T, T) -> bool, xs: seq<T>) {
    forall i, j | 0 <= i < |xs| && 0 <= j < |xs| && le(xs[i], xs[j]) && le(xs[j], xs[i]) :: xs[i] == xs[j]
  }

  lemma SameHead<T>(xs: seq<T>, ys: seq<T>, le: (T, T) -> bool)
    requires SortedBy(xs, le) && SortedBy(ys, le) && multiset(xs) == multiset(ys)
    requires TellsApart(le, xs) && xs != [] && ys != []
    ensures xs[0] == ys[0]
  {
    assert xs[0] in multiset(ys) && ys[0] in multiset(xs);
    var i :| 0 <= i < |ys| && ys[i] == xs[0];
    var j :| 0 <= j < |xs| && xs[j] == ys[0];
    if i > 0 && j > 0 {
      assert le(ys[0], ys[i]) && le(xs[0], xs[j]);
      assert le(xs[j], xs[0]) && le(xs[0], xs[j]);
    }
  }

  lemma SortedTail<T>(xs: seq<T>, le: (T, T) -> bool)
    requires SortedBy(xs, le) && xs != []
    ensures SortedBy(xs[1..], le) && multiset(xs[1..]) == multiset(xs) - multiset{xs[0]}
  {
    assert xs == [xs[0]] + xs[1..];
  }

  /** Under an order that tells the elements apart, a multiset has one sorted sequence. */
  lemma {:induction false} SortedUnique<T>(xs: seq<T>, ys: seq<T>, le: (T, T) -> bool)
    requires SortedBy(xs, le) && SortedBy(ys, le) && multiset(xs) == multiset(ys) && TellsApart(le, xs)
    ensures xs == ys
    decreases |xs|
  {
    assert |xs| == |multiset(xs)| == |ys|;
    if xs != [] {
      SameHead(xs, ys, le);
      SortedTail(xs, le);
      SortedTail(ys, le);
      assert TellsApart(le, xs[1..]);
      SortedUnique(xs[1..], ys[1..], le);
    }
  }

  // Sequences without repeats

  ghost predicate Distinct<T>(xs: seq<T>) {
    forall i, j | 0 <= i < j < |xs| :: xs[i] != xs[j]
  }

  lemma {:induction false} DistinctOnce<T(!new)>(xs: seq<T>)
    ensures Distinct(xs) <==> forall x :: multiset(xs)[x] <= 1
    decreases |xs|
  {
    if xs != [] {
      var before, last := xs[..|xs| - 1], xs[|xs| - 1];
      assert xs == before + [last];
      DistinctOnce(before);
      assert multiset(xs) == multiset(before) + multiset{last};
      if forall x :: multiset(xs)[x] <= 1 {
        forall x
          ensures multiset(before)[x] <= 1
        {
          assert multiset(xs)[x] <= 1;
        }
        assert multiset(xs)[last] <= 1;
        assert last !in before;
      }
    }
  }

  lemma DistinctPermuted<T(!new)>(xs: seq<T>, ys: seq<T>)
    requires multiset(ys) <= multiset(xs) && Distinct(xs)
    ensures Distinct(ys)
  {
    DistinctOnce(xs);
    forall x
      ensures multiset(ys)[x] <= 1
    {
      assert multiset(ys)[x] <= multiset(xs)[x];
    }
    DistinctOnce(ys);
  }

  lemma SameItems<T(!new)>(xs: seq<T>, ys: seq<T>)
    requires Distinct(xs) && Distinct(ys) && forall x :: x in xs <==> x in ys
    ensures multiset(xs) == multiset(ys)
  {
    DistinctOnce(xs);
    DistinctOnce(ys);
    forall x
      ensures multiset(xs)[x] == multiset(ys)[x]
    {
      assert x in xs <==> x in multiset(xs);
      assert x in ys <==> x in multiset(ys);
      assert multiset(xs)[x] <= 1 && multiset(ys)[x] <= 1;
    }
  }

  // The first few of a sorted sequence

  function Take<T>(xs: seq<T>, k: nat): seq<T> {
    if |xs| <= k then xs else xs[..k]
  }

  function Top<T>(xs: seq<T>, k: nat, le: (T, T) -> bool): seq<T> {
    Take(Sort(xs, le), k)
  }

  lemma {:induction false} TakeMerge<T>(a: seq<T>, b: seq<T>, k: nat, i: nat, j: nat, le: (T, T) -> bool)
    requires k <= i && k <= j
    ensures Take(MergeRuns(Take(a, i), Take(b, j), le), k) == Take(MergeRuns(a, b, le), k)
    decreases |a| + |b|
  {
    var x, y := Take(a, i), Take(b, j);
    if k == 0 {
    } else if a == [] || b == [] {
    } else if le(a[0], b[0]) {
      TakeMerge(a[1..], b, k - 1, i - 1, j, le);
      assert x[1..] == Take(a[1..], i - 1);
      TakeHead(a[0], MergeRuns(x[1..], y, le), k);
      TakeHead(a[0], MergeRuns(a[1..], b, le), k);
    } else {
      TakeMerge(a, b[1..], k - 1, i, j - 1, le);
      assert y[1..] == Take(b[1..], j - 1);
      TakeHead(b[0], MergeRuns(x, y[1..], le), k);
      TakeHead(b[0], MergeRuns(a, b[1..], le), k);
    }
  }

  lemma TakeHead<T>(x: T, xs: seq<T>, k: nat)
    requires k > 0
    ensures Take([x] + xs, k) == [x] + Take(xs, k - 1)
  {
  }

  /** The first `k` of everything are the first `k` of the first `k` of the parts. */
  lemma TopParts<T(!new)>(a: seq<T>, b: seq<T>, k: nat, le: (T, T) -> bool)
    requires TotalPreorder(le)
    ensures Top(Top(a, k, le) + Top(b, k, le), k, le) == Top(a + b, k, le)
    ensures Top(Top(a, k, le), k, le) == Top(a, k, le)
  {
    var x, y := Top(a, k, le), Top(b, k, le);
    SortSorts(a, le);
    SortSorts(b, le);
    SortOfSorted(x, le);
    SortOfSorted(y, le);
    SortAppend(a, b, le);
    SortAppend(x, y, le);
    TakeMerge(Sort(a, le), Sort(b, le), k, k, k, le);
  }

  lemma TopAssociative<T(!new)>(a: seq<T>, b: seq<T>, c: seq<T>, k: nat, le: (T, T) -> bool)
    requires TotalPreorder(le) && a == Top(a, k, le) && c == Top(c, k, le)
    ensures Top(Top(a + b, k, le) + c, k, le) == Top(a + Top(b + c, k, le), k, le)
    ensures Top(Top(a + b, k, le), k, le) == Top(a + b, k, le)
  {
    TopParts(a + b, c, k, le);
    TopParts(a, b + c, k, le);
    assert a + b + c == a + (b + c);
  }

  lemma SortLeft<T(!new)>(x: seq<T>, c: seq<T>, le: (T, T) -> bool)
    requires TotalPreorder(le) && c == Sort(c, le)
    ensures Sort(Sort(x, le) + c, le) == Sort(x + c, le)
  {
    SortParts(x, c, le);
  }

  lemma SortRight<T(!new)>(a: seq<T>, y: seq<T>, le: (T, T) -> bool)
    requires TotalPreorder(le) && a == Sort(a, le)
    ensures Sort(a + Sort(y, le), le) == Sort(a + y, le)
  {
    SortParts(a, y, le);
  }

  lemma SortAssociative<T(!new)>(a: seq<T>, b: seq<T>, c: seq<T>, le: (T, T) -> bool)
    requires TotalPreorder(le) && a == Sort(a, le) && c == Sort(c, le)
    ensures Sort(Sort(a + b, le) + c, le) == Sort(a + Sort(b + c, le), le)
  {
    Concatenates(a, b, c);
    SortLeft(a + b, c, le);
    SortRight(a, b + c, le);
  }

  lemma Concatenates<T>(a: seq<T>, b: seq<T>, c: seq<T>)
    ensures a + b + c == a + (b + c)
  {
  }

  lemma {:induction false} InsertMapped<T, U>(x: T, xs: seq<T>, f: T -> U, le: (T, T) -> bool, ge: (U, U) -> bool)
    requires forall y | y in xs :: le(x, y) == ge(f(x), f(y))
    ensures Mapped(Insert(x, xs, le), f) == Insert(f(x), Mapped(xs, f), ge)
    decreases |xs|
  {
    if xs != [] {
      assert Mapped(xs, f)[1..] == Mapped(xs[1..], f);
      InsertMapped(x, xs[1..], f, le, ge);
    }
  }

  function Mapped<T, U>(xs: seq<T>, f: T -> U): seq<U> {
    seq(|xs|, i requires 0 <= i < |xs| => f(xs[i]))
  }

  /** Sorting by what a function reads off sorts what it reads. */
  lemma {:induction false} SortMapped<T(!new), U>(xs: seq<T>, f: T -> U, le: (T, T) -> bool, ge: (U, U) -> bool)
    requires TotalPreorder(le) && forall x, y :: le(x, y) == ge(f(x), f(y))
    ensures Mapped(Sort(xs, le), f) == Sort(Mapped(xs, f), ge)
    decreases |xs|
  {
    if xs != [] {
      assert Mapped(xs, f)[1..] == Mapped(xs[1..], f);
      SortMapped(xs[1..], f, le, ge);
      InsertMapped(xs[0], Sort(xs[1..], le), f, le, ge);
    }
  }

  // Strings

  /** Strings in dictionary order, by character code. */
  predicate AtMost(a: string, b: string) {
    a == [] || (b != [] && (a[0] < b[0] || (a[0] == b[0] && AtMost(a[1..], b[1..]))))
  }

  lemma {:induction false} AtMostTotal(a: string, b: string)
    ensures AtMost(a, b) || AtMost(b, a)
    ensures AtMost(a, b) && AtMost(b, a) ==> a == b
    ensures AtMost(a, a)
  {
    if a != [] && b != [] {
      AtMostTotal(a[1..], b[1..]);
      assert a == [a[0]] + a[1..] && b == [b[0]] + b[1..];
    } else if a != [] {
      AtMostTotal(a[1..], b);
    }
  }

  lemma {:induction false} AtMostTransitive(a: string, b: string, c: string)
    requires AtMost(a, b) && AtMost(b, c)
    ensures AtMost(a, c)
  {
    if a != [] && a[0] == b[0] == c[0] {
      AtMostTransitive(a[1..], b[1..], c[1..]);
    }
  }

  lemma AtMostIsOrder()
    ensures TotalPreorder(AtMost)
    ensures forall a, b :: AtMost(a, b) && AtMost(b, a) ==> a == b
  {
    forall a, b
      ensures AtMost(a, b) || AtMost(b, a)
      ensures AtMost(a, b) && AtMost(b, a) ==> a == b
    {
      AtMostTotal(a, b);
    }
    forall a, b, c | AtMost(a, b) && AtMost(b, c)
      ensures AtMost(a, c)
    {
      AtMostTransitive(a, b, c);
    }
  }

  /** Sorted without repetitions. */
  ghost predicate Ascending(xs: seq<string>) {
    forall i, j | 0 <= i < j < |xs| :: AtMost(xs[i], xs[j]) && xs[i] != xs[j]
  }

  /** A set lists in ascending order in one way only. */
  lemma {:induction false} AscendingUnique(a: seq<string>, b: seq<string>)
    requires Ascending(a) && Ascending(b) && (forall x :: x in a <==> x in b)
    ensures a == b
    decreases |a|
  {
    assert a == [] || a[0] in b;
    assert b == [] || b[0] in a;
    if a != [] && b != [] {
      AtMostIsOrder();
      assert a[0] == b[0];
      forall x
        ensures x in a[1..] <==> x in b[1..]
      {
        assert x in a[1..] <==> x in a && x != a[0];
        assert x in b[1..] <==> x in b && x != b[0];
      }
      AscendingUnique(a[1..], b[1..]);
    }
  }

  /** Inserts into an ascending list, unless it is there. */
  function InsertString(x: string, xs: seq<string>): seq<string> {
    if xs == [] then [x]
    else if x == xs[0] then xs
    else if AtMost(x, xs[0]) then [x] + xs
    else [xs[0]] + InsertString(x, xs[1..])
  }

  lemma {:induction false} InsertStringAscends(x: string, xs: seq<string>)
    requires Ascending(xs)
    ensures Ascending(InsertString(x, xs))
    ensures forall y :: y in InsertString(x, xs) <==> y == x || y in xs
    decreases |xs|
  {
    hide AtMost;
    if xs != [] {
      assert forall y :: y in xs <==> y == xs[0] || y in xs[1..];
      AtMostTotal(x, xs[0]);
      if x == xs[0] {
      } else if AtMost(x, xs[0]) {
        forall i | 0 <= i < |xs|
          ensures AtMost(x, xs[i]) && x != xs[i]
        {
          if i > 0 {
            AtMostTransitive(x, xs[0], xs[i]);
          }
        }
      } else {
        InsertStringAscends(x, xs[1..]);
        var rest := InsertString(x, xs[1..]);
        forall i | 0 <= i < |rest|
          ensures AtMost(xs[0], rest[i]) && xs[0] != rest[i]
        {
          assert rest[i] in rest;
        }
      }
    }
  }

  /** The strings of a set, ascending. */
  method Listed(names: set<string>) returns (xs: seq<string>)
    ensures Ascending(xs) && forall x :: x in xs <==> x in names
  {
    xs := [];
    var left := names;
    while left != {}
      invariant left <= names && Ascending(xs)
      invariant forall x :: x in xs <==> x in names - left
      decreases left
    {
      var x :| x in left;
      InsertStringAscends(x, xs);
      xs := InsertString(x, xs);
      left := left - {x};
    }
  }
}
