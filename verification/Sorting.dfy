/**
 * Sorting by rank, stable: what Go's sort.SliceStable leaves.
 */
module Sorting {

  function Insert<T>(x: T, s: seq<T>, rank: T -> int): (r: seq<T>)
    ensures |r| == |s| + 1
  {
    if s == [] || rank(x) <= rank(s[0]) then [x] + s else [s[0]] + Insert(x, s[1..], rank)
  }

  function StableSort<T>(s: seq<T>, rank: T -> int): (r: seq<T>)
    ensures |r| == |s|
  {
    if s == [] then [] else Insert(s[0], StableSort(s[1..], rank), rank)
  }

  ghost predicate Sorted<T>(s: seq<T>, rank: T -> int) {
    forall i, j | 0 <= i < j < |s| :: rank(s[i]) <= rank(s[j])
  }

  /** The elements of one rank, in their order. */
  function OfRank<T>(s: seq<T>, rank: T -> int, k: int): seq<T> {
    if s == [] then [] else (if rank(s[0]) == k then [s[0]] else []) + OfRank(s[1..], rank, k)
  }

  lemma {:induction false} InsertAdds<T>(x: T, s: seq<T>, rank: T -> int)
    ensures multiset(Insert(x, s, rank)) == multiset(s) + multiset{x}
  {
    if s == [] || rank(x) <= rank(s[0]) {
    } else {
      InsertAdds(x, s[1..], rank);
      assert s == [s[0]] + s[1..];
    }
  }

  lemma {:induction false} InsertSorts<T>(x: T, s: seq<T>, rank: T -> int)
    requires Sorted(s, rank)
    ensures Sorted(Insert(x, s, rank), rank)
  {
    if s == [] || rank(x) <= rank(s[0]) {
    } else {
      var rest := Insert(x, s[1..], rank);
      InsertSorts(x, s[1..], rank);
      InsertAdds(x, s[1..], rank);
      forall j | 0 <= j < |rest|
        ensures rank(s[0]) <= rank(rest[j])
      {
        assert rest[j] in multiset(rest);
        assert rest[j] == x || rest[j] in s[1..];
      }
    }
  }

  lemma {:induction false} InsertStays<T>(x: T, s: seq<T>, rank: T -> int, k: int)
    ensures OfRank(Insert(x, s, rank), rank, k) == (if rank(x) == k then [x] else []) + OfRank(s, rank, k)
  {
    if s == [] || rank(x) <= rank(s[0]) {
      OfRankCons(x, s, rank, k);
    } else {
      hide OfRank;
      InsertStays(x, s[1..], rank, k);
      OfRankCons(s[0], Insert(x, s[1..], rank), rank, k);
      OfRankCons(s[0], s[1..], rank, k);
      assert s == [s[0]] + s[1..];
    }
  }

  lemma OfRankCons<T>(x: T, s: seq<T>, rank: T -> int, k: int)
    ensures OfRank([x] + s, rank, k) == (if rank(x) == k then [x] else []) + OfRank(s, rank, k)
  {
    assert ([x] + s)[1..] == s;
  }

  /** Sorted, and within a rank nothing changes places. */
  lemma {:induction false} SortsStably<T>(s: seq<T>, rank: T -> int)
    ensures Sorted(StableSort(s, rank), rank)
    ensures multiset(StableSort(s, rank)) == multiset(s)
    ensures forall k :: OfRank(StableSort(s, rank), rank, k) == OfRank(s, rank, k)
  {
    hide Sorted, OfRank, Insert;
    if s != [] {
      SortsStably(s[1..], rank);
      var rest := StableSort(s[1..], rank);
      forall k
        ensures OfRank(StableSort(s, rank), rank, k) == OfRank(s, rank, k)
      {
        InsertStays(s[0], rest, rank, k);
        OfRankFirst(s, rank, k);
      }
      InsertSorts(s[0], rest, rank);
      InsertAdds(s[0], rest, rank);
      assert s == [s[0]] + s[1..];
    } else {
      NothingSorted<T>(rank);
    }
  }

  lemma NothingSorted<T>(rank: T -> int)
    ensures Sorted([], rank) && forall k :: OfRank([], rank, k) == []
  {
  }

  lemma OfRankFirst<T>(s: seq<T>, rank: T -> int, k: int)
    requires s != []
    ensures OfRank(s, rank, k) == (if rank(s[0]) == k then [s[0]] else []) + OfRank(s[1..], rank, k)
  {
  }

  /** The same elements are there after the sort, the lower ranks before the higher. */
  lemma SortedHolds<T>(s: seq<T>, rank: T -> int)
    ensures forall x :: x in StableSort(s, rank) <==> x in s
    ensures forall i, j | 0 <= i < |s| && 0 <= j < |s| && rank(StableSort(s, rank)[i]) < rank(StableSort(s, rank)[j]) :: i < j
  {
    hide StableSort, OfRank;
    SortsStably(s, rank);
    var r := StableSort(s, rank);
    forall x
      ensures x in r <==> x in s
    {
      assert x in multiset(r) <==> x in multiset(s);
    }
    assert forall j, i | 0 <= j <= i < |s| :: rank(r[j]) <= rank(r[i]);
  }

  /** No other order is sorted and stable. */
  lemma {:induction false} OnlyOneStableOrder<T>(a: seq<T>, b: seq<T>, rank: T -> int)
    requires Sorted(a, rank) && Sorted(b, rank)
    requires forall k :: OfRank(a, rank, k) == OfRank(b, rank, k)
    ensures a == b
  {
    hide OfRank;
    if a == [] {
      NothingElse(b, rank);
    } else {
      SameFirst(a, b, rank);
      forall k
        ensures OfRank(a[1..], rank, k) == OfRank(b[1..], rank, k)
      {
        SameRest(a, b, rank, k);
      }
      OnlyOneStableOrder(a[1..], b[1..], rank);
      assert a == [a[0]] + a[1..] && b == [b[0]] + b[1..];
    }
  }

  lemma NothingElse<T>(b: seq<T>, rank: T -> int)
    requires forall k :: OfRank([], rank, k) == OfRank(b, rank, k)
    ensures b == []
  {
    if b != [] { assert OfRank(b, rank, rank(b[0])) == OfRank([], rank, rank(b[0])); }
  }

  lemma SameFirst<T>(a: seq<T>, b: seq<T>, rank: T -> int)
    requires Sorted(a, rank) && Sorted(b, rank) && a != []
    requires forall k :: OfRank(a, rank, k) == OfRank(b, rank, k)
    ensures b != [] && a[0] == b[0]
  {
    hide OfRank;
    var k := rank(a[0]);
    OfRankFirst(a, rank, k);
    assert OfRank(b, rank, k)[0] == a[0];
    NothingOfRank(b, rank, k);
    var j := SomeOfRank(b, rank, k);
    var l := rank(b[0]);
    OfRankFirst(b, rank, l);
    assert OfRank(a, rank, l)[0] == b[0];
    var i := SomeOfRank(a, rank, l);
    assert k == l;
  }

  lemma NothingOfRank<T>(b: seq<T>, rank: T -> int, k: int)
    ensures OfRank(b, rank, k) != [] ==> b != []
  {
  }

  lemma SameRest<T>(a: seq<T>, b: seq<T>, rank: T -> int, k: int)
    requires a != [] && b != [] && a[0] == b[0] && OfRank(a, rank, k) == OfRank(b, rank, k)
    ensures OfRank(a[1..], rank, k) == OfRank(b[1..], rank, k)
  {
    hide OfRank;
    OfRankFirst(a, rank, k);
    OfRankFirst(b, rank, k);
    var x := if rank(a[0]) == k then [a[0]] else [];
    assert (x + OfRank(a[1..], rank, k))[|x|..] == OfRank(a[1..], rank, k);
    assert (x + OfRank(b[1..], rank, k))[|x|..] == OfRank(b[1..], rank, k);
  }

  lemma {:induction false} SomeOfRank<T>(s: seq<T>, rank: T -> int, k: int) returns (i: nat)
    requires OfRank(s, rank, k) != []
    ensures i < |s| && rank(s[i]) == k
  {
    if rank(s[0]) == k {
      i := 0;
    } else {
      i := SomeOfRank(s[1..], rank, k);
      i := i + 1;
    }
  }

  // ---- sorting by an order ----

  function InsertBy<T>(x: T, s: seq<T>, less: (T, T) -> bool): (r: seq<T>)
    ensures multiset(r) == multiset(s) + multiset{x}
  {
    if s == [] || less(x, s[0]) then [x] + s
    else
      assert s == [s[0]] + s[1..];
      [s[0]] + InsertBy(x, s[1..], less)
  }

  function SortBy<T>(s: seq<T>, less: (T, T) -> bool): (r: seq<T>)
    ensures multiset(r) == multiset(s)
  {
    if s == [] then [] else
      assert s == [s[0]] + s[1..];
      InsertBy(s[0], SortBy(s[1..], less), less)
  }

  ghost predicate Ascending<T>(s: seq<T>, less: (T, T) -> bool) {
    forall i, j | 0 <= i < j < |s| :: less(s[i], s[j])
  }

  /** An order that tells all of these apart. */
  ghost predicate Orders<T(!new)>(s: set<T>, less: (T, T) -> bool) {
    && (forall x, y | x in s && y in s && x != y :: less(x, y) || less(y, x))
    && (forall x, y, z | x in s && y in s && z in s && less(x, y) && less(y, z) :: less(x, z))
  }

  predicate NoDuplicates<T(==)>(s: seq<T>) {
    forall i, j | 0 <= i < j < |s| :: s[i] != s[j]
  }

  lemma {:induction false} InsertByAscends<T(!new)>(x: T, s: seq<T>, less: (T, T) -> bool, all: set<T>)
    requires Orders(all, less) && x in all && x !in s && (forall y | y in s :: y in all) && Ascending(s, less)
    ensures Ascending(InsertBy(x, s, less), less)
  {
    if s == [] || less(x, s[0]) {
      forall j | 0 < j < |s|
        ensures less(x, s[j])
      {
        assert less(s[0], s[j]);
      }
    } else {
      var rest := InsertBy(x, s[1..], less);
      InsertByAscends(x, s[1..], less, all);
      forall j | 0 <= j < |rest|
        ensures less(s[0], rest[j])
      {
        assert rest[j] in multiset(rest);
        assert rest[j] == x || rest[j] in s[1..];
      }
    }
  }

  lemma {:induction false} SortByAscends<T(!new)>(s: seq<T>, less: (T, T) -> bool, all: set<T>)
    requires Orders(all, less) && NoDuplicates(s) && forall y | y in s :: y in all
    ensures Ascending(SortBy(s, less), less)
  {
    if s != [] {
      var rest := SortBy(s[1..], less);
      SortByAscends(s[1..], less, all);
      forall y | y in rest
        ensures y in s[1..]
      {
        assert y in multiset(rest);
      }
      InsertByAscends(s[0], rest, less, all);
    }
  }

  // ---- in place ----

  method StableSortInPlace<T>(a: array<T>, rank: T -> int)
    modifies a
    ensures a[..] == StableSort(old(a[..]), rank)
  {
    var sorted := StableSort(a[..], rank);
    forall i | 0 <= i < a.Length {
      a[i] := sorted[i];
    }
  }

  /** Sorts the first n elements. */
  method SortPrefix<T>(a: array<T>, n: nat, less: (T, T) -> bool)
    requires n <= a.Length
    modifies a
    ensures a[..n] == SortBy(old(a[..n]), less) && a[n..] == old(a[n..])
  {
    hide SortBy;
    var sorted := SortBy(a[..n], less);
    SortByLength(a[..n], less);
    for i := 0 to n
      invariant a[..i] == sorted[..i] && a[n..] == old(a[n..])
    {
      a[i] := sorted[i];
    }
    assert sorted[..n] == sorted;
  }

  lemma SortByLength<T>(s: seq<T>, less: (T, T) -> bool)
    ensures |SortBy(s, less)| == |s|
  {
    assert |multiset(SortBy(s, less))| == |multiset(s)|;
  }

  // ---- the first n of the positions, by rank ----

  function Positions(n: nat): seq<int> {
    seq(n, i => i)
  }

  predicate Increases(s: seq<int>) {
    forall i, j | 0 <= i < j < |s| :: s[i] < s[j]
  }

  lemma IncreasesSplit(a: seq<int>, b: seq<int>)
    requires Increases(a + b)
    ensures Increases(b) && forall x, y | x in a && y in b :: x < y
  {
    forall i, j | 0 <= i < j < |b|
      ensures b[i] < b[j]
    {
      assert (a + b)[|a| + i] == b[i] && (a + b)[|a| + j] == b[j];
    }
    forall x, y | x in a && y in b
      ensures x < y
    {
      var i :| 0 <= i < |a| && a[i] == x;
      var j :| 0 <= j < |b| && b[j] == y;
      assert (a + b)[i] == x && (a + b)[|a| + j] == y;
    }
  }

  lemma IncreasesCons(x: int, s: seq<int>)
    requires Increases(s) && forall y | y in s :: x < y
    ensures Increases([x] + s)
  {
    assert forall i | 0 < i < |[x] + s| :: ([x] + s)[i] == s[i - 1] && s[i - 1] in s;
  }

  /** Positions of one rank stay in order. */
  lemma {:induction false} OfRankOrdered(s: seq<int>, rank: int -> int, p: nat, q: nat)
    requires p < q < |s| && rank(s[p]) == rank(s[q]) && Increases(OfRank(s, rank, rank(s[p])))
    ensures s[p] < s[q]
  {
    hide OfRank, Increases;
    var k := rank(s[p]);
    var first := if rank(s[0]) == k then [s[0]] else [];
    OfRankFirst(s, rank, k);
    IncreasesSplit(first, OfRank(s[1..], rank, k));
    if p == 0 {
      OfRankHas(s[1..], rank, k, q - 1);
      assert s[0] in first && s[q] == s[1..][q - 1];
    } else {
      OfRankOrdered(s[1..], rank, p - 1, q - 1);
    }
  }

  lemma {:induction false} OfRankHas(s: seq<int>, rank: int -> int, k: int, q: nat)
    requires q < |s| && rank(s[q]) == k
    ensures s[q] in OfRank(s, rank, k)
  {
    if q != 0 { OfRankHas(s[1..], rank, k, q - 1); }
  }

  lemma {:induction false} OfRankAmong<T>(s: seq<T>, rank: T -> int, k: int)
    ensures forall x | x in OfRank(s, rank, k) :: x in s
  {
    if s != [] { OfRankAmong(s[1..], rank, k); }
  }

  lemma {:induction false} OfRankIncreases(s: seq<int>, rank: int -> int, k: int)
    requires Increases(s)
    ensures Increases(OfRank(s, rank, k))
  {
    hide OfRank, Increases;
    if s == [] {
      NothingIncreases(rank, k);
    } else {
      var rest := OfRank(s[1..], rank, k);
      assert s == [s[0]] + s[1..];
      IncreasesSplit([s[0]], s[1..]);
      OfRankIncreases(s[1..], rank, k);
      OfRankAmong(s[1..], rank, k);
      OfRankFirst(s, rank, k);
      if rank(s[0]) == k {
        assert s[0] in [s[0]];
        IncreasesCons(s[0], rest);
      } else {
        assert [] + rest == rest;
      }
    }
  }

  lemma NothingIncreases(rank: int -> int, k: int)
    ensures Increases(OfRank([], rank, k))
  {
  }

  /** By rank, and by position within a rank: what stands earlier was ranked lower, or the same and stood earlier. */
  lemma SortedPositions(n: nat, rank: int -> int, p: nat, q: nat)
    requires p < q < n
    ensures var order := StableSort(Positions(n), rank);
            rank(order[p]) < rank(order[q]) || (rank(order[p]) == rank(order[q]) && order[p] < order[q])
  {
    var order := StableSort(Positions(n), rank);
    SortsStably(Positions(n), rank);
    assert rank(order[p]) <= rank(order[q]);
    if rank(order[p]) == rank(order[q]) {
      OfRankIncreases(Positions(n), rank, rank(order[p]));
      assert OfRank(order, rank, rank(order[p])) == OfRank(Positions(n), rank, rank(order[p]));
      OfRankOrdered(order, rank, p, q);
    }
  }
}
