/**
 The sorts the source delegates to `std::sort` / `__gnu_parallel::sort`,
 modelled sequentially as an insertion sort by an integer key, largest key
 first. Ascending order is the same sort by the negated key.
 */
module Sorting {

  /** Largest key first: what `std::sort` with a `>` comparator guarantees. */
  predicate NonIncreasing<T>(s: seq<T>, key: T -> int)
  {
    forall i, j :: 0 <= i < j < |s| ==> key(s[i]) >= key(s[j])
  }

  lemma NonIncreasingTail<T>(s: seq<T>, key: T -> int)
    requires NonIncreasing(s, key) && s != []
    ensures NonIncreasing(s[1..], key)
  {
    forall i, j | 0 <= i < j < |s| - 1
      ensures key(s[1..][i]) >= key(s[1..][j])
    {
      assert s[1..][i] == s[i + 1] && s[1..][j] == s[j + 1];
    }
  }

  function Insert<T>(x: T, s: seq<T>, key: T -> int): (r: seq<T>)
    ensures multiset(r) == multiset{x} + multiset(s)
    ensures |r| == |s| + 1
  {
    if s == [] then [x]
    else if key(x) >= key(s[0]) then [x] + s
    else
      assert s == [s[0]] + s[1..];
      [s[0]] + Insert(x, s[1..], key)
  }

  lemma {:induction false} InsertSorted<T>(x: T, s: seq<T>, key: T -> int)
    requires NonIncreasing(s, key)
    ensures NonIncreasing(Insert(x, s, key), key)
  {
    if s != [] && key(x) < key(s[0]) {
      var tail := Insert(x, s[1..], key);
      InsertSorted(x, s[1..], key);
      forall j | 0 <= j < |tail|
        ensures key(s[0]) >= key(tail[j])
      {
        assert tail[j] in multiset{x} + multiset(s[1..]);
        if tail[j] != x {
          assert tail[j] in multiset(s[1..]);
          var i :| 0 <= i < |s[1..]| && s[1..][i] == tail[j];
          assert s[i + 1] == tail[j];
        }
      }
    }
  }

  /** Insertion sort: a permutation of `s` whose keys never increase. */
  function SortBy<T>(s: seq<T>, key: T -> int): (r: seq<T>)
    ensures multiset(r) == multiset(s)
    ensures |r| == |s|
    ensures NonIncreasing(r, key)
  {
    if s == [] then []
    else
      assert s == [s[0]] + s[1..];
      InsertSorted(s[0], SortBy(s[1..], key), key);
      Insert(s[0], SortBy(s[1..], key), key)
  }

  /** The first element of a non-increasing sequence has the largest key. */
  lemma HeadIsLargest<T>(a: seq<T>, key: T -> int, x: T)
    requires NonIncreasing(a, key) && x in multiset(a)
    ensures key(a[0]) >= key(x)
  {
    var i :| 0 <= i < |a| && a[i] == x;
    assert i == 0 || key(a[0]) >= key(a[i]);
  }

  /**
   Two orderings of the same multiset, both by non-increasing key, are the same
   sequence when the key tells elements apart.
   */
  lemma SameHead<T>(a: seq<T>, b: seq<T>, key: T -> int)
    requires forall x, y :: key(x) == key(y) ==> x == y
    requires NonIncreasing(a, key) && NonIncreasing(b, key)
    requires multiset(a) == multiset(b) && a != [] && b != []
    ensures a[0] == b[0]
  {
    assert a[0] in multiset(a) && b[0] in multiset(b);
    HeadIsLargest(a, key, b[0]);
    HeadIsLargest(b, key, a[0]);
  }

  lemma SameTailMultiset<T>(a: seq<T>, b: seq<T>)
    requires multiset(a) == multiset(b) && a != [] && b != [] && a[0] == b[0]
    ensures multiset(a[1..]) == multiset(b[1..])
  {
    assert a == [a[0]] + a[1..] && b == [b[0]] + b[1..];
    assert multiset(a[1..]) == multiset(a) - multiset{a[0]};
    assert multiset(b[1..]) == multiset(b) - multiset{b[0]};
  }

  lemma {:induction false} SortedUnique<T>(a: seq<T>, b: seq<T>, key: T -> int)
    requires forall x, y :: key(x) == key(y) ==> x == y
    requires NonIncreasing(a, key) && NonIncreasing(b, key)
    requires multiset(a) == multiset(b)
    ensures a == b
  {
    assert |b| == |multiset(b)| == |multiset(a)| == |a|;
    if a != [] {
      SameHead(a, b, key);
      SameTailMultiset(a, b);
      SortedUnique(a[1..], b[1..], key);
      assert a == [a[0]] + a[1..] && b == [b[0]] + b[1..];
    }
  }

  function AsInt(x: nat): int { x }

  function Negated(x: nat): int { 0 - x as int }

  /** `std::sort(..., std::greater<>())` on counts. */
  function SortDescending(s: seq<nat>): (r: seq<nat>)
    ensures multiset(r) == multiset(s) && |r| == |s|
    ensures forall i, j :: 0 <= i < j < |r| ==> r[i] >= r[j]
  {
    var r := SortBy(s, AsInt);
    assert forall i, j :: 0 <= i < j < |r| ==> AsInt(r[i]) >= AsInt(r[j]);
    r
  }

  /** `std::sort` on counts, smallest first. */
  function SortAscending(s: seq<nat>): (r: seq<nat>)
    ensures multiset(r) == multiset(s) && |r| == |s|
    ensures forall i, j :: 0 <= i < j < |r| ==> r[i] <= r[j]
  {
    var r := SortBy(s, Negated);
    assert forall i, j :: 0 <= i < j < |r| ==> Negated(r[i]) >= Negated(r[j]);
    r
  }

  /** Counts sorted smallest first are determined by their multiset. */
  lemma AscendingUnique(a: seq<nat>, b: seq<nat>)
    requires forall i, j :: 0 <= i < j < |a| ==> a[i] <= a[j]
    requires forall i, j :: 0 <= i < j < |b| ==> b[i] <= b[j]
    requires multiset(a) == multiset(b)
    ensures a == b
  {
    assert forall i, j :: 0 <= i < j < |a| ==> Negated(a[i]) >= Negated(a[j]);
    assert forall i, j :: 0 <= i < j < |b| ==> Negated(b[i]) >= Negated(b[j]);
    SortedUnique(a, b, Negated);
  }

  /** Counts sorted largest first are determined by their multiset. */
  lemma DescendingUnique(a: seq<nat>, b: seq<nat>)
    requires forall i, j :: 0 <= i < j < |a| ==> a[i] >= a[j]
    requires forall i, j :: 0 <= i < j < |b| ==> b[i] >= b[j]
    requires multiset(a) == multiset(b)
    ensures a == b
  {
    assert forall i, j :: 0 <= i < j < |a| ==> AsInt(a[i]) >= AsInt(a[j]);
    assert forall i, j :: 0 <= i < j < |b| ==> AsInt(b[i]) >= AsInt(b[j]);
    SortedUnique(a, b, AsInt);
  }
}
