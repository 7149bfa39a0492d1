/** Sorted copies, counting and order statistics. */
module Sorting {

  ghost predicate TotalPreorder<T(!new)>(le: (T, T) -> bool) {
    && (forall x, y :: le(x, y) || le(y, x))
    && (forall x, y, z :: le(x, y) && le(y, z) ==> le(x, z))
  }

  ghost predicate Antisymmetric<T(!new)>(le: (T, T) -> bool) {
    forall x, y :: le(x, y) && le(y, x) ==> x == y
  }

  predicate Sorted<T>(s: seq<T>, le: (T, T) -> bool) {
    forall i, j :: 0 <= i < j < |s| ==> le(s[i], s[j])
  }

  /** Insert before the first element that is not strictly smaller: the sort is stable. */
  function Insert<T>(x: T, s: seq<T>, le: (T, T) -> bool): (r: seq<T>)
    ensures multiset(r) == multiset(s) + multiset{x}
    ensures |r| == |s| + 1
  {
    if s == [] then [x]
    else if le(x, s[0]) then [x] + s
    else
      assert s == [s[0]] + s[1..];
      [s[0]] + Insert(x, s[1..], le)
  }

  function Sort<T>(s: seq<T>, le: (T, T) -> bool): (r: seq<T>)
    ensures multiset(r) == multiset(s) && |r| == |s|
  {
    if s == [] then []
    else
      assert s == [s[0]] + s[1..];
      Insert(s[0], Sort(s[1..], le), le)
  }

  lemma {:induction false} InsertSorted<T(!new)>(x: T, s: seq<T>, le: (T, T) -> bool)
    requires TotalPreorder(le) && Sorted(s, le)
    ensures Sorted(Insert(x, s, le), le)
  {
    if s != [] && !le(x, s[0]) {
      var rest := Insert(x, s[1..], le);
      InsertSorted(x, s[1..], le);
      forall i | 0 <= i < |rest| ensures le(s[0], rest[i]) {
        assert rest[i] in multiset(rest);
        assert rest[i] == x || rest[i] in s[1..];
      }
    }
  }

  lemma {:induction false} SortSorted<T(!new)>(s: seq<T>, le: (T, T) -> bool)
    requires TotalPreorder(le)
    ensures Sorted(Sort(s, le), le)
  {
    if s != [] {
      SortSorted(s[1..], le);
      InsertSorted(s[0], Sort(s[1..], le), le);
    }
  }

  lemma TailMultiset<T>(s: seq<T>)
    requires s != []
    ensures multiset(s[1..]) == multiset(s) - multiset{s[0]}
  {
    assert s == [s[0]] + s[1..];
  }

  lemma SortedFirst<T(!new)>(a: seq<T>, b: seq<T>, le: (T, T) -> bool)
    requires TotalPreorder(le) && Antisymmetric(le)
    requires Sorted(a, le) && Sorted(b, le) && a != [] && b != []
    requires a[0] in b && b[0] in a
    ensures a[0] == b[0]
  {
    var i :| 0 <= i < |b| && b[i] == a[0];
    var j :| 0 <= j < |a| && a[j] == b[0];
    assert le(a[0], b[0]) && le(b[0], a[0]);
  }

  /** Under a total order a multiset has one sorted arrangement. */
  lemma {:induction false} SortedUnique<T(!new)>(a: seq<T>, b: seq<T>, le: (T, T) -> bool)
    requires TotalPreorder(le) && Antisymmetric(le)
    requires Sorted(a, le) && Sorted(b, le) && multiset(a) == multiset(b)
    ensures a == b
  {
    assert |a| == |multiset(a)| == |multiset(b)| == |b|;
    if a != [] {
      assert a[0] in multiset(b) && b[0] in multiset(a);
      SortedFirst(a, b, le);
      TailMultiset(a);
      TailMultiset(b);
      SortedUnique(a[1..], b[1..], le);
      assert a == [a[0]] + a[1..] && b == [b[0]] + b[1..];
    }
  }

  // -------------------------------------------------------------------- counting

  function Count<T>(s: seq<T>, p: T -> bool): nat {
    if s == [] then 0 else (if p(s[0]) then 1 else 0) + Count(s[1..], p)
  }

  lemma {:induction false} CountAtMostLength<T>(s: seq<T>, p: T -> bool)
    ensures Count(s, p) <= |s|
  {
    if s != [] { CountAtMostLength(s[1..], p); }
  }

  function Without<T>(s: seq<T>, j: nat): (r: seq<T>)
    requires j < |s|
    ensures |r| == |s| - 1
  {
    s[..j] + s[j + 1..]
  }

  lemma WithoutMultiset<T>(s: seq<T>, j: nat)
    requires j < |s|
    ensures multiset(Without(s, j)) == multiset(s) - multiset{s[j]}
  {
    assert s == s[..j] + [s[j]] + s[j + 1..];
  }

  lemma {:induction false} CountWithout<T>(s: seq<T>, j: nat, p: T -> bool)
    requires j < |s|
    ensures Count(s, p) == Count(Without(s, j), p) + (if p(s[j]) then 1 else 0)
  {
    if j == 0 {
      assert Without(s, 0) == s[1..];
    } else {
      CountWithout(s[1..], j - 1, p);
      assert Without(s, j)[1..] == Without(s[1..], j - 1);
    }
  }

  /** Counts do not depend on order. */
  lemma {:induction false} CountPermutation<T>(a: seq<T>, b: seq<T>, p: T -> bool)
    requires multiset(a) == multiset(b)
    ensures Count(a, p) == Count(b, p)
    decreases |a|
  {
    assert |a| == |multiset(a)| == |multiset(b)| == |b|;
    if a != [] {
      assert a[0] in multiset(b);
      var j :| 0 <= j < |b| && b[j] == a[0];
      TailMultiset(a);
      WithoutMultiset(b, j);
      CountWithout(b, j, p);
      CountPermutation(a[1..], Without(b, j), p);
    }
  }

  // ------------------------------------------------------------ order statistics

  predicate AtMost(x: int, y: int) { x <= y }

  function SortInts(s: seq<int>): (r: seq<int>)
    ensures |r| == |s|
  {
    Sort(s, AtMost)
  }

  lemma SortIntsSorted(s: seq<int>)
    ensures Sorted(SortInts(s), AtMost)
  {
    SortSorted(s, AtMost);
  }

  /** In a sorted sequence the k-th element is at most `v` exactly when more than k are. */
  lemma {:induction false} RankByCount(s: seq<int>, k: nat, v: int)
    requires Sorted(s, AtMost) && k < |s|
    ensures s[k] <= v <==> Count(s, x => x <= v) >= k + 1
  {
    var p := (x: int) => x <= v;
    if s[0] > v {
      CountNone(s, p);
      assert AtMost(s[0], s[k]) || k == 0;
    } else if k > 0 {
      assert s[1..][k - 1] == s[k];
      RankByCount(s[1..], k - 1, v);
    }
  }

  lemma {:induction false} CountNone<T>(s: seq<T>, p: T -> bool)
    requires forall i :: 0 <= i < |s| ==> !p(s[i])
    ensures Count(s, p) == 0
  {
    if s != [] { CountNone(s[1..], p); }
  }

  lemma {:induction false} CountPointwise(a: seq<int>, b: seq<int>, v: int)
    requires |a| == |b| && forall i :: 0 <= i < |a| ==> a[i] <= b[i]
    ensures Count(a, x => x <= v) >= Count(b, x => x <= v)
  {
    if a != [] { CountPointwise(a[1..], b[1..], v); }
  }

  /** Sorting two pointwise ordered sequences separately keeps them pointwise ordered. */
  lemma SortedPointwise(a: seq<int>, b: seq<int>, k: nat)
    requires |a| == |b| && k < |a| && forall i :: 0 <= i < |a| ==> a[i] <= b[i]
    ensures SortInts(a)[k] <= SortInts(b)[k]
  {
    var v := SortInts(b)[k];
    var p := (x: int) => x <= v;
    SortIntsSorted(a);
    SortIntsSorted(b);
    RankByCount(SortInts(b), k, v);
    CountPermutation(SortInts(b), b, p);
    CountPointwise(a, b, v);
    CountPermutation(SortInts(a), a, p);
    RankByCount(SortInts(a), k, v);
  }

  // ------------------------------------------------------- sorted distinct keys

  predicate Ascending(s: seq<int>) {
    forall i, j :: 0 <= i < j < |s| ==> s[i] < s[j]
  }

  function InsertKey(x: int, s: seq<int>): (r: seq<int>)
    ensures forall y :: y in r <==> y == x || y in s
  {
    if s == [] then [x]
    else if x < s[0] then [x] + s
    else if x == s[0] then s
    else [s[0]] + InsertKey(x, s[1..])
  }

  /** The keys that occur, each once, in ascending order. */
  function Keys(s: seq<int>): (r: seq<int>)
    ensures forall y :: y in r <==> y in s
  {
    if s == [] then [] else InsertKey(s[0], Keys(s[1..]))
  }

  lemma {:induction false} InsertKeyAscending(x: int, s: seq<int>)
    requires Ascending(s)
    ensures Ascending(InsertKey(x, s))
  {
    if s != [] && x > s[0] {
      InsertKeyAscending(x, s[1..]);
      var rest := InsertKey(x, s[1..]);
      forall i | 0 <= i < |rest| ensures s[0] < rest[i] {
        assert rest[i] in rest;
      }
    }
  }

  lemma {:induction false} KeysAscending(s: seq<int>)
    ensures Ascending(Keys(s))
  {
    if s != [] {
      KeysAscending(s[1..]);
      InsertKeyAscending(s[0], Keys(s[1..]));
    }
  }

  lemma {:induction false} AscendingUnique(a: seq<int>, b: seq<int>)
    requires Ascending(a) && Ascending(b) && forall y :: y in a <==> y in b
    ensures a == b
  {
    if a == [] {
      assert forall i :: 0 <= i < |b| ==> b[i] in a;
    } else {
      assert a[0] in b && b != [] && b[0] in a;
      assert a[0] == b[0];
      forall y ensures y in a[1..] <==> y in b[1..] {
        assert y in a[1..] <==> y in a && y != a[0] by { assert a == [a[0]] + a[1..]; }
        assert y in b[1..] <==> y in b && y != b[0] by { assert b == [b[0]] + b[1..]; }
      }
      AscendingUnique(a[1..], b[1..]);
    }
  }

  lemma KeysPermutation(a: seq<int>, b: seq<int>)
    requires multiset(a) == multiset(b)
    ensures Keys(a) == Keys(b)
  {
    KeysAscending(a);
    KeysAscending(b);
    forall y ensures y in Keys(a) <==> y in Keys(b) {
      assert y in a <==> y in multiset(a);
      assert y in b <==> y in multiset(b);
    }
    AscendingUnique(Keys(a), Keys(b));
  }
}
