/** A stable sort by a total preorder, standing for pandas' `sort_index`,
    `sort_values` and the ordering `value_counts` applies. */
module Sorting {

  ghost predicate Total<T(!new)>(le: (T, T) -> bool) {
    forall a, b :: le(a, b) || le(b, a)
  }

  ghost predicate Transitive<T(!new)>(le: (T, T) -> bool) {
    forall a, b, c :: le(a, b) && le(b, c) ==> le(a, c)
  }

  ghost predicate Preorder<T(!new)>(le: (T, T) -> bool) {
    Total(le) && Transitive(le)
  }

  ghost predicate Antisymmetric<T(!new)>(le: (T, T) -> bool) {
    forall a, b :: le(a, b) && le(b, a) ==> a == b
  }

  predicate SortedBy<T>(xs: seq<T>, le: (T, T) -> bool) {
    forall i, j :: 0 <= i < j < |xs| ==> le(xs[i], xs[j])
  }

  /** x placed before the first element it does not follow. */
  function Insert<T>(x: T, ys: seq<T>, le: (T, T) -> bool): (r: seq<T>)
    ensures multiset(r) == multiset{x} + multiset(ys)
    ensures |r| == |ys| + 1
  {
    if ys == [] || le(x, ys[0]) then [x] + ys
    else
      assert ys == [ys[0]] + ys[1..];
      [ys[0]] + Insert(x, ys[1..], le)
  }

  lemma {:induction false} InsertSorted<T(!new)>(x: T, ys: seq<T>, le: (T, T) -> bool)
    requires Preorder(le) && SortedBy(ys, le)
    ensures SortedBy(Insert(x, ys, le), le)
  {
    if ys != [] && !le(x, ys[0]) {
      InsertSorted(x, ys[1..], le);
      var r := Insert(x, ys, le);
      var tail := Insert(x, ys[1..], le);
      assert r == [ys[0]] + tail;
      forall k | 0 <= k < |tail| ensures le(ys[0], tail[k]) {
        assert tail[k] in multiset(tail);
        assert tail[k] == x || tail[k] in ys[1..];
      }
    }
  }

  /** The stable sort: each element placed before the later ones it does not follow. */
  function SortBy<T>(xs: seq<T>, le: (T, T) -> bool): (r: seq<T>)
    ensures multiset(r) == multiset(xs) && |r| == |xs|
  {
    if xs == [] then []
    else
      assert xs == [xs[0]] + xs[1..];
      Insert(xs[0], SortBy(xs[1..], le), le)
  }

  lemma {:induction false} SortBySorted<T(!new)>(xs: seq<T>, le: (T, T) -> bool)
    requires Preorder(le)
    ensures SortedBy(SortBy(xs, le), le)
  {
    if xs != [] {
      SortBySorted(xs[1..], le);
      InsertSorted(xs[0], SortBy(xs[1..], le), le);
    }
  }

  /** Under an order that makes equivalent elements equal, a sorted
      arrangement of a multiset is unique. */
  lemma {:induction false} SortedUnique<T(!new)>(a: seq<T>, b: seq<T>, le: (T, T) -> bool)
    requires Antisymmetric(le) && SortedBy(a, le) && SortedBy(b, le) && multiset(a) == multiset(b)
    ensures a == b
  {
    if a != [] {
      SortedHeads(a, b, le);
      MultisetTail(a);
      MultisetTail(b);
      SortedTail(a, le);
      SortedTail(b, le);
      SortedUnique(a[1..], b[1..], le);
      SameHeadAndTail(a, b);
    }
  }

  lemma SortedTail<T>(a: seq<T>, le: (T, T) -> bool)
    requires a != [] && SortedBy(a, le)
    ensures SortedBy(a[1..], le)
  {
    forall i, j | 0 <= i < j < |a| - 1 ensures le(a[1..][i], a[1..][j]) {
      assert le(a[i + 1], a[j + 1]);
    }
  }

  lemma SameHeadAndTail<T>(a: seq<T>, b: seq<T>)
    requires a != [] && b != [] && a[0] == b[0] && a[1..] == b[1..]
    ensures a == b
  {
    assert a == [a[0]] + a[1..];
    assert b == [b[0]] + b[1..];
  }

  /** Two sorted arrangements of one multiset start with the same element. */
  lemma SortedHeads<T(!new)>(a: seq<T>, b: seq<T>, le: (T, T) -> bool)
    requires Antisymmetric(le) && SortedBy(a, le) && SortedBy(b, le) && multiset(a) == multiset(b)
    requires a != []
    ensures b != [] && a[0] == b[0]
  {
    assert a[0] in multiset(b);
    assert b[0] in multiset(a);
    var i :| 0 <= i < |b| && b[i] == a[0];
    var j :| 0 <= j < |a| && a[j] == b[0];
    if i > 0 && j > 0 {
      assert le(b[0], b[i]) && le(a[0], a[j]);
    }
  }

  lemma MultisetTail<T>(a: seq<T>)
    requires a != []
    ensures multiset(a[1..]) == multiset(a) - multiset{a[0]}
  {
    assert a == [a[0]] + a[1..];
  }

  /** Sorting a sorted sequence under an antisymmetric order changes nothing. */
  lemma SortByOfSorted<T(!new)>(xs: seq<T>, le: (T, T) -> bool)
    requires Preorder(le) && Antisymmetric(le) && SortedBy(xs, le)
    ensures SortBy(xs, le) == xs
  {
    SortBySorted(xs, le);
    SortedUnique(SortBy(xs, le), xs, le);
  }

  /** Two sequences sort to the same sequence exactly when they hold the same
      elements. */
  lemma SortByEqualIff<T(!new)>(a: seq<T>, b: seq<T>, le: (T, T) -> bool)
    requires Preorder(le) && Antisymmetric(le)
    ensures SortBy(a, le) == SortBy(b, le) <==> multiset(a) == multiset(b)
  {
    if multiset(a) == multiset(b) {
      SortBySorted(a, le);
      SortBySorted(b, le);
      SortedUnique(SortBy(a, le), SortBy(b, le), le);
    }
  }

  function MapSeq<T, K>(key: T -> K, xs: seq<T>): (r: seq<K>)
    ensures |r| == |xs| && forall i :: 0 <= i < |xs| ==> r[i] == key(xs[i])
  {
    seq(|xs|, i requires 0 <= i < |xs| => key(xs[i]))
  }

  lemma MapSeqCons<T, K>(key: T -> K, a: T, rest: seq<T>)
    ensures MapSeq(key, [a] + rest) == [key(a)] + MapSeq(key, rest)
  {
  }

  /** Sorting by a key: the keys of the sorted sequence are the sorted keys. */
  lemma {:induction false} InsertByKey<T(!new), K>(x: T, ys: seq<T>, le: (T, T) -> bool, key: T -> K, kle: (K, K) -> bool)
    requires forall a, b {:trigger le(a, b)} :: le(a, b) == kle(key(a), key(b))
    ensures MapSeq(key, Insert(x, ys, le)) == Insert(key(x), MapSeq(key, ys), kle)
  {
    if ys == [] {
      MapSeqCons(key, x, ys);
    } else {
      var ks := MapSeq(key, ys);
      assert ys == [ys[0]] + ys[1..];
      MapSeqCons(key, ys[0], ys[1..]);
      assert ks[0] == key(ys[0]) && ks[1..] == MapSeq(key, ys[1..]);
      assert le(x, ys[0]) == kle(key(x), ks[0]);
      if le(x, ys[0]) {
        MapSeqCons(key, x, ys);
      } else {
        InsertByKey(x, ys[1..], le, key, kle);
        MapSeqCons(key, ys[0], Insert(x, ys[1..], le));
      }
    }
  }

  lemma {:induction false} SortByKey<T(!new), K>(xs: seq<T>, le: (T, T) -> bool, key: T -> K, kle: (K, K) -> bool)
    requires forall a, b {:trigger le(a, b)} :: le(a, b) == kle(key(a), key(b))
    ensures MapSeq(key, SortBy(xs, le)) == SortBy(MapSeq(key, xs), kle)
  {
    if xs != [] {
      var ks := MapSeq(key, xs);
      assert xs == [xs[0]] + xs[1..];
      MapSeqCons(key, xs[0], xs[1..]);
      assert ks[0] == key(xs[0]) && ks[1..] == MapSeq(key, xs[1..]);
      SortByKey(xs[1..], le, key, kle);
      InsertByKey(xs[0], SortBy(xs[1..], le), le, key, kle);
    }
  }
}
