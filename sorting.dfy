/**
 * A stable sort by a total preorder, standing for Array.prototype.sort with a comparator
 * (stable since ES2019). Each element is inserted after every element already placed
 * that is not greater than it, so equal elements keep their input order.
 */
module Sorting {

  ghost predicate TotalPreorder<T(!new)>(le: (T, T) -> bool) {
    && (forall a, b :: le(a, b) || le(b, a))
    && (forall a, b, c :: le(a, b) && le(b, c) ==> le(a, c))
  }

  ghost predicate Sorted<T>(s: seq<T>, le: (T, T) -> bool) {
    forall i, j :: 0 <= i < j < |s| ==> le(s[i], s[j])
  }

  function Insert<T>(x: T, ys: seq<T>, le: (T, T) -> bool): (r: seq<T>)
    ensures |r| == |ys| + 1
    ensures multiset(r) == multiset(ys) + multiset{x}
  {
    if ys == [] || le(ys[|ys| - 1], x) then ys + [x]
    else
      var r := Insert(x, ys[..|ys| - 1], le) + [ys[|ys| - 1]];
      assert ys == ys[..|ys| - 1] + [ys[|ys| - 1]];
      r
  }

  function SortBy<T>(xs: seq<T>, le: (T, T) -> bool): (r: seq<T>)
    ensures |r| == |xs|
    ensures multiset(r) == multiset(xs)
  {
    if xs == [] then []
    else
      var r := Insert(xs[|xs| - 1], SortBy(xs[..|xs| - 1], le), le);
      assert xs == xs[..|xs| - 1] + [xs[|xs| - 1]];
      r
  }

  lemma {:induction false} InsertSorted<T(!new)>(x: T, ys: seq<T>, le: (T, T) -> bool)
    requires TotalPreorder(le) && Sorted(ys, le)
    ensures Sorted(Insert(x, ys, le), le)
  {
    if ys != [] && !le(ys[|ys| - 1], x) {
      var init := ys[..|ys| - 1];
      var last := ys[|ys| - 1];
      InsertSorted(x, init, le);
      var r := Insert(x, init, le);
      assert le(x, last);
      forall i | 0 <= i < |r| ensures le(r[i], last) {
        assert r[i] in multiset(r);
        assert r[i] in multiset(init) + multiset{x};
        if r[i] != x {
          assert r[i] in init;
          var k :| 0 <= k < |init| && init[k] == r[i];
          assert le(ys[k], ys[|ys| - 1]);
        }
      }
    }
  }

  /** The sort yields an ordered permutation of its input. */
  lemma {:induction false} SortSorted<T(!new)>(xs: seq<T>, le: (T, T) -> bool)
    requires TotalPreorder(le)
    ensures Sorted(SortBy(xs, le), le)
  {
    if xs != [] {
      SortSorted(xs[..|xs| - 1], le);
      InsertSorted(xs[|xs| - 1], SortBy(xs[..|xs| - 1], le), le);
    }
  }

  /** `r` is `ys` with `x` placed at `p`, after the elements not greater than it and before the greater ones. */
  ghost predicate PlacedAt<T>(x: T, ys: seq<T>, r: seq<T>, p: nat, le: (T, T) -> bool) {
    && p <= |ys| && r == ys[..p] + [x] + ys[p..]
    && (p > 0 ==> le(ys[p - 1], x))
    && (forall i :: p <= i < |ys| ==> !le(ys[i], x))
  }

  /**
   * Insertion puts the new element right after the last element not greater than it, and
   * every element behind it is strictly greater: equal elements keep their order.
   */
  lemma {:induction false} InsertPlace<T>(x: T, ys: seq<T>, le: (T, T) -> bool) returns (p: nat)
    ensures PlacedAt(x, ys, Insert(x, ys, le), p, le)
  {
    if ys == [] || le(ys[|ys| - 1], x) {
      p := |ys|;
      assert ys[..p] == ys && ys[p..] == [];
    } else {
      var init := ys[..|ys| - 1];
      p := InsertPlace(x, init, le);
      assert Insert(x, ys, le) == Insert(x, init, le) + [ys[|ys| - 1]];
      PlacedBeforeLast(x, ys, Insert(x, init, le), p, le);
    }
  }

  /** A placement in all but the last element extends past a last element greater than `x`. */
  lemma PlacedBeforeLast<T>(x: T, ys: seq<T>, r: seq<T>, p: nat, le: (T, T) -> bool)
    requires ys != [] && !le(ys[|ys| - 1], x)
    requires PlacedAt(x, ys[..|ys| - 1], r, p, le)
    ensures PlacedAt(x, ys, r + [ys[|ys| - 1]], p, le)
  {
    var init := ys[..|ys| - 1];
    assert ys[..p] == init[..p];
    assert ys[p..] == init[p..] + [ys[|ys| - 1]];
    assert forall i :: p <= i < |ys| - 1 ==> ys[i] == init[i];
  }

  /** Input that is already in order comes back unchanged. */
  lemma {:induction false} SortOfSorted<T>(xs: seq<T>, le: (T, T) -> bool)
    requires Sorted(xs, le)
    ensures SortBy(xs, le) == xs
  {
    if xs != [] {
      var init := xs[..|xs| - 1];
      assert Sorted(init, le);
      SortOfSorted(init, le);
      if |init| > 0 {
        assert le(init[|init| - 1], xs[|xs| - 1]);
      }
    }
  }

  ghost predicate DistinctKeys<T, K>(xs: seq<T>, key: T -> K) {
    forall i, j :: 0 <= i < j < |xs| ==> key(xs[i]) != key(xs[j])
  }

  /** Taking out the element at `p` removes one occurrence of it. */
  lemma RemoveAt<T>(ys: seq<T>, p: nat)
    requires p < |ys|
    ensures ys == ys[..p] + [ys[p]] + ys[p + 1..]
    ensures multiset(ys[..p] + ys[p + 1..]) == multiset(ys) - multiset{ys[p]}
  {
    assert ys == ys[..p] + [ys[p]] + ys[p + 1..];
  }

  /** Taking the last element off. */
  lemma RemoveLast<T>(xs: seq<T>)
    requires xs != []
    ensures xs == xs[..|xs| - 1] + [xs[|xs| - 1]]
    ensures multiset(xs[..|xs| - 1]) == multiset(xs) - multiset{xs[|xs| - 1]}
  {
    assert xs == xs[..|xs| - 1] + [xs[|xs| - 1]];
  }

  /** Keys that are distinct in a list stay distinct in any permutation of it. */
  lemma {:induction false} DistinctKeysPermutation<T, K>(xs: seq<T>, ys: seq<T>, key: T -> K)
    requires multiset(xs) == multiset(ys)
    requires DistinctKeys(xs, key)
    ensures DistinctKeys(ys, key)
    decreases |xs|
  {
    if xs != [] {
      var x := xs[|xs| - 1];
      var init := xs[..|xs| - 1];
      assert x in multiset(ys);
      var p :| 0 <= p < |ys| && ys[p] == x;
      var rest := ys[..p] + ys[p + 1..];
      assert multiset(rest) == multiset(init) by {
        RemoveAt(ys, p);
        RemoveLast(xs);
      }
      assert DistinctKeys(init, key) by {
        forall i, j | 0 <= i < j < |init| ensures key(init[i]) != key(init[j]) {
          assert init[i] == xs[i] && init[j] == xs[j];
        }
      }
      DistinctKeysPermutation(init, rest, key);
      assert forall y :: y in rest ==> key(y) != key(x) by {
        LastKeyFresh(xs, key);
        forall y | y in rest ensures key(y) != key(x) {
          assert y in multiset(init);
        }
      }
      DistinctKeysInsert(ys[..p], x, ys[p + 1..], key);
      assert ys == ys[..p] + [x] + ys[p + 1..];
    }
  }

  lemma LastKeyFresh<T, K>(xs: seq<T>, key: T -> K)
    requires xs != [] && DistinctKeys(xs, key)
    ensures forall y :: y in xs[..|xs| - 1] ==> key(y) != key(xs[|xs| - 1])
  {
    forall y | y in xs[..|xs| - 1] ensures key(y) != key(xs[|xs| - 1]) {
      var q :| 0 <= q < |xs| - 1 && xs[..|xs| - 1][q] == y;
      assert xs[q] == y;
    }
  }

  lemma DistinctKeysInsert<T, K>(a: seq<T>, x: T, b: seq<T>, key: T -> K)
    requires DistinctKeys(a + b, key)
    requires forall y :: y in a + b ==> key(y) != key(x)
    ensures DistinctKeys(a + [x] + b, key)
  {
    var ys := a + [x] + b;
    forall i, j | 0 <= i < j < |ys| ensures key(ys[i]) != key(ys[j]) {
      var rest := a + b;
      if i != |a| && j != |a| {
        var i' := if i < |a| then i else i - 1;
        var j' := if j < |a| then j else j - 1;
        assert rest[i'] == ys[i] && rest[j'] == ys[j];
      } else if i == |a| {
        assert ys[j] == rest[j - 1];
      } else {
        assert ys[i] == rest[i];
      }
    }
  }
}
