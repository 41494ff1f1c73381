/**
 * Python's `list.sort(key=k, reverse=True)`: a stable sort by descending key.
 * Elements with equal keys keep their relative order (Python keeps the order
 * of equal elements with `reverse=True` as well).  The sort is written as an
 * insertion sort on sequences; what the backend relies on is stated as lemmas:
 * the result is a permutation of the input, it is sorted by non-increasing
 * key, and for every key value the elements with that key appear in input
 * order.
 */
module StableSort {

  /** Inserts `x` in front of the first element whose key is not greater than its own. */
  function InsertDesc<T>(x: T, ys: seq<T>, key: T -> real): (r: seq<T>)
    ensures |r| == |ys| + 1
    ensures multiset(r) == multiset(ys) + multiset{x}
  {
    if ys == [] || key(ys[0]) <= key(x) then [x] + ys
    else
      assert ys == [ys[0]] + ys[1..];
      [ys[0]] + InsertDesc(x, ys[1..], key)
  }

  function SortDesc<T>(xs: seq<T>, key: T -> real): (r: seq<T>)
    ensures |r| == |xs|
    ensures multiset(r) == multiset(xs)
  {
    if xs == [] then []
    else
      assert xs == [xs[0]] + xs[1..];
      InsertDesc(xs[0], SortDesc(xs[1..], key), key)
  }

  predicate SortedDesc<T>(s: seq<T>, key: T -> real) {
    forall i, j :: 0 <= i < j < |s| ==> key(s[i]) >= key(s[j])
  }

  /** The elements of `s` whose key is `k`, in order. */
  function WithKey<T>(s: seq<T>, key: T -> real, k: real): seq<T> {
    if s == [] then [] else (if key(s[0]) == k then [s[0]] else []) + WithKey(s[1..], key, k)
  }

  /** Every element of `s` comes before every later one according to `before`. */
  predicate InOrder<T>(s: seq<T>, before: (T, T) -> bool) {
    forall i, j :: 0 <= i < j < |s| ==> before(s[i], s[j])
  }

  /** Elements with equal keys are ordered by `before`. */
  predicate TiesInOrder<T>(s: seq<T>, key: T -> real, before: (T, T) -> bool) {
    forall i, j :: 0 <= i < j < |s| && key(s[i]) == key(s[j]) ==> before(s[i], s[j])
  }

  lemma {:induction false} InsertDescSorted<T>(x: T, ys: seq<T>, key: T -> real)
    requires SortedDesc(ys, key)
    ensures SortedDesc(InsertDesc(x, ys, key), key)
  {
    if ys == [] || key(ys[0]) <= key(x) {
      SortedAtMost(ys, key, key(x));
      ConsSorted(x, ys, key);
    } else {
      var tail := ys[1..];
      SortedTail(ys, key);
      InsertDescSorted(x, tail, key);
      SortedAtMost(tail, key, key(ys[0]));
      InsertDescAtMost(x, tail, key, key(ys[0]));
      ConsSorted(ys[0], InsertDesc(x, tail, key), key);
    }
  }

  /** No key in `s` exceeds `b`. */
  predicate AtMost<T>(s: seq<T>, key: T -> real, b: real) {
    forall j :: 0 <= j < |s| ==> key(s[j]) <= b
  }

  lemma SortedAtMost<T>(s: seq<T>, key: T -> real, b: real)
    requires SortedDesc(s, key) && (s == [] || key(s[0]) <= b)
    ensures AtMost(s, key, b)
  {
  }

  lemma ConsSorted<T>(y: T, s: seq<T>, key: T -> real)
    requires SortedDesc(s, key) && AtMost(s, key, key(y))
    ensures SortedDesc([y] + s, key)
  {
    var r := [y] + s;
    forall i, j | 0 <= i < j < |r| ensures key(r[i]) >= key(r[j]) {
      assert r[j] == s[j - 1];
      if i > 0 {
        assert r[i] == s[i - 1];
      }
    }
  }

  lemma {:induction false} InsertDescAtMost<T>(x: T, ys: seq<T>, key: T -> real, b: real)
    requires key(x) <= b && AtMost(ys, key, b)
    ensures AtMost(InsertDesc(x, ys, key), key, b)
  {
    var r := InsertDesc(x, ys, key);
    if ys == [] || key(ys[0]) <= key(x) {
      forall j | 0 <= j < |r| ensures key(r[j]) <= b {
        if j > 0 {
          assert r[j] == ys[j - 1];
        }
      }
    } else {
      var tail := ys[1..];
      assert AtMost(tail, key, b) by {
        forall j | 0 <= j < |tail| ensures key(tail[j]) <= b {
          assert tail[j] == ys[j + 1];
        }
      }
      InsertDescAtMost(x, tail, key, b);
      forall j | 0 <= j < |r| ensures key(r[j]) <= b {
        if j > 0 {
          assert r[j] == InsertDesc(x, tail, key)[j - 1];
        }
      }
    }
  }

  /** The sort's result is ordered by non-increasing key. */
  lemma {:induction false} SortDescSorted<T>(xs: seq<T>, key: T -> real)
    ensures SortedDesc(SortDesc(xs, key), key)
  {
    if xs != [] {
      SortDescSorted(xs[1..], key);
      InsertDescSorted(xs[0], SortDesc(xs[1..], key), key);
    }
  }

  lemma {:induction false} InsertDescWithKey<T>(x: T, ys: seq<T>, key: T -> real, k: real)
    ensures WithKey(InsertDesc(x, ys, key), key, k) == WithKey([x] + ys, key, k)
  {
    if ys == [] || key(ys[0]) <= key(x) {
    } else {
      var tail := ys[1..];
      InsertDescWithKey(x, tail, key, k);
      WithKeyCons(ys[0], InsertDesc(x, tail, key), key, k);
      WithKeyCons(x, tail, key, k);
      WithKeyCons(x, ys, key, k);
      ConsTail(ys);
      WithKeyCons(ys[0], tail, key, k);
    }
  }

  lemma WithKeyCons<T>(x: T, s: seq<T>, key: T -> real, k: real)
    ensures WithKey([x] + s, key, k) == (if key(x) == k then [x] else []) + WithKey(s, key, k)
  {
    assert ([x] + s)[1..] == s;
  }

  /** Stability: for every key value, the elements with that key keep their input order. */
  lemma {:induction false} SortDescStable<T>(xs: seq<T>, key: T -> real, k: real)
    ensures WithKey(SortDesc(xs, key), key, k) == WithKey(xs, key, k)
  {
    if xs != [] {
      SortDescStable(xs[1..], key, k);
      InsertDescWithKey(xs[0], SortDesc(xs[1..], key), key, k);
      assert ([xs[0]] + SortDesc(xs[1..], key))[1..] == SortDesc(xs[1..], key);
    }
  }

  lemma {:induction false} InsertDescTies<T>(x: T, ys: seq<T>, key: T -> real, before: (T, T) -> bool)
    requires TiesInOrder(ys, key, before)
    requires forall j :: 0 <= j < |ys| ==> before(x, ys[j])
    ensures TiesInOrder(InsertDesc(x, ys, key), key, before)
  {
    if ys == [] || key(ys[0]) <= key(x) {
      var r := [x] + ys;
      forall i, j | 0 <= i < j < |r| && key(r[i]) == key(r[j]) ensures before(r[i], r[j]) {
        if i == 0 {
          assert r[j] == ys[j - 1];
        } else {
          assert r[i] == ys[i - 1] && r[j] == ys[j - 1];
        }
      }
    } else {
      var tail := ys[1..];
      InsertDescTies(x, tail, key, before);
      var rest := InsertDesc(x, tail, key);
      var r := [ys[0]] + rest;
      forall i, j | 0 <= i < j < |r| && key(r[i]) == key(r[j]) ensures before(r[i], r[j]) {
        if i == 0 {
          var y := r[j];
          assert y == rest[j - 1];
          assert y in multiset(rest);
          if y != x {
            assert y in multiset(tail);
            var m :| 0 <= m < |tail| && tail[m] == y;
            assert tail[m] == ys[m + 1];
          }
        } else {
          assert r[i] == rest[i - 1] && r[j] == rest[j - 1];
        }
      }
    }
  }

  /**
   * When the input is ordered by `before`, elements the sort leaves tied on
   * the key are still ordered by `before` in the result.
   */
  lemma {:induction false} SortDescTiesInOrder<T>(xs: seq<T>, key: T -> real, before: (T, T) -> bool)
    requires InOrder(xs, before)
    ensures TiesInOrder(SortDesc(xs, key), key, before)
  {
    if xs != [] {
      var tail := xs[1..];
      assert InOrder(tail, before) by {
        forall i, j | 0 <= i < j < |tail| ensures before(tail[i], tail[j]) {
          assert tail[i] == xs[i + 1] && tail[j] == xs[j + 1];
        }
      }
      SortDescTiesInOrder(tail, key, before);
      var sorted := SortDesc(tail, key);
      forall j | 0 <= j < |sorted| ensures before(xs[0], sorted[j]) {
        assert sorted[j] in multiset(sorted);
        assert sorted[j] in multiset(tail);
        var m :| 0 <= m < |tail| && tail[m] == sorted[j];
        assert tail[m] == xs[m + 1];
      }
      InsertDescTies(xs[0], sorted, key, before);
    }
  }

  /** Sorting what is already sorted changes nothing. */
  lemma {:induction false} SortDescOfSorted<T>(xs: seq<T>, key: T -> real)
    requires SortedDesc(xs, key)
    ensures SortDesc(xs, key) == xs
  {
    if xs != [] {
      SortedTail(xs, key);
      SortDescOfSorted(xs[1..], key);
      ConsTail(xs);
    }
  }

  lemma SortedTail<T>(xs: seq<T>, key: T -> real)
    requires SortedDesc(xs, key) && xs != []
    ensures SortedDesc(xs[1..], key)
    ensures |xs| > 1 ==> key(xs[1..][0]) <= key(xs[0])
  {
    var tail := xs[1..];
    forall i, j | 0 <= i < j < |tail| ensures key(tail[i]) >= key(tail[j]) {
      assert tail[i] == xs[i + 1] && tail[j] == xs[j + 1];
    }
  }

  lemma ConsTail<T>(xs: seq<T>)
    requires xs != []
    ensures xs == [xs[0]] + xs[1..]
  {
  }

  /** The `(key, element)` pairs that `[(key(x), x) for x in xs]` builds. */
  function Keyed<T>(xs: seq<T>, key: T -> real): (r: seq<(real, T)>)
    ensures |r| == |xs|
    ensures forall i :: 0 <= i < |xs| ==> r[i] == (key(xs[i]), xs[i])
  {
    seq(|xs|, i requires 0 <= i < |xs| => (key(xs[i]), xs[i]))
  }

  function PairKey<T>(p: (real, T)): real {
    p.0
  }

  /** `[x for _, x in pairs]`. */
  function Seconds<T>(pairs: seq<(real, T)>): (r: seq<T>)
    ensures |r| == |pairs|
    ensures forall i :: 0 <= i < |pairs| ==> r[i] == pairs[i].1
  {
    seq(|pairs|, i requires 0 <= i < |pairs| => pairs[i].1)
  }

  /** Every pair carries its element's own key. */
  predicate Coherent<T>(pairs: seq<(real, T)>, key: T -> real) {
    forall i :: 0 <= i < |pairs| ==> pairs[i].0 == key(pairs[i].1)
  }

  lemma {:induction false} InsertPair<T>(p: (real, T), ps: seq<(real, T)>, key: T -> real)
    requires p.0 == key(p.1) && Coherent(ps, key)
    ensures Seconds(InsertDesc(p, ps, PairKey)) == InsertDesc(p.1, Seconds(ps), key)
  {
    if ps == [] || PairKey(ps[0]) <= PairKey(p) {
      SecondsCons(p, ps);
    } else {
      var tail := ps[1..];
      CoherentTail(ps, key);
      InsertPair(p, tail, key);
      SecondsTail(ps);
      SecondsCons(ps[0], InsertDesc(p, tail, PairKey));
    }
  }

  lemma SecondsCons<T>(p: (real, T), ps: seq<(real, T)>)
    ensures Seconds([p] + ps) == [p.1] + Seconds(ps)
  {
  }

  lemma SecondsTail<T>(ps: seq<(real, T)>)
    requires ps != []
    ensures Seconds(ps)[1..] == Seconds(ps[1..])
  {
  }

  lemma CoherentTail<T>(ps: seq<(real, T)>, key: T -> real)
    requires Coherent(ps, key) && ps != []
    ensures Coherent(ps[1..], key)
  {
    var tail := ps[1..];
    forall i | 0 <= i < |tail| ensures tail[i].0 == key(tail[i].1) {
      assert tail[i] == ps[i + 1];
    }
  }

  /**
   * Sorting the `(key, element)` pairs by their first component and dropping
   * the keys sorts the elements themselves by the key.
   */
  lemma {:induction false} SortKeyed<T>(xs: seq<T>, key: T -> real)
    ensures Seconds(SortDesc(Keyed(xs, key), PairKey)) == SortDesc(xs, key)
  {
    if xs != [] {
      var ps := Keyed(xs, key);
      assert ps[1..] == Keyed(xs[1..], key);
      SortKeyed(xs[1..], key);
      var sorted := SortDesc(ps[1..], PairKey);
      assert Coherent(sorted, key) by {
        forall i | 0 <= i < |sorted| ensures sorted[i].0 == key(sorted[i].1) {
          assert sorted[i] in multiset(sorted);
          assert sorted[i] in multiset(ps[1..]);
          var m :| 0 <= m < |ps[1..]| && ps[1..][m] == sorted[i];
        }
      }
      InsertPair(ps[0], sorted, key);
    }
  }

  /** Scoring one more element extends the keyed prefix by its pair. */
  lemma KeyedSnoc<T>(xs: seq<T>, i: nat, key: T -> real, acc: seq<(real, T)>, score: real)
    requires i < |xs| && acc == Keyed(xs[..i], key) && score == key(xs[i])
    ensures acc + [(score, xs[i])] == Keyed(xs[..i + 1], key)
  {
    assert xs[..i + 1][..i] == xs[..i];
  }
}
