/** The orders the harness sorts by, and its library sort. */
module Ordering {
  /** Rust compares strings byte by byte in UTF-8, which is the order of the
      code points. */
  predicate StringLeq(a: string, b: string) {
    a == [] || (b != [] && (a[0] < b[0] || (a[0] == b[0] && StringLeq(a[1..], b[1..]))))
  }

  ghost predicate TotalOrder<T(!new)>(leq: (T, T) -> bool) {
    && (forall x, y :: leq(x, y) || leq(y, x))
    && (forall x, y, z :: leq(x, y) && leq(y, z) ==> leq(x, z))
    && (forall x, y :: leq(x, y) && leq(y, x) ==> x == y)
  }

  predicate Sorted<T>(leq: (T, T) -> bool, xs: seq<T>) {
    forall i, j | 0 <= i < j < |xs| :: leq(xs[i], xs[j])
  }

  function Insert<T>(leq: (T, T) -> bool, x: T, xs: seq<T>): (r: seq<T>)
    ensures multiset(r) == multiset(xs) + multiset{x}
  {
    if xs == [] || leq(x, xs[0]) then [x] + xs
    else
      assert xs == [xs[0]] + xs[1..];
      [xs[0]] + Insert(leq, x, xs[1..])
  }

  /** A stable sort, as the library's `sort_by`. */
  function Sort<T>(leq: (T, T) -> bool, xs: seq<T>): (r: seq<T>)
    ensures multiset(r) == multiset(xs)
  {
    if xs == [] then []
    else
      assert xs == [xs[0]] + xs[1..];
      Insert(leq, xs[0], Sort(leq, xs[1..]))
  }

  lemma {:induction false} InsertSorted<T(!new)>(leq: (T, T) -> bool, x: T, xs: seq<T>)
    requires forall x, y :: leq(x, y) || leq(y, x)
    requires forall x, y, z :: leq(x, y) && leq(y, z) ==> leq(x, z)
    requires Sorted(leq, xs)
    ensures Sorted(leq, Insert(leq, x, xs))
  {
    if xs != [] && !leq(x, xs[0]) {
      InsertSorted(leq, x, xs[1..]);
      var tail := Insert(leq, x, xs[1..]);
      forall j | 0 <= j < |tail| ensures leq(xs[0], tail[j]) {
        assert tail[j] in multiset(tail);
      }
    }
  }

  lemma {:induction false} SortSorted<T(!new)>(leq: (T, T) -> bool, xs: seq<T>)
    requires forall x, y :: leq(x, y) || leq(y, x)
    requires forall x, y, z :: leq(x, y) && leq(y, z) ==> leq(x, z)
    ensures Sorted(leq, Sort(leq, xs))
  {
    if xs != [] {
      SortSorted(leq, xs[1..]);
      InsertSorted(leq, xs[0], Sort(leq, xs[1..]));
    }
  }

  lemma {:induction false} SameHead<T>(leq: (T, T) -> bool, xs: seq<T>, ys: seq<T>)
    requires Sorted(leq, xs) && Sorted(leq, ys) && multiset(xs) == multiset(ys)
    requires forall x, y | x in xs && y in xs :: leq(x, y) && leq(y, x) ==> x == y
    requires xs != [] && ys != []
    ensures xs[0] == ys[0]
  {
    assert xs[0] in multiset(ys) && ys[0] in multiset(xs);
    var i :| 0 <= i < |ys| && ys[i] == xs[0];
    var j :| 0 <= j < |xs| && xs[j] == ys[0];
    if i > 0 && j > 0 {
      assert leq(ys[0], ys[i]) && leq(xs[0], xs[j]);
    }
  }

  lemma {:induction false} TailMultiset<T>(xs: seq<T>)
    requires xs != []
    ensures multiset(xs[1..]) == multiset(xs) - multiset{xs[0]}
  {
    assert xs == [xs[0]] + xs[1..];
  }

  /** A list without ties has one sorted arrangement. */
  lemma {:induction false} SortedUnique<T>(leq: (T, T) -> bool, xs: seq<T>, ys: seq<T>)
    requires Sorted(leq, xs) && Sorted(leq, ys) && multiset(xs) == multiset(ys)
    requires forall x, y | x in xs && y in xs :: leq(x, y) && leq(y, x) ==> x == y
    ensures xs == ys
  {
    assert |xs| == |multiset(xs)| == |multiset(ys)| == |ys|;
    if xs != [] {
      SameHead(leq, xs, ys);
      TailMultiset(xs);
      TailMultiset(ys);
      SortedUnique(leq, xs[1..], ys[1..]);
      assert xs == [xs[0]] + xs[1..] && ys == [ys[0]] + ys[1..];
    }
  }

  lemma {:induction false} StringLeqTotal(a: string, b: string)
    ensures StringLeq(a, b) || StringLeq(b, a)
    ensures StringLeq(a, b) && StringLeq(b, a) ==> a == b
  {
    if a != [] && b != [] {
      StringLeqTotal(a[1..], b[1..]);
      assert a == [a[0]] + a[1..] && b == [b[0]] + b[1..];
    }
  }

  lemma {:induction false} StringLeqTransitive(a: string, b: string, c: string)
    requires StringLeq(a, b) && StringLeq(b, c)
    ensures StringLeq(a, c)
  {
    if a != [] && a[0] == b[0] == c[0] {
      StringLeqTransitive(a[1..], b[1..], c[1..]);
    }
  }

  /** One text precedes another when it is its beginning, or has the smaller
      character where they first differ. */
  lemma {:induction false} StringLeqMeans(a: string, b: string)
    ensures StringLeq(a, b)
       <==> a <= b || exists k :: 0 <= k < |a| && k < |b| && a[..k] == b[..k] && a[k] < b[k]
  {
    if a != [] && b != [] && a[0] == b[0] {
      var s, t := a[1..], b[1..];
      StringLeqMeans(s, t);
      assert a == [a[0]] + s && b == [b[0]] + t;
      if k :| 0 <= k < |s| && k < |t| && s[..k] == t[..k] && s[k] < t[k] {
        assert a[..k + 1] == [a[0]] + s[..k] && b[..k + 1] == [b[0]] + t[..k];
      }
      if k :| 0 <= k < |a| && k < |b| && a[..k] == b[..k] && a[k] < b[k] {
        assert s[..k - 1] == a[..k][1..] && t[..k - 1] == b[..k][1..];
        assert s[k - 1] < t[k - 1];
      }
    } else if a != [] && b != [] && a[0] < b[0] {
      assert a[..0] == b[..0];
    }
  }

  lemma {:induction false} StringOrder()
    ensures TotalOrder(StringLeq)
  {
    forall x, y ensures (StringLeq(x, y) || StringLeq(y, x)) && (StringLeq(x, y) && StringLeq(y, x) ==> x == y) {
      StringLeqTotal(x, y);
    }
    forall x, y, z | StringLeq(x, y) && StringLeq(y, z) ensures StringLeq(x, z) {
      StringLeqTransitive(x, y, z);
    }
  }

  predicate Distinct<T(==)>(xs: seq<T>) {
    forall i, j | 0 <= i < j < |xs| :: xs[i] != xs[j]
  }

  function Elements<T>(xs: seq<T>): set<T> { set x | x in xs }

  lemma {:induction false} ElementsSize<T>(xs: seq<T>)
    ensures |Elements(xs)| <= |xs|
  {
    if xs != [] {
      var n := |xs| - 1;
      ElementsSize(xs[..n]);
      assert Elements(xs) == Elements(xs[..n]) + {xs[n]};
    }
  }

  /** A list without repetition fits the set it is drawn from. */
  lemma {:induction false} DistinctFits<T>(xs: seq<T>, all: set<T>)
    requires Distinct(xs) && forall x | x in xs :: x in all
    ensures |xs| <= |all|
    decreases |xs|
  {
    if xs != [] {
      var n := |xs| - 1;
      DistinctFits(xs[..n], all - {xs[n]});
    }
  }

  /** `order` lists every element of `keys` exactly once. */
  ghost predicate Enumerates<T(!new)>(order: seq<T>, keys: set<T>) {
    Distinct(order) && forall k :: k in order <==> k in keys
  }

  lemma {:induction false} DistinctMultiset<T>(xs: seq<T>)
    requires Distinct(xs)
    ensures forall x | x in xs :: multiset(xs)[x] == 1
  {
    if xs != [] {
      var n := |xs| - 1;
      DistinctMultiset(xs[..n]);
      assert xs == xs[..n] + [xs[n]];
      assert xs[n] !in xs[..n];
    }
  }

  lemma {:induction false} EnumerationsPermute<T(!new)>(xs: seq<T>, ys: seq<T>, keys: set<T>)
    requires Enumerates(xs, keys) && Enumerates(ys, keys)
    ensures multiset(xs) == multiset(ys)
  {
    DistinctMultiset(xs);
    DistinctMultiset(ys);
    forall k ensures multiset(xs)[k] == multiset(ys)[k] {
      assert k in xs <==> k in ys;
    }
  }

  lemma {:induction false} Enumeration<T(!new)>(keys: set<T>) returns (order: seq<T>)
    ensures Enumerates(order, keys)
    decreases |keys|
  {
    if keys == {} {
      order := [];
    } else {
      var k :| k in keys;
      var rest := Enumeration(keys - {k});
      order := [k] + rest;
    }
  }

  /** The keys of a map in ascending order. */
  ghost function SortedKeys(keys: set<string>): (r: seq<string>)
    ensures forall k | k in r :: k in keys
  {
    SortedKeysExist(keys);
    var r :| Enumerates(r, keys) && Sorted(StringLeq, r);
    r
  }

  lemma {:induction false} SortedKeysProperties(keys: set<string>)
    ensures Enumerates(SortedKeys(keys), keys) && Sorted(StringLeq, SortedKeys(keys))
  {
    SortedKeysExist(keys);
  }

  lemma {:induction false} SortedKeysExist(keys: set<string>)
    ensures exists r :: Enumerates(r, keys) && Sorted(StringLeq, r)
  {
    var order := Enumeration(keys);
    SortEnumerates(order, keys);
    assert Enumerates(Sort(StringLeq, order), keys);
  }

  lemma {:induction false} DistinctPermutation<T>(xs: seq<T>, ys: seq<T>)
    requires Distinct(xs) && multiset(xs) == multiset(ys)
    ensures Distinct(ys)
  {
    DistinctMultiset(xs);
    forall i, j | 0 <= i < j < |ys| ensures ys[i] != ys[j] {
      var a, b := ys[..j], ys[j..];
      assert ys == a + b;
      assert multiset(ys) == multiset(a) + multiset(b);
      assert a[i] in multiset(a) && b[0] in multiset(b);
      assert ys[i] in multiset(xs);
    }
  }

  lemma {:induction false} SortEnumerates(order: seq<string>, keys: set<string>)
    requires Enumerates(order, keys)
    ensures Enumerates(Sort(StringLeq, order), keys) && Sorted(StringLeq, Sort(StringLeq, order))
  {
    StringOrder();
    SortSorted(StringLeq, order);
    var r := Sort(StringLeq, order);
    DistinctPermutation(order, r);
    forall k ensures k in r <==> k in order {
      assert k in multiset(r) <==> k in multiset(order);
    }
  }

  /** Sorting the entries of a map gives the same list whatever order the map
      hands them out in. */
  lemma {:induction false} SortOfAnyOrder(order: seq<string>, keys: set<string>)
    requires Enumerates(order, keys)
    ensures Sort(StringLeq, order) == SortedKeys(keys)
  {
    SortEnumerates(order, keys);
    SortedKeysProperties(keys);
    var r := Sort(StringLeq, order);
    EnumerationsPermute(r, SortedKeys(keys), keys);
    StringOrder();
    SortedUnique(StringLeq, r, SortedKeys(keys));
  }
}
