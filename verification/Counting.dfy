/** Sums over lists, and the partition law all the grouping results rest on. */
module Counting {
  import opened Filtering
  import opened Wrappers

  /** The first item with a key, or the length of the list. */
  function IndexOf<T>(s: seq<T>, key: T -> string, k: string): (i: nat)
    ensures i <= |s|
    ensures i < |s| ==> key(s[i]) == k
    ensures forall j :: 0 <= j < i ==> key(s[j]) != k
  {
    if s == [] || key(s[0]) == k then 0 else 1 + IndexOf(s[1..], key, k)
  }

  function Sum<T>(s: seq<T>, f: T -> int): int
    decreases |s|
  {
    if s == [] then 0 else Sum(s[..|s| - 1], f) + f(s[|s| - 1])
  }

  lemma SumOne<T>(s: seq<T>, x: T, f: T -> int)
    ensures Sum(s + [x], f) == Sum(s, f) + f(x)
  {
    assert (s + [x])[..|s|] == s;
  }

  /** An indicator adds up to the number of items it marks. */
  lemma {:induction false} SumIsCount<T>(s: seq<T>, f: T -> int, p: T -> bool)
    requires forall x :: x in s ==> f(x) == if p(x) then 1 else 0
    ensures Sum(s, f) == |Filter(s, p)|
    decreases |s|
  {
    if s != [] {
      assert s[|s| - 1] in s;
      SumIsCount(s[..|s| - 1], f, p);
    }
  }

  lemma {:induction false} SumConcat<T>(a: seq<T>, b: seq<T>, f: T -> int)
    ensures Sum(a + b, f) == Sum(a, f) + Sum(b, f)
    decreases |b|
  {
    if b == [] {
      assert a + b == a;
    } else {
      assert (a + b)[..|a + b| - 1] == a + b[..|b| - 1];
      SumConcat(a, b[..|b| - 1], f);
    }
  }

  lemma SumAround<T>(a: seq<T>, x: T, b: seq<T>, f: T -> int)
    ensures Sum((a + [x]) + b, f) == Sum(a + b, f) + f(x)
  {
    SumConcat(a + [x], b, f);
    SumOne(a, x, f);
    SumConcat(a, b, f);
  }

  lemma ElementsAround<T>(a: seq<T>, x: T, b: seq<T>)
    ensures multiset((a + [x]) + b) == multiset(a + b) + multiset{x}
  {
    assert multiset((a + [x]) + b) == multiset(a) + multiset{x} + multiset(b);
  }

  lemma Cut<T>(s: seq<T>, x: T) returns (a: seq<T>, b: seq<T>)
    requires x in s
    ensures s == (a + [x]) + b
  {
    var i :| 0 <= i < |s| && s[i] == x;
    a, b := s[..i], s[i + 1..];
  }

  /** A sum does not depend on the order of the list. */
  lemma {:induction false} SumRearranged<T>(a: seq<T>, b: seq<T>, f: T -> int)
    requires multiset(a) == multiset(b)
    ensures Sum(a, f) == Sum(b, f)
    decreases |a|
  {
    assert |a| == |multiset(a)| == |multiset(b)| == |b|;
    if a != [] {
      var init, x := a[..|a| - 1], a[|a| - 1];
      assert a == init + [x] && x in multiset(b);
      var l, r := Cut(b, x);
      SumAround(l, x, r, f);
      ElementsAround(l, x, r);
      SameRest(init, l + r, x);
      SumRearranged(init, l + r, f);
    }
  }

  lemma SameRest<T>(a: seq<T>, b: seq<T>, x: T)
    requires multiset(a + [x]) == multiset(b) + multiset{x}
    ensures multiset(a) == multiset(b)
  {
    assert multiset(a + [x]) == multiset(a) + multiset{x};
    assert multiset(a) == (multiset(a) + multiset{x}) - multiset{x};
  }

  /** Term by term, sums add up. */
  lemma {:induction false} SumAdds<T>(s: seq<T>, f: T -> int, g: T -> int, h: T -> int)
    requires forall x :: x in s ==> f(x) == g(x) + h(x)
    ensures Sum(s, f) == Sum(s, g) + Sum(s, h)
    decreases |s|
  {
    if s != [] {
      assert s[|s| - 1] in s;
      SumAdds(s[..|s| - 1], f, g, h);
    }
  }

  lemma {:induction false} SumSame<T>(s: seq<T>, f: T -> int, g: T -> int)
    requires forall x :: x in s ==> f(x) == g(x)
    ensures Sum(s, f) == Sum(s, g)
    decreases |s|
  {
    if s != [] {
      assert s[|s| - 1] in s;
      SumSame(s[..|s| - 1], f, g);
    }
  }

  /** Position by position, equal terms have equal sums. */
  lemma {:induction false} SumPaired<S, T>(a: seq<S>, b: seq<T>, f: S -> int, g: T -> int)
    requires |a| == |b| && forall i :: 0 <= i < |a| ==> f(a[i]) == g(b[i])
    ensures Sum(a, f) == Sum(b, g)
    decreases |a|
  {
    if a != [] {
      SumPaired(a[..|a| - 1], b[..|b| - 1], f, g);
    }
  }

  lemma {:induction false} SumZero<T>(s: seq<T>, f: T -> int)
    requires forall x :: x in s ==> f(x) == 0
    ensures Sum(s, f) == 0
    decreases |s|
  {
    if s != [] {
      assert s[|s| - 1] in s;
      SumZero(s[..|s| - 1], f);
    }
  }

  /** The value of an item for one group: its weight if it belongs there. */
  function Member<T, K(==)>(key: T -> Option<K>, weight: T -> int, k: K): T -> int
  {
    x => if key(x) == Some(k) then weight(x) else 0
  }

  /** The value of an item if it belongs to any group. */
  function Grouped<T, K>(key: T -> Option<K>, weight: T -> int): T -> int
  {
    x => if key(x).Some? then weight(x) else 0
  }

  /** The rows of a grouping, each holding the sum of its members. */
  ghost predicate Groups<R, T, K>(rows: seq<R>, rowKey: R -> K, rowValue: R -> int, s: seq<T>, key: T -> Option<K>,
                                  weight: T -> int)
  {
    && (forall i, j :: 0 <= i < j < |rows| ==> rowKey(rows[i]) != rowKey(rows[j]))
    && (forall x :: x in s && key(x).Some? ==> exists r :: r in rows && rowKey(r) == key(x).value)
    && (forall r :: r in rows ==> rowValue(r) == Sum(s, Member(key, weight, rowKey(r))))
  }

  /** The sum, over the rows, of the members of each row's group. */
  function RowTotal<R, T, K(==)>(rows: seq<R>, rowKey: R -> K, s: seq<T>, key: T -> Option<K>, weight: T -> int): int
  {
    if rows == [] then 0
    else RowTotal(rows[..|rows| - 1], rowKey, s, key, weight) + Sum(s, Member(key, weight, rowKey(rows[|rows| - 1])))
  }

  lemma {:induction false} RowTotalIsSum<R, T, K>(rows: seq<R>, rowKey: R -> K, rowValue: R -> int, s: seq<T>,
                                                  key: T -> Option<K>, weight: T -> int)
    requires forall r :: r in rows ==> rowValue(r) == Sum(s, Member(key, weight, rowKey(r)))
    ensures Sum(rows, rowValue) == RowTotal(rows, rowKey, s, key, weight)
    decreases |rows|
  {
    if rows != [] {
      assert rows[|rows| - 1] in rows;
      RowTotalIsSum(rows[..|rows| - 1], rowKey, rowValue, s, key, weight);
    }
  }

  function OneItem<R, T, K(==)>(rows: seq<R>, rowKey: R -> K, x: T, key: T -> Option<K>, weight: T -> int): int
  {
    if rows == [] then 0
    else OneItem(rows[..|rows| - 1], rowKey, x, key, weight) + Member(key, weight, rowKey(rows[|rows| - 1]))(x)
  }

  lemma {:induction false} RowTotalOne<R, T, K>(rows: seq<R>, rowKey: R -> K, s: seq<T>, x: T, key: T -> Option<K>,
                                                weight: T -> int)
    ensures RowTotal(rows, rowKey, s + [x], key, weight)
              == RowTotal(rows, rowKey, s, key, weight) + OneItem(rows, rowKey, x, key, weight)
    decreases |rows|
  {
    if rows != [] {
      RowTotalOne(rows[..|rows| - 1], rowKey, s, x, key, weight);
      SumOne(s, x, Member(key, weight, rowKey(rows[|rows| - 1])));
    }
  }

  lemma {:induction false} ItemOutside<R, T, K>(rows: seq<R>, rowKey: R -> K, x: T, key: T -> Option<K>,
                                                weight: T -> int)
    requires forall r :: r in rows ==> key(x) != Some(rowKey(r))
    ensures OneItem(rows, rowKey, x, key, weight) == 0
    decreases |rows|
  {
    if rows != [] {
      assert rows[|rows| - 1] in rows;
      ItemOutside(rows[..|rows| - 1], rowKey, x, key, weight);
    }
  }

  lemma {:induction false} ItemInside<R, T, K>(rows: seq<R>, rowKey: R -> K, x: T, key: T -> Option<K>,
                                               weight: T -> int, k: nat)
    requires forall i, j :: 0 <= i < j < |rows| ==> rowKey(rows[i]) != rowKey(rows[j])
    requires k < |rows| && key(x) == Some(rowKey(rows[k]))
    ensures OneItem(rows, rowKey, x, key, weight) == weight(x)
    decreases |rows|
  {
    var n := |rows| - 1;
    if k == n {
      ItemOutside(rows[..n], rowKey, x, key, weight);
    } else {
      ItemInside(rows[..n], rowKey, x, key, weight, k);
    }
  }

  lemma {:induction false} RowTotalIsGrouped<R, T, K>(rows: seq<R>, rowKey: R -> K, s: seq<T>, key: T -> Option<K>,
                                                      weight: T -> int)
    requires forall i, j :: 0 <= i < j < |rows| ==> rowKey(rows[i]) != rowKey(rows[j])
    requires forall x :: x in s && key(x).Some? ==> exists r :: r in rows && rowKey(r) == key(x).value
    ensures RowTotal(rows, rowKey, s, key, weight) == Sum(s, Grouped(key, weight))
    decreases |s|
  {
    if s == [] {
      RowTotalEmpty(rows, rowKey, key, weight);
    } else {
      var init, x := s[..|s| - 1], s[|s| - 1];
      assert s == init + [x] && x in s;
      RowTotalIsGrouped(rows, rowKey, init, key, weight);
      RowTotalOne(rows, rowKey, init, x, key, weight);
      if key(x).Some? {
        var r :| r in rows && rowKey(r) == key(x).value;
        var k :| 0 <= k < |rows| && rows[k] == r;
        ItemInside(rows, rowKey, x, key, weight, k);
      } else {
        ItemOutside(rows, rowKey, x, key, weight);
      }
    }
  }

  lemma {:induction false} RowTotalEmpty<R, T, K>(rows: seq<R>, rowKey: R -> K, key: T -> Option<K>, weight: T -> int)
    ensures RowTotal(rows, rowKey, [], key, weight) == 0
    decreases |rows|
  {
    if rows != [] {
      RowTotalEmpty(rows[..|rows| - 1], rowKey, key, weight);
    }
  }

  /** The partition law: when every item with a key has exactly one row, and every row holds
      the sum of its members, the rows add up to all items with a key. */
  lemma PartitionLaw<R, T, K>(rows: seq<R>, rowKey: R -> K, rowValue: R -> int, s: seq<T>, key: T -> Option<K>,
                              weight: T -> int)
    requires Groups(rows, rowKey, rowValue, s, key, weight)
    ensures Sum(rows, rowValue) == Sum(s, Grouped(key, weight))
  {
    RowTotalIsSum(rows, rowKey, rowValue, s, key, weight);
    RowTotalIsGrouped(rows, rowKey, s, key, weight);
  }
}
