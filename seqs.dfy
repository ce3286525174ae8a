/**
 * The three array primitives the store and its views are built from:
 * `find`, `filter` and `reduce((acc, x) => acc + f(x), 0)`.
 */
module Seqs {
  import opened Wrappers

  /** The position of the first element that satisfies `keep`, as `Array.prototype.find` locates it. */
  function FindFirst<T>(s: seq<T>, keep: T -> bool): (r: Option<nat>)
    ensures r.Some? ==> r.value < |s| && keep(s[r.value])
    ensures r.Some? ==> forall j :: 0 <= j < r.value ==> !keep(s[j])
    ensures r.None? <==> forall j :: 0 <= j < |s| ==> !keep(s[j])
  {
    if s == [] then None
    else if keep(s[0]) then Some(0)
    else match FindFirst(s[1..], keep)
      case None => None
      case Some(k) => Some(k + 1)
  }

  /** The elements that satisfy `keep`, in their original order. */
  function Filter<T>(s: seq<T>, keep: T -> bool): (r: seq<T>)
    ensures |r| <= |s|
    ensures (forall j :: 0 <= j < |s| ==> keep(s[j])) ==> r == s
  {
    if s == [] then []
    else (if keep(s[0]) then [s[0]] else []) + Filter(s[1..], keep)
  }

  /** Exactly the elements that satisfy `keep` survive a filter. */
  lemma {:induction false} FilterMembers<T>(s: seq<T>, keep: T -> bool)
    ensures forall i :: 0 <= i < |Filter(s, keep)| ==> Filter(s, keep)[i] in s && keep(Filter(s, keep)[i])
    ensures forall j :: 0 <= j < |s| && keep(s[j]) ==> s[j] in Filter(s, keep)
  {
    if s != [] {
      FilterMembers(s[1..], keep);
      var r := Filter(s, keep);
      var head := if keep(s[0]) then [s[0]] else [];
      assert r == head + Filter(s[1..], keep);
      forall i | 0 <= i < |r| ensures r[i] in s && keep(r[i]) {
        if i >= |head| {
          assert r[i] == Filter(s[1..], keep)[i - |head|];
        }
      }
      forall j | 0 <= j < |s| && keep(s[j]) ensures s[j] in r {
        if j > 0 {
          assert s[j] == s[1..][j - 1];
        }
      }
    }
  }

  /**
   * Two sequences of the same length where every element kept from the first is matched by a kept
   * element of the second, position for position: the second keeps at least as many.
   */
  lemma {:induction false} FilterLengthMonotone<T, U>(a: seq<T>, keepA: T -> bool, b: seq<U>, keepB: U -> bool)
    requires |a| == |b|
    requires forall i :: 0 <= i < |a| && keepA(a[i]) ==> keepB(b[i])
    ensures |Filter(a, keepA)| <= |Filter(b, keepB)|
  {
    if a != [] {
      FilterLengthMonotone(a[1..], keepA, b[1..], keepB);
    }
  }

  /** Filtering a concatenation filters each part: the kept elements never change their relative order. */
  lemma {:induction false} FilterAppend<T>(a: seq<T>, b: seq<T>, keep: T -> bool)
    ensures Filter(a + b, keep) == Filter(a, keep) + Filter(b, keep)
  {
    if a == [] {
      assert a + b == b;
    } else {
      var head := if keep(a[0]) then [a[0]] else [];
      assert (a + b)[0] == a[0] && (a + b)[1..] == a[1..] + b;
      assert Filter(a + b, keep) == head + Filter(a[1..] + b, keep);
      FilterAppend(a[1..], b, keep);
      assert Filter(a, keep) == head + Filter(a[1..], keep);
    }
  }

  /** `s.reduce((acc, x) => acc + f(x), 0)`: a left fold, so the last element is added last. */
  function SumOf<T>(s: seq<T>, f: T -> int): int
  {
    if s == [] then 0 else SumOf(s[..|s| - 1], f) + f(s[|s| - 1])
  }

  lemma {:induction false} SumOfAppend<T>(a: seq<T>, b: seq<T>, f: T -> int)
    ensures SumOf(a + b, f) == SumOf(a, f) + SumOf(b, f)
  {
    if b == [] {
      assert a + b == a;
    } else {
      SumOfAppend(a, b[..|b| - 1], f);
      assert (a + b)[..|a + b| - 1] == a + b[..|b| - 1];
    }
  }

  lemma SumOfSingleton<T>(x: T, f: T -> int)
    ensures SumOf([x], f) == f(x)
  {
    assert [x][..0] == [];
  }

  /** Putting an element in front adds its term: how a prepended order enters a total. */
  lemma SumOfCons<T>(x: T, s: seq<T>, f: T -> int)
    ensures SumOf([x] + s, f) == f(x) + SumOf(s, f)
  {
    SumOfAppend([x], s, f);
    SumOfSingleton(x, f);
  }

  /** Replacing one element changes the sum by the difference of the two terms. */
  lemma SumOfUpdate<T>(s: seq<T>, k: nat, x: T, f: T -> int)
    requires k < |s|
    ensures SumOf(s[k := x], f) == SumOf(s, f) - f(s[k]) + f(x)
  {
    assert s == s[..k] + [s[k]] + s[k + 1..];
    assert s[k := x] == s[..k] + [x] + s[k + 1..];
    SumOfAppend(s[..k] + [s[k]], s[k + 1..], f);
    SumOfAppend(s[..k], [s[k]], f);
    SumOfAppend(s[..k] + [x], s[k + 1..], f);
    SumOfAppend(s[..k], [x], f);
    SumOfSingleton(s[k], f);
    SumOfSingleton(x, f);
  }

  /** Two sequences whose terms agree position by position have the same sum. */
  lemma {:induction false} SumOfPointwise<T, U>(a: seq<T>, f: T -> int, b: seq<U>, g: U -> int)
    requires |a| == |b|
    requires forall i :: 0 <= i < |a| ==> f(a[i]) == g(b[i])
    ensures SumOf(a, f) == SumOf(b, g)
  {
    if a != [] {
      SumOfPointwise(a[..|a| - 1], f, b[..|b| - 1], g);
    }
  }

  /** When every term is at least one, the sum is at least the length. */
  lemma {:induction false} SumOfAtLeastLength<T>(s: seq<T>, f: T -> int)
    requires forall i :: 0 <= i < |s| ==> f(s[i]) >= 1
    ensures SumOf(s, f) >= |s|
  {
    if s != [] {
      SumOfAtLeastLength(s[..|s| - 1], f);
    }
  }

  /** No two elements share a key. */
  predicate UniqueKeys<T, K(==)>(s: seq<T>, key: T -> K)
  {
    forall i, j :: 0 <= i < |s| && 0 <= j < |s| && key(s[i]) == key(s[j]) ==> i == j
  }

  /** A property every element has is a property every kept element has. */
  lemma {:induction false} FilterKeepsProperty<T>(s: seq<T>, keep: T -> bool, good: T -> bool)
    requires forall j :: 0 <= j < |s| ==> good(s[j])
    ensures forall i :: 0 <= i < |Filter(s, keep)| ==> good(Filter(s, keep)[i])
  {
    if s != [] {
      FilterKeepsProperty(s[1..], keep, good);
      var head := if keep(s[0]) then [s[0]] else [];
      assert Filter(s, keep) == head + Filter(s[1..], keep);
    }
  }

  /** The tail of a sequence with unique keys has unique keys, none of them the head's. */
  lemma UniqueKeysTail<T, K>(s: seq<T>, key: T -> K)
    requires s != [] && UniqueKeys(s, key)
    ensures UniqueKeys(s[1..], key)
    ensures forall i :: 0 <= i < |s[1..]| ==> key(s[1..][i]) != key(s[0])
  {
    forall i, j | 0 <= i < |s[1..]| && 0 <= j < |s[1..]| && key(s[1..][i]) == key(s[1..][j])
      ensures i == j
    {
      assert key(s[i + 1]) == key(s[j + 1]);
    }
    forall i | 0 <= i < |s[1..]| ensures key(s[1..][i]) != key(s[0]) {
      assert s[1..][i] == s[i + 1];
    }
  }

  /** Putting an element with a fresh key in front of a sequence with unique keys keeps them unique. */
  lemma UniqueKeysCons<T, K>(x: T, t: seq<T>, key: T -> K)
    requires UniqueKeys(t, key)
    requires forall i :: 0 <= i < |t| ==> key(t[i]) != key(x)
    ensures UniqueKeys([x] + t, key)
  {
    var r := [x] + t;
    forall i, j | 0 <= i < |r| && 0 <= j < |r| && key(r[i]) == key(r[j]) ensures i == j {
      if i > 0 && j > 0 {
        assert r[i] == t[i - 1] && r[j] == t[j - 1];
      }
    }
  }

  /** Filtering a sequence with unique keys leaves unique keys. */
  lemma {:induction false} FilterUniqueKeys<T, K>(s: seq<T>, keep: T -> bool, key: T -> K)
    requires UniqueKeys(s, key)
    ensures UniqueKeys(Filter(s, keep), key)
  {
    if s != [] {
      UniqueKeysTail(s, key);
      FilterUniqueKeys(s[1..], keep, key);
      var rest := Filter(s[1..], keep);
      if keep(s[0]) {
        var newKey := (x: T) => key(x) != key(s[0]);
        FilterKeepsProperty(s[1..], keep, newKey);
        UniqueKeysCons(s[0], rest, key);
        assert Filter(s, keep) == [s[0]] + rest;
      } else {
        assert Filter(s, keep) == [] + rest;
      }
    }
  }
}
