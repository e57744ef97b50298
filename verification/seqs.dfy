/** Sequence helpers shared by the adapters and the routes: slicing and ordering. */
module Seqs {
  /** `s[:n]`. */
  function Take<T>(s: seq<T>, n: nat): (r: seq<T>)
    ensures |r| == if |s| <= n then |s| else n
    ensures r == s[..|r|]
  {
    if |s| <= n then s else s[..n]
  }

  /** Once `a` alone fills the first `n`, what follows it does not matter. */
  lemma TakeFull<T>(a: seq<T>, b: seq<T>, n: nat)
    requires |a| >= n
    ensures Take(a + b, n) == Take(a, n)
  {
    assert (a + b)[..n] == a[..n];
  }

  /** The order a descending sort on `key` produces. */
  ghost predicate SortedDesc<T>(s: seq<T>, key: T -> int)
  {
    forall i, j :: 0 <= i < j < |s| ==> key(s[i]) >= key(s[j])
  }

  /** Puts `x` after every element whose key is at least its own. */
  function Insert<T>(x: T, s: seq<T>, key: T -> int): seq<T>
  {
    if s == [] then [x]
    else if key(s[0]) >= key(x) then [s[0]] + Insert(x, s[1..], key)
    else [x] + s
  }

  /** `sorted(s, key=key, reverse=True)`: a stable sort, largest key first. */
  function SortDesc<T>(s: seq<T>, key: T -> int): seq<T>
  {
    if s == [] then [] else Insert(s[|s| - 1], SortDesc(s[..|s| - 1], key), key)
  }

  /** The elements of `s` whose key is `m`, in their order. */
  function WithKey<T>(s: seq<T>, key: T -> int, m: int): seq<T>
  {
    if s == [] then [] else (if key(s[0]) == m then [s[0]] else []) + WithKey(s[1..], key, m)
  }

  lemma {:induction false} WithKeyAppend<T>(a: seq<T>, b: seq<T>, key: T -> int, m: int)
    ensures WithKey(a + b, key, m) == WithKey(a, key, m) + WithKey(b, key, m)
  {
    if a == [] {
      assert a + b == b;
    } else {
      var head := if key(a[0]) == m then [a[0]] else [];
      var ra, rb := WithKey(a[1..], key, m), WithKey(b, key, m);
      assert WithKey(a + b, key, m) == head + WithKey(a[1..] + b, key, m) by {
        assert (a + b)[0] == a[0] && (a + b)[1..] == a[1..] + b;
      }
      assert WithKey(a[1..] + b, key, m) == ra + rb by {
        WithKeyAppend(a[1..], b, key, m);
      }
      assert head + (ra + rb) == (head + ra) + rb;
    }
  }

  lemma {:induction false} WithKeyNone<T>(s: seq<T>, key: T -> int, m: int)
    requires forall i :: 0 <= i < |s| ==> key(s[i]) < m
    ensures WithKey(s, key, m) == []
  {
    if s != [] {
      WithKeyNone(s[1..], key, m);
    }
  }

  lemma {:induction false} InsertMultiset<T>(x: T, s: seq<T>, key: T -> int)
    ensures multiset(Insert(x, s, key)) == multiset(s) + multiset{x}
  {
    if s != [] && key(s[0]) >= key(x) {
      InsertMultiset(x, s[1..], key);
      assert s == [s[0]] + s[1..];
    }
  }

  lemma {:induction false} InsertBounded<T>(x: T, s: seq<T>, key: T -> int, b: int)
    requires key(x) <= b && forall i :: 0 <= i < |s| ==> key(s[i]) <= b
    ensures forall i :: 0 <= i < |Insert(x, s, key)| ==> key(Insert(x, s, key)[i]) <= b
  {
    if s != [] && key(s[0]) >= key(x) {
      InsertBounded(x, s[1..], key, b);
    }
  }

  lemma {:induction false} InsertSorted<T>(x: T, s: seq<T>, key: T -> int)
    requires SortedDesc(s, key)
    ensures SortedDesc(Insert(x, s, key), key)
  {
    if s != [] && key(s[0]) >= key(x) {
      SortedTail(s, key);
      InsertSorted(x, s[1..], key);
      InsertBounded(x, s[1..], key, key(s[0]));
      var rest := Insert(x, s[1..], key);
      var r := [s[0]] + rest;
      forall i, j | 0 <= i < j < |r| ensures key(r[i]) >= key(r[j]) {
        assert r[j] == rest[j - 1];
        if i > 0 {
          assert r[i] == rest[i - 1];
        }
      }
    }
  }

  lemma SortedTail<T>(s: seq<T>, key: T -> int)
    requires s != [] && SortedDesc(s, key)
    ensures SortedDesc(s[1..], key)
    ensures forall i :: 0 <= i < |s| ==> key(s[i]) <= key(s[0])
  {
    forall i, j | 0 <= i < j < |s| - 1 ensures key(s[1..][i]) >= key(s[1..][j]) {
      assert s[1..][i] == s[i + 1] && s[1..][j] == s[j + 1];
    }
  }

  lemma {:induction false} InsertWithKey<T>(x: T, s: seq<T>, key: T -> int, m: int)
    requires SortedDesc(s, key)
    ensures WithKey(Insert(x, s, key), key, m) == WithKey(s, key, m) + (if key(x) == m then [x] else [])
  {
    if s == [] {
      assert [x][1..] == [];
    } else if key(s[0]) >= key(x) {
      SortedTail(s, key);
      InsertWithKey(x, s[1..], key, m);
      assert Insert(x, s, key) == [s[0]] + Insert(x, s[1..], key);
      assert s == [s[0]] + s[1..];
      WithKeyAppend([s[0]], Insert(x, s[1..], key), key, m);
      WithKeyAppend([s[0]], s[1..], key, m);
    } else {
      assert Insert(x, s, key) == [x] + s;
      WithKeyAppend([x], s, key, m);
      assert [x][1..] == [];
      if key(x) == m {
        SortedTail(s, key);
        WithKeyNone(s, key, m);
      }
    }
  }

  /** The sort is ordered, is a permutation of its input, and keeps ties in input order. */
  lemma {:induction false} SortDescCorrect<T>(s: seq<T>, key: T -> int)
    ensures SortedDesc(SortDesc(s, key), key)
    ensures multiset(SortDesc(s, key)) == multiset(s)
    ensures forall m :: WithKey(SortDesc(s, key), key, m) == WithKey(s, key, m)
  {
    if s != [] {
      var init, last := s[..|s| - 1], s[|s| - 1];
      SortDescCorrect(init, key);
      InsertSorted(last, SortDesc(init, key), key);
      InsertMultiset(last, SortDesc(init, key), key);
      assert s == init + [last];
      forall m ensures WithKey(SortDesc(s, key), key, m) == WithKey(s, key, m) {
        InsertWithKey(last, SortDesc(init, key), key, m);
        WithKeyAppend(init, [last], key, m);
        assert [last][1..] == [];
      }
    }
  }

  /**
   * The first `n` of a descending sort: at most `n` elements, ordered, each from
   * `s`, and none left out has a larger key than the last one kept.
   */
  lemma TopByKey<T>(s: seq<T>, key: T -> int, n: nat)
    ensures var top := Take(SortDesc(s, key), n);
      && |top| == (if |s| <= n then |s| else n)
      && SortedDesc(top, key)
      && (forall x :: x in top ==> x in s)
      && (|s| > n > 0 ==> forall x :: x in s && x !in top ==> key(x) <= key(top[n - 1]))
  {
    var sorted := SortDesc(s, key);
    SortDescCorrect(s, key);
    assert |sorted| == |multiset(sorted)| == |s|;
    var top := Take(sorted, n);
    forall x | x in top ensures x in s {
      assert x in multiset(sorted);
    }
    if |s| > n > 0 {
      forall x | x in s && x !in top ensures key(x) <= key(top[n - 1]) {
        assert x in multiset(sorted);
        var k :| 0 <= k < |sorted| && sorted[k] == x;
        assert k >= n;
      }
    }
  }

  /**
   * Whatever holds the same elements as the first `n` of a descending sort of
   * `s` keeps the largest keys: an element of `s` it lacks is no larger than
   * any it has.
   */
  lemma KeptAreLargest<T>(s: seq<T>, key: T -> int, n: nat, kept: seq<T>)
    requires multiset(kept) == multiset(Take(SortDesc(s, key), n))
    ensures forall x, y :: x in kept && y in s && y !in kept ==> key(y) <= key(x)
  {
    var top := Take(SortDesc(s, key), n);
    TopByKey(s, key, n);
    forall x, y | x in kept && y in s && y !in kept ensures key(y) <= key(x) {
      assert x in multiset(top);
      assert y !in multiset(top);
      var i :| 0 <= i < |top| && top[i] == x;
      SortDescCorrect(s, key);
      assert y in multiset(s);
      assert top != SortDesc(s, key);
      assert |s| > n > 0;
      assert key(top[i]) >= key(top[n - 1]);
    }
  }
}
