/** The two orderings the dashboard asks `Array.prototype.sort` for: by a numeric
    key, largest first (`sort((a, b) => key(b) - key(a))`), and the default sort,
    which compares the string forms of the elements. Both are stable, as
    ECMA-262 requires of `sort` since its 2019 edition; both are modelled as an
    insertion sort that inserts each element in front of the elements whose
    keys tie with it. */
module Sorting {
  import opened JsArrays

  // ---------------------------------------------------------------------------
  // Stability: elements with equal keys keep their relative order

  /** The elements whose key is `k`, in their order. */
  function WithKey<T, K(==)>(s: seq<T>, key: T -> K, k: K): seq<T>
  {
    if s == [] then [] else (if key(s[0]) == k then [s[0]] else []) + WithKey(s[1..], key, k)
  }

  /** Taking the elements with one key, a list is its head, then its tail. */
  lemma {:induction false} WithKeyCons<T, K>(x: T, t: seq<T>, key: T -> K)
    ensures forall k :: WithKey([x] + t, key, k) == (if key(x) == k then [x] else []) + WithKey(t, key, k)
  {
    assert ([x] + t)[0] == x && ([x] + t)[1..] == t;
  }

  /** Two neighbours with different keys can be swapped without changing any
      key's sequence of elements. */
  lemma {:induction false} WithKeySwap<T, K>(x: T, y: T, t: seq<T>, key: T -> K)
    requires key(x) != key(y)
    ensures forall k :: WithKey([x] + ([y] + t), key, k) == WithKey([y] + ([x] + t), key, k)
  {
    WithKeyCons(x, [y] + t, key);
    WithKeyCons(y, [x] + t, key);
    WithKeyCons(x, t, key);
    WithKeyCons(y, t, key);
  }

  // ---------------------------------------------------------------------------
  // By a numeric key, largest first

  predicate SortedDesc<T>(s: seq<T>, key: T -> int)
  {
    forall i, j :: 0 <= i < j < |s| ==> key(s[i]) >= key(s[j])
  }

  function InsertDesc<T>(x: T, s: seq<T>, key: T -> int): (r: seq<T>)
    requires SortedDesc(s, key)
    ensures SortedDesc(r, key)
    ensures multiset(r) == multiset(s) + multiset{x}
    ensures |r| == |s| + 1
  {
    if s == [] || key(x) >= key(s[0]) then
      ConsSortedDesc(x, s, key);
      [x] + s
    else
      var tail := InsertDesc(x, s[1..], key);
      assert s == [s[0]] + s[1..];
      forall k | 0 <= k < |tail| ensures key(s[0]) >= key(tail[k]) {
        var e := tail[k];
        assert e in multiset(tail);
        if e != x {
          assert e in multiset(s[1..]);
          var m :| 0 <= m < |s[1..]| && s[1..][m] == e;
          assert s[m + 1] == e;
        }
      }
      ConsSortedDesc(s[0], tail, key);
      [s[0]] + tail
  }

  /** An element no smaller than the head of a sorted list can go in front of it. */
  lemma {:induction false} ConsSortedDesc<T>(y: T, t: seq<T>, key: T -> int)
    requires SortedDesc(t, key)
    requires t == [] || key(y) >= key(t[0])
    ensures SortedDesc([y] + t, key)
  {
    var r := [y] + t;
    forall i, j | 0 <= i < j < |r| ensures key(r[i]) >= key(r[j]) {
      if i == 0 {
        assert r[j] == t[j - 1];
        if j > 1 {
          assert t[0] == r[1];
        }
      } else {
        assert r[i] == t[i - 1] && r[j] == t[j - 1];
      }
    }
  }

  /** Inserting goes in front of the elements with the same key, so each key's
      elements stay in the order of `[x] + s`. */
  lemma {:induction false} InsertDescStable<T>(x: T, s: seq<T>, key: T -> int)
    requires SortedDesc(s, key)
    ensures forall k :: WithKey(InsertDesc(x, s, key), key, k) == WithKey([x] + s, key, k)
  {
    if s != [] && key(x) < key(s[0]) {
      var tail := InsertDesc(x, s[1..], key);
      assert SortedDesc(s[1..], key);
      InsertDescStable(x, s[1..], key);
      assert s == [s[0]] + s[1..];
      WithKeyCons(s[0], tail, key);
      WithKeyCons(s[0], [x] + s[1..], key);
      WithKeySwap(s[0], x, s[1..], key);
    }
  }

  /** The input, reordered so that keys never increase; elements with equal keys
      keep their input order. */
  function SortDesc<T>(s: seq<T>, key: T -> int): (r: seq<T>)
    ensures SortedDesc(r, key)
    ensures multiset(r) == multiset(s)
    ensures |r| == |s|
    ensures forall k :: WithKey(r, key, k) == WithKey(s, key, k)
  {
    if s == [] then []
    else
      assert s == [s[0]] + s[1..];
      var rest := SortDesc(s[1..], key);
      InsertDescStable(s[0], rest, key);
      WithKeyCons(s[0], rest, key);
      WithKeyCons(s[0], s[1..], key);
      InsertDesc(s[0], rest, key)
  }

  // ---------------------------------------------------------------------------
  // By a string key, in code-unit order

  /** Lexicographic order on strings: a prefix comes first. */
  predicate StrLe(a: string, b: string)
  {
    a == [] || (b != [] && (a[0] < b[0] || (a[0] == b[0] && StrLe(a[1..], b[1..]))))
  }

  lemma {:induction false} StrLeTotal(a: string, b: string)
    ensures StrLe(a, b) || StrLe(b, a)
  {
    if a != [] && b != [] && a[0] == b[0] {
      StrLeTotal(a[1..], b[1..]);
    }
  }

  lemma {:induction false} StrLeTransitive(a: string, b: string, c: string)
    requires StrLe(a, b) && StrLe(b, c)
    ensures StrLe(a, c)
  {
    if a != [] && b != [] && c != [] && a[0] == b[0] && b[0] == c[0] {
      StrLeTransitive(a[1..], b[1..], c[1..]);
    }
  }

  predicate SortedByString<T>(s: seq<T>, key: T -> string)
  {
    forall i, j :: 0 <= i < j < |s| ==> StrLe(key(s[i]), key(s[j]))
  }

  function InsertByString<T>(x: T, s: seq<T>, key: T -> string): (r: seq<T>)
    requires SortedByString(s, key)
    ensures SortedByString(r, key)
    ensures multiset(r) == multiset(s) + multiset{x}
    ensures |r| == |s| + 1
  {
    if s == [] || StrLe(key(x), key(s[0])) then
      forall j | 0 <= j < |s| ensures StrLe(key(x), key(s[j])) {
        if j > 0 { StrLeTransitive(key(x), key(s[0]), key(s[j])); }
      }
      [x] + s
    else
      StrLeTotal(key(x), key(s[0]));
      var tail := InsertByString(x, s[1..], key);
      assert s == [s[0]] + s[1..];
      forall k | 0 <= k < |tail| ensures StrLe(key(s[0]), key(tail[k])) {
        var e := tail[k];
        assert e in multiset(tail);
        if e != x {
          assert e in multiset(s[1..]);
          var m :| 0 <= m < |s[1..]| && s[1..][m] == e;
          assert s[m + 1] == e;
        }
      }
      [s[0]] + tail
  }

  /** Inserting goes in front of the elements with the same key, so each key's
      elements stay in the order of `[x] + s`. */
  lemma {:induction false} InsertByStringStable<T>(x: T, s: seq<T>, key: T -> string)
    requires SortedByString(s, key)
    ensures forall k :: WithKey(InsertByString(x, s, key), key, k) == WithKey([x] + s, key, k)
  {
    if s != [] && !StrLe(key(x), key(s[0])) {
      StrLeReflexive(key(s[0]));
      var tail := InsertByString(x, s[1..], key);
      assert SortedByString(s[1..], key);
      InsertByStringStable(x, s[1..], key);
      assert s == [s[0]] + s[1..];
      WithKeyCons(s[0], tail, key);
      WithKeyCons(s[0], [x] + s[1..], key);
      WithKeySwap(s[0], x, s[1..], key);
    }
  }

  /** The input, reordered so that the string keys never decrease; elements with
      equal keys keep their input order. */
  function SortByString<T>(s: seq<T>, key: T -> string): (r: seq<T>)
    ensures SortedByString(r, key)
    ensures multiset(r) == multiset(s)
    ensures |r| == |s|
    ensures forall k :: WithKey(r, key, k) == WithKey(s, key, k)
  {
    if s == [] then []
    else
      assert s == [s[0]] + s[1..];
      var rest := SortByString(s[1..], key);
      InsertByStringStable(s[0], rest, key);
      WithKeyCons(s[0], rest, key);
      WithKeyCons(s[0], s[1..], key);
      InsertByString(s[0], rest, key)
  }

  // ---------------------------------------------------------------------------
  // The default sort of a set of strings: `Array.from(set).sort()`

  /** Increasing and free of repetitions. */
  predicate StrictlySorted(s: seq<string>)
  {
    forall i, j :: 0 <= i < j < |s| ==> StrLe(s[i], s[j]) && s[i] != s[j]
  }

  /** `x` is in `s` and comes no later than any element of `s`. */
  predicate IsLeast(x: string, s: set<string>)
  {
    x in s && forall y :: y in s ==> StrLe(x, y)
  }

  /** A non-empty set of strings has a least element. */
  lemma {:induction false} HasLeast(s: set<string>)
    requires s != {}
    ensures exists x :: IsLeast(x, s)
    decreases |s|
  {
    var a :| a in s;
    if s == {a} {
      StrLeReflexive(a);
      assert IsLeast(a, s);
    } else {
      var rest := s - {a};
      HasLeast(rest);
      var m :| IsLeast(m, rest);
      StrLeTotal(a, m);
      var least := if StrLe(a, m) then a else m;
      forall y | y in s ensures StrLe(least, y) {
        if y == least {
          StrLeReflexive(y);
        } else if least == a {
          StrLeTransitive(a, m, y);
        }
      }
      assert IsLeast(least, s);
    }
  }

  lemma {:induction false} StrLeReflexive(a: string)
    ensures StrLe(a, a)
  {
    if a != [] {
      StrLeReflexive(a[1..]);
    }
  }

  /** The elements of a set in increasing order. */
  method SortedList(s: set<string>) returns (r: seq<string>)
    ensures StrictlySorted(r)
    ensures forall x :: x in r <==> x in s
    ensures |r| == |s|
  {
    var remaining := s;
    r := [];
    while remaining != {}
      invariant remaining <= s
      invariant forall x :: x in r <==> x in s && x !in remaining
      invariant |r| + |remaining| == |s|
      invariant StrictlySorted(r)
      invariant forall a, b :: a in r && b in remaining ==> StrLe(a, b) && a != b
      decreases |remaining|
    {
      HasLeast(remaining);
      var x :| IsLeast(x, remaining);
      r := r + [x];
      remaining := remaining - {x};
    }
  }

  /** Keeping the elements that pass `p` and then taking one key's elements is
      the same as taking that key's elements and then keeping those that pass. */
  lemma {:induction false} WithKeyOfFilter<T(!new), K>(s: seq<T>, p: T -> bool, key: T -> K)
    ensures forall k :: WithKey(Filter(s, p), key, k) == Filter(WithKey(s, key, k), p)
  {
    forall k ensures WithKey(Filter(s, p), key, k) == Filter(WithKey(s, key, k), p) {
      WithKeyOfFilterAt(s, p, key, k);
    }
  }

  lemma {:induction false} WithKeyOfFilterAt<T(!new), K>(s: seq<T>, p: T -> bool, key: T -> K, k: K)
    ensures WithKey(Filter(s, p), key, k) == Filter(WithKey(s, key, k), p)
  {
    if s != [] {
      var init, last := s[..|s| - 1], s[|s| - 1];
      assert s == init + [last];
      WithKeyOfFilterAt(init, p, key, k);
      var fi, wi := Filter(init, p), WithKey(init, key, k);
      WithKeySnoc(init, last, key, k);
      if p(last) {
        WithKeySnoc(fi, last, key, k);
        assert (fi + [last])[..|fi + [last]| - 1] == fi;
      }
      if key(last) == k {
        assert (wi + [last])[..|wi + [last]| - 1] == wi;
      } else {
        assert wi + [] == wi;
      }
    }
  }

  /** Taking the elements with one key, a list is its front, then its last element. */
  lemma {:induction false} WithKeySnoc<T, K>(a: seq<T>, y: T, key: T -> K, k: K)
    ensures WithKey(a + [y], key, k) == WithKey(a, key, k) + (if key(y) == k then [y] else [])
  {
    if a != [] {
      assert (a + [y])[0] == a[0] && (a + [y])[1..] == a[1..] + [y];
      WithKeySnoc(a[1..], y, key, k);
    } else {
      assert a + [y] == [y];
      assert [y][1..] == [];
    }
  }
}
