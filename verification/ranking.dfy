/** The two orderings the report uses: `Array.prototype.sort` with a
    descending numeric comparator (stable, as the language guarantees), and
    the default `sort()` on strings. Both are modelled as insertion sorts
    and related to order-free characterisations. */
module Ranking {
  import opened Collections

  // ---------------------------------------------------------------------------
  // Stable descending sort by an integer key

  /** The elements of `s` whose key is `k`, in their order in `s`. */
  function WithKey<T>(s: seq<T>, key: T -> int, k: int): (r: seq<T>)
    ensures |r| <= |s|
    decreases |s|
  {
    if |s| == 0 then []
    else WithKey(s[..|s| - 1], key, k) + (if key(s[|s| - 1]) == k then [s[|s| - 1]] else [])
  }

  lemma {:induction false} WithKeyMembers<T>(s: seq<T>, key: T -> int, k: int, x: T)
    ensures x in WithKey(s, key, k) <==> x in s && key(x) == k
    decreases |s|
  {
    if |s| > 0 {
      assert x in s <==> x in s[..|s| - 1] || x == s[|s| - 1];
      WithKeyMembers(s[..|s| - 1], key, k, x);
    }
  }

  lemma {:induction false} WithKeyConcat<T>(a: seq<T>, b: seq<T>, key: T -> int, k: int)
    ensures WithKey(a + b, key, k) == WithKey(a, key, k) + WithKey(b, key, k)
    decreases |b|
  {
    if |b| == 0 {
      assert a + b == a;
    } else {
      assert (a + b)[..|a + b| - 1] == a + b[..|b| - 1];
      WithKeyConcat(a, b[..|b| - 1], key, k);
    }
  }

  /** Keys never increase along `s`. */
  ghost predicate SortedDesc<T>(s: seq<T>, key: T -> int) {
    forall i, j :: 0 <= i < j < |s| ==> key(s[i]) >= key(s[j])
  }

  /** Elements with equal keys occur in the same relative order in `a` and
      `b`: what a stable sort keeps. */
  ghost predicate SameKeyOrder<T>(a: seq<T>, b: seq<T>, key: T -> int) {
    forall k :: WithKey(a, key, k) == WithKey(b, key, k)
  }

  /** Inserts `x` behind every element whose key is at least `key(x)`. */
  function Insert<T>(s: seq<T>, x: T, key: T -> int): (r: seq<T>)
    ensures |r| == |s| + 1
    ensures multiset(r) == multiset(s) + multiset{x}
    decreases |s|
  {
    if |s| == 0 || key(s[|s| - 1]) >= key(x) then s + [x]
    else
      var init, last := s[..|s| - 1], s[|s| - 1];
      assert s == init + [last];
      Insert(init, x, key) + [last]
  }

  /** Inserting into a descending sequence keeps it descending. */
  lemma {:induction false} InsertSorted<T>(s: seq<T>, x: T, key: T -> int)
    requires SortedDesc(s, key)
    ensures SortedDesc(Insert(s, x, key), key)
    decreases |s|
  {
    if |s| > 0 && key(s[|s| - 1]) < key(x) {
      var init, last := s[..|s| - 1], s[|s| - 1];
      assert s == init + [last];
      InsertSorted(init, x, key);
      var r := Insert(s, x, key);
      assert r == Insert(init, x, key) + [last];
      forall i | 0 <= i < |r| - 1 ensures key(r[i]) >= key(last) {
        assert r[i] in multiset(init) + multiset{x};
      }
    }
  }

  /** The key class of `k` in `s + [x]`. */
  lemma WithKeySnoc<T>(s: seq<T>, x: T, key: T -> int, k: int)
    ensures WithKey(s + [x], key, k) == WithKey(s, key, k) + (if key(x) == k then [x] else [])
  {
    assert (s + [x])[..|s|] == s;
  }

  lemma {:induction false} InsertKeyOrder<T>(s: seq<T>, x: T, key: T -> int, k: int)
    ensures WithKey(Insert(s, x, key), key, k) == WithKey(s, key, k) + (if key(x) == k then [x] else [])
    decreases |s|
  {
    if |s| == 0 || key(s[|s| - 1]) >= key(x) {
      WithKeySnoc(s, x, key, k);
    } else {
      var init, last := s[..|s| - 1], s[|s| - 1];
      InsertKeyOrder(init, x, key, k);
      WithKeySnoc(Insert(init, x, key), last, key, k);
      WithKeySnoc(init, last, key, k);
      assert s == init + [last];
    }
  }

  /** `s.sort((a, b) => key(b) - key(a))`: descending keys, equal keys in
      input order. */
  function SortDesc<T>(s: seq<T>, key: T -> int): (r: seq<T>)
    ensures |r| == |s| && multiset(r) == multiset(s)
    ensures SortedDesc(r, key)
    decreases |s|
  {
    if |s| == 0 then []
    else
      assert s == s[..|s| - 1] + [s[|s| - 1]];
      InsertSorted(SortDesc(s[..|s| - 1], key), s[|s| - 1], key);
      Insert(SortDesc(s[..|s| - 1], key), s[|s| - 1], key)
  }

  /** The sort is stable. */
  lemma {:induction false} SortDescKeepsKeyOrder<T>(s: seq<T>, key: T -> int)
    ensures SameKeyOrder(SortDesc(s, key), s, key)
    decreases |s|
  {
    if |s| > 0 {
      var init := s[..|s| - 1];
      SortDescKeepsKeyOrder(init, key);
      forall k ensures WithKey(SortDesc(s, key), key, k) == WithKey(s, key, k) {
        InsertKeyOrder(SortDesc(init, key), s[|s| - 1], key, k);
      }
    }
  }

  /** When `b` is sorted and agrees with `a` on every key class, the last
      key of `a` is at least the last (least) key of `b`. */
  lemma LastKeyBound<T>(a: seq<T>, b: seq<T>, key: T -> int)
    requires |a| > 0 && |b| > 0 && SortedDesc(b, key) && SameKeyOrder(a, b, key)
    ensures key(a[|a| - 1]) >= key(b[|b| - 1])
  {
    var x := a[|a| - 1];
    WithKeyMembers(a, key, key(x), x);
    WithKeyMembers(b, key, key(x), x);
    assert WithKey(a, key, key(x)) == WithKey(b, key, key(x));
    var i :| 0 <= i < |b| && b[i] == x;
    assert i == |b| - 1 || key(b[i]) >= key(b[|b| - 1]);
  }

  /** Sequences that agree on every key class are empty together. */
  lemma EmptyAgreement<T>(a: seq<T>, b: seq<T>, key: T -> int)
    requires SameKeyOrder(a, b, key)
    ensures |a| == 0 ==> |b| == 0
  {
    if |b| > 0 {
      var y := b[|b| - 1];
      WithKeyMembers(b, key, key(y), y);
      WithKeyMembers(a, key, key(y), y);
      assert WithKey(a, key, key(y)) == WithKey(b, key, key(y));
    }
  }

  /** Two descending sequences that agree on the order of every key class
      are equal: sortedness and stability determine the result. */
  /** Two arrangements with the same key classes whose last elements share a
      key end in the same element, and agree on key classes without it. */
  lemma DropLastKeyOrder<T>(a: seq<T>, b: seq<T>, key: T -> int)
    requires |a| > 0 && |b| > 0 && SameKeyOrder(a, b, key)
    requires key(a[|a| - 1]) == key(b[|b| - 1])
    ensures a[|a| - 1] == b[|b| - 1]
    ensures SameKeyOrder(a[..|a| - 1], b[..|b| - 1], key)
  {
    var a', x := a[..|a| - 1], a[|a| - 1];
    var b', y := b[..|b| - 1], b[|b| - 1];
    assert a == a' + [x] && b == b' + [y];
    forall k ensures WithKey(a', key, k) == WithKey(b', key, k) {
      WithKeySnoc(a', x, key, k);
      WithKeySnoc(b', y, key, k);
      var wa, wb := WithKey(a, key, k), WithKey(b, key, k);
      assert wa == wb;
      if key(x) == k {
        assert wa == WithKey(a', key, k) + [x] && wb == WithKey(b', key, k) + [y];
        assert WithKey(a', key, k) == wa[..|wa| - 1];
        assert WithKey(b', key, k) == wb[..|wb| - 1];
      } else {
        assert wa == WithKey(a', key, k) && wb == WithKey(b', key, k);
      }
    }
    WithKeySnoc(a', x, key, key(x));
    WithKeySnoc(b', y, key, key(x));
    var w := WithKey(a, key, key(x));
    assert w == WithKey(b, key, key(x));
    assert w[|w| - 1] == x && w[|w| - 1] == y;
  }

  lemma {:induction false} SortedDescUnique<T>(a: seq<T>, b: seq<T>, key: T -> int)
    requires SortedDesc(a, key) && SortedDesc(b, key) && SameKeyOrder(a, b, key)
    ensures a == b
    decreases |a| + |b|
  {
    EmptyAgreement(a, b, key);
    EmptyAgreement(b, a, key);
    if |a| > 0 && |b| > 0 {
      LastKeyBound(a, b, key);
      LastKeyBound(b, a, key);
      DropLastKeyOrder(a, b, key);
      SortedDescUnique(a[..|a| - 1], b[..|b| - 1], key);
      assert a == a[..|a| - 1] + [a[|a| - 1]] && b == b[..|b| - 1] + [b[|b| - 1]];
    }
  }

  /** `SortDesc` is the only sorted, stable arrangement of `s`. */
  lemma SortDescCharacterised<T>(s: seq<T>, key: T -> int, r: seq<T>)
    ensures (SortedDesc(r, key) && SameKeyOrder(r, s, key)) <==> r == SortDesc(s, key)
  {
    SortDescKeepsKeyOrder(s, key);
    if SortedDesc(r, key) && SameKeyOrder(r, s, key) {
      SortedDescUnique(r, SortDesc(s, key), key);
    }
  }

  // ---------------------------------------------------------------------------
  // The default string order

  /** `a` sorts strictly before `b` under the default comparison of
      `Array.prototype.sort`: character by character, a proper prefix first. */
  predicate Below(a: string, b: string)
    decreases |a|
  {
    if |a| == 0 then |b| > 0
    else if |b| == 0 then false
    else if a[0] != b[0] then a[0] < b[0]
    else Below(a[1..], b[1..])
  }

  lemma {:induction false} BelowIrreflexive(a: string)
    ensures !Below(a, a)
    decreases |a|
  {
    if |a| > 0 {
      BelowIrreflexive(a[1..]);
    }
  }

  lemma {:induction false} BelowTransitive(a: string, b: string, c: string)
    ensures Below(a, b) && Below(b, c) ==> Below(a, c)
    decreases |a|
  {
    if |a| > 0 && |b| > 0 && |c| > 0 && a[0] == b[0] == c[0] {
      BelowTransitive(a[1..], b[1..], c[1..]);
    }
  }

  /** Any two different strings are ordered one way or the other, and never
      both ways. */
  lemma {:induction false} BelowTotal(a: string, b: string)
    ensures a != b <==> Below(a, b) || Below(b, a)
    ensures !(Below(a, b) && Below(b, a))
    decreases |a|
  {
    if |a| > 0 && |b| > 0 && a[0] == b[0] {
      BelowTotal(a[1..], b[1..]);
      assert a == [a[0]] + a[1..] && b == [b[0]] + b[1..];
    } else if |a| == 0 && |b| == 0 {
    }
  }

  /** No later element sorts before an earlier one. */
  ghost predicate Ascending(s: seq<string>) {
    forall i, j :: 0 <= i < j < |s| ==> !Below(s[j], s[i])
  }

  /** Each element sorts strictly before every later one. */
  ghost predicate StrictlyAscending(s: seq<string>) {
    forall i, j :: 0 <= i < j < |s| ==> Below(s[i], s[j])
  }

  /** Inserts `x` behind every element that does not sort after it. */
  function InsertString(s: seq<string>, x: string): (r: seq<string>)
    ensures |r| == |s| + 1
    ensures multiset(r) == multiset(s) + multiset{x}
    decreases |s|
  {
    if |s| == 0 || !Below(x, s[|s| - 1]) then s + [x]
    else
      var init, last := s[..|s| - 1], s[|s| - 1];
      assert s == init + [last];
      InsertString(init, x) + [last]
  }

  /** Inserting into an ascending sequence keeps it ascending. */
  lemma {:induction false} InsertStringAscending(s: seq<string>, x: string)
    requires Ascending(s)
    ensures Ascending(InsertString(s, x))
    decreases |s|
  {
    var r := InsertString(s, x);
    if |s| == 0 || !Below(x, s[|s| - 1]) {
      assert r == s + [x];
      if |s| > 0 {
        forall i | 0 <= i < |s| ensures !Below(x, s[i]) {
          BelowTotal(s[i], s[|s| - 1]);
          BelowTransitive(x, s[i], s[|s| - 1]);
        }
      }
    } else {
      var init, last := s[..|s| - 1], s[|s| - 1];
      assert s == init + [last];
      InsertStringAscending(init, x);
      assert r == InsertString(init, x) + [last];
      forall i | 0 <= i < |r| - 1 ensures !Below(last, r[i]) {
        assert r[i] in multiset(init) + multiset{x};
        BelowTotal(x, last);
      }
    }
  }

  /** `Array.prototype.sort()` with no comparator, on strings. */
  function SortStrings(s: seq<string>): (r: seq<string>)
    ensures |r| == |s| && multiset(r) == multiset(s)
    ensures Ascending(r)
    decreases |s|
  {
    if |s| == 0 then []
    else
      assert s == s[..|s| - 1] + [s[|s| - 1]];
      InsertStringAscending(SortStrings(s[..|s| - 1]), s[|s| - 1]);
      InsertString(SortStrings(s[..|s| - 1]), s[|s| - 1])
  }

  /** Sorting a duplicate-free list gives a strictly ascending one. */
  lemma SortStringsStrict(s: seq<string>)
    requires NoDuplicates(s)
    ensures StrictlyAscending(SortStrings(s))
    ensures NoDuplicates(SortStrings(s))
  {
    var r := SortStrings(s);
    DistinctKept(s, r);
    forall i, j | 0 <= i < j < |r| ensures Below(r[i], r[j]) {
      BelowTotal(r[i], r[j]);
    }
  }

  /** The first element of a strictly ascending list sorts before every
      other element. */
  lemma FirstIsLeast(s: seq<string>, t: string)
    requires StrictlyAscending(s) && |s| > 0
    ensures t in s ==> t == s[0] || Below(s[0], t)
  {
    if t in s {
      var k :| 0 <= k < |s| && s[k] == t;
    }
  }

  /** A strictly ascending list is fixed by its elements: it is the only
      sorted arrangement of a set of tags. */
  lemma {:induction false} StrictlyAscendingUnique(a: seq<string>, b: seq<string>)
    requires StrictlyAscending(a) && StrictlyAscending(b)
    requires forall t :: t in a <==> t in b
    ensures a == b
    decreases |a|
  {
    if |a| > 0 && |b| > 0 {
      FirstIsLeast(a, b[0]);
      FirstIsLeast(b, a[0]);
      BelowTotal(a[0], b[0]);
      forall t ensures t in a[1..] <==> t in b[1..] {
        FirstIsLeast(a, t);
        FirstIsLeast(b, t);
        BelowIrreflexive(t);
        assert t in a[1..] <==> t in a && t != a[0] by {
          if t in a[1..] {
            var k :| 0 <= k < |a| - 1 && a[1..][k] == t;
            assert Below(a[0], a[k + 1]);
          }
          assert a == [a[0]] + a[1..];
        }
        assert t in b[1..] <==> t in b && t != b[0] by {
          if t in b[1..] {
            var k :| 0 <= k < |b| - 1 && b[1..][k] == t;
            assert Below(b[0], b[k + 1]);
          }
          assert b == [b[0]] + b[1..];
        }
      }
      StrictlyAscendingUnique(a[1..], b[1..]);
      assert a == [a[0]] + a[1..] && b == [b[0]] + b[1..];
    } else {
      SameMembersEmpty(a, b);
      SameMembersEmpty(b, a);
    }
  }

  /** Lists with the same elements are empty together. */
  lemma SameMembersEmpty<T>(a: seq<T>, b: seq<T>)
    requires forall t :: t in a <==> t in b
    ensures |a| == 0 ==> |b| == 0
  {
    if |b| > 0 {
      assert b[0] in a;
    }
  }

  /** A rearrangement of a duplicate-free list is duplicate-free. */
  lemma DistinctKept<T>(s: seq<T>, r: seq<T>)
    requires NoDuplicates(s) && multiset(r) == multiset(s)
    ensures NoDuplicates(r)
  {
    forall i, j | 0 <= i < j < |r| ensures r[i] != r[j] {
      MultiplicityBound(s, r[i]);
      RepeatedValue(r, i, j);
    }
  }

  /** A value found at two positions occurs at least twice. */
  lemma RepeatedValue<T>(r: seq<T>, i: nat, j: nat)
    requires i < j < |r|
    ensures r[i] == r[j] ==> multiset(r)[r[i]] >= 2
  {
    assert r == r[..i] + [r[i]] + r[i + 1..j] + [r[j]] + r[j + 1..];
  }

  /** In a duplicate-free list every value occurs at most once. */
  lemma {:induction false} MultiplicityBound<T>(s: seq<T>, x: T)
    requires NoDuplicates(s)
    ensures multiset(s)[x] <= 1
    decreases |s|
  {
    if |s| > 0 {
      var init := s[..|s| - 1];
      assert s == init + [s[|s| - 1]];
      MultiplicityBound(init, x);
      if x == s[|s| - 1] {
        assert x !in init;
      }
    }
  }
}
