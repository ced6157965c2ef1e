/** Small sequence vocabulary shared by the tagger, the analyzer and the report:
    occurrence counts, duplicate-freedom, insertion-ordered sets and sums. */
module Collections {

  /** A value that may be absent (JavaScript `undefined` / `null`). */
  datatype Option<+T> = None | Some(value: T)

  /** Number of occurrences of `x` in `s`. */
  function Count<T(==)>(s: seq<T>, x: T): (n: nat)
    ensures n <= |s|
    ensures n == 0 <==> x !in s
  {
    if |s| == 0 then 0
    else Count(s[..|s| - 1], x) + (if s[|s| - 1] == x then 1 else 0)
  }

  /** No element occurs twice. */
  predicate NoDuplicates<T(==)>(s: seq<T>) {
    forall i, j :: 0 <= i < j < |s| ==> s[i] != s[j]
  }

  /** `Set.prototype.add` on a JavaScript Set, whose iteration order is
      insertion order: the element joins at the end unless already present. */
  function AddNew<T(==, !new)>(s: seq<T>, x: T): (r: seq<T>)
    ensures NoDuplicates(s) ==> NoDuplicates(r)
    ensures forall y :: y in r <==> y in s || y == x
    ensures |s| <= |r| <= |s| + 1 && r[..|s|] == s
  {
    if x in s then s else s + [x]
  }

  /** The distinct elements of `s` in order of first appearance: what
      `Array.from(new Set(s))` returns. */
  function Dedup<T(==, !new)>(s: seq<T>): (r: seq<T>)
    ensures NoDuplicates(r)
    ensures forall y :: y in r <==> y in s
  {
    if |s| == 0 then [] else AddNew(Dedup(s[..|s| - 1]), s[|s| - 1])
  }

  /** Concatenation of a sequence of sequences. */
  function Flatten<T(!new)>(ss: seq<seq<T>>): (r: seq<T>)
    ensures forall x :: x in r <==> exists i :: 0 <= i < |ss| && x in ss[i]
  {
    if |ss| == 0 then []
    else
      var r := Flatten(ss[..|ss| - 1]) + ss[|ss| - 1];
      assert forall i :: 0 <= i < |ss| - 1 ==> ss[..|ss| - 1][i] == ss[i];
      r
  }

  /** A concatenation is empty exactly when every part is. */
  lemma {:induction false} FlattenEmpty<T(!new)>(ss: seq<seq<T>>)
    ensures |Flatten(ss)| == 0 <==> forall i :: 0 <= i < |ss| ==> ss[i] == []
    decreases |ss|
  {
    if |ss| > 0 {
      FlattenEmpty(ss[..|ss| - 1]);
      assert forall i :: 0 <= i < |ss| - 1 ==> ss[..|ss| - 1][i] == ss[i];
    }
  }

  /** Regrouping a sequence with one element in front and one behind. */
  lemma ConsSnoc<T>(x: T, s: seq<T>, y: T)
    ensures ([x] + s) + [y] == [x] + (s + [y])
  {
  }

  /** Sum of `f` over the elements of `s` (an `Array.prototype.reduce` with `+`). */
  function Sum<T>(s: seq<T>, f: T -> nat): nat
  {
    if |s| == 0 then 0 else Sum(s[..|s| - 1], f) + f(s[|s| - 1])
  }

  lemma {:induction false} CountConcat<T>(a: seq<T>, b: seq<T>, x: T)
    ensures Count(a + b, x) == Count(a, x) + Count(b, x)
    decreases |b|
  {
    if |b| > 0 {
      assert (a + b)[..|a + b| - 1] == a + b[..|b| - 1];
      CountConcat(a, b[..|b| - 1], x);
    } else {
      assert a + b == a;
    }
  }

  /** Occurrences in a flattened sequence are the occurrences in each part, added up. */
  lemma {:induction false} CountFlatten<T(!new)>(ss: seq<seq<T>>, x: T)
    ensures Count(Flatten(ss), x) == Sum(ss, (s: seq<T>) => Count(s, x))
    decreases |ss|
  {
    if |ss| > 0 {
      CountFlatten(ss[..|ss| - 1], x);
      CountConcat(Flatten(ss[..|ss| - 1]), ss[|ss| - 1], x);
    }
  }

  lemma {:induction false} SumConcat<T>(a: seq<T>, b: seq<T>, f: T -> nat)
    ensures Sum(a + b, f) == Sum(a, f) + Sum(b, f)
    decreases |b|
  {
    if |b| > 0 {
      assert (a + b)[..|a + b| - 1] == a + b[..|b| - 1];
      SumConcat(a, b[..|b| - 1], f);
    } else {
      assert a + b == a;
    }
  }

  /** Taking one summand out of the middle of a sum. */
  lemma SumRemoveAt<T>(b: seq<T>, k: nat, f: T -> nat)
    requires k < |b|
    ensures Sum(b, f) == Sum(b[..k] + b[k + 1..], f) + f(b[k])
  {
    var front, x, back := b[..k], b[k], b[k + 1..];
    assert [x] + back == b[k..];
    assert b == front + b[k..];
    SumConcat(front, [x] + back, f);
    SumConcat([x], back, f);
    SumConcat(front, back, f);
    assert Sum([x], f) == f(x) by { assert [x][..0] == []; }
  }

  lemma MultisetRemoveAt<T>(a: seq<T>, b: seq<T>, k: nat)
    requires |a| > 0 && k < |b| && b[k] == a[|a| - 1]
    requires multiset(a) == multiset(b)
    ensures multiset(a[..|a| - 1]) == multiset(b[..k] + b[k + 1..])
  {
    var x := b[k];
    var a', b' := a[..|a| - 1], b[..k] + b[k + 1..];
    calc {
      multiset(b);
      { assert b == b[..k] + [x] + b[k + 1..]; }
      multiset(b[..k]) + multiset{x} + multiset(b[k + 1..]);
      multiset(b') + multiset{x};
    }
    calc {
      multiset(a);
      { assert a == a' + [x]; }
      multiset(a') + multiset{x};
    }
    assert multiset(a') == multiset(b') by {
      forall y ensures multiset(a')[y] == multiset(b')[y] {
        assert multiset(a)[y] == multiset(b)[y];
      }
    }
  }

  /** A sum does not depend on the order of the summands. */
  lemma {:induction false} SumPermutation<T>(a: seq<T>, b: seq<T>, f: T -> nat)
    requires multiset(a) == multiset(b)
    ensures Sum(a, f) == Sum(b, f)
    decreases |a|
  {
    if |a| == 0 {
      assert |b| == |multiset(b)| == 0;
    } else {
      var x := a[|a| - 1];
      assert x in multiset(b);
      var k :| 0 <= k < |b| && b[k] == x;
      MultisetRemoveAt(a, b, k);
      SumPermutation(a[..|a| - 1], b[..k] + b[k + 1..], f);
      SumRemoveAt(b, k, f);
    }
  }
}
