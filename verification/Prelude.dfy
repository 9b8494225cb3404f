/** Small shared vocabulary: optional values, reals, and sums over sequences. */
module Prelude {

  datatype Option<+T> = None | Some(value: T)

  /** JavaScript's `a ?? b` on optional values. */
  function OrElse<T>(a: Option<T>, b: Option<T>): Option<T> {
    if a.Some? then a else b
  }

  /** JavaScript truthiness of an optional number: present and not zero. */
  predicate Truthy(x: Option<real>) {
    x.Some? && x.value != 0.0
  }

  function Abs(x: real): real {
    if x < 0.0 then -x else x
  }

  function Max(x: real, y: real): real {
    if x < y then y else x
  }

  function Min(x: real, y: real): real {
    if x < y then x else y
  }

  /** Math.sign on reals. */
  function Sign(x: real): int {
    if x > 0.0 then 1 else if x < 0.0 then -1 else 0
  }

  /** The sum of f over s, accumulated left to right as the engine's loops do. */
  function SumOf<T>(f: T -> real, s: seq<T>): real {
    if s == [] then 0.0 else SumOf(f, s[..|s| - 1]) + f(s[|s| - 1])
  }

  lemma SumAppend<T>(f: T -> real, s: seq<T>, x: T)
    ensures SumOf(f, s + [x]) == SumOf(f, s) + f(x)
  {
    assert (s + [x])[..|s|] == s;
  }

  lemma {:induction false} SumConcat<T>(f: T -> real, a: seq<T>, b: seq<T>)
    ensures SumOf(f, a + b) == SumOf(f, a) + SumOf(f, b)
  {
    if b == [] {
      assert a + b == a;
    } else {
      var n := |b| - 1;
      SumConcat(f, a, b[..n]);
      assert a + b == (a + b[..n]) + [b[n]];
      SumAppend(f, a + b[..n], b[n]);
    }
  }

  /** Overwriting one element moves the sum by the change of that element alone. */
  lemma {:induction false} SumUpdate<T>(f: T -> real, s: seq<T>, i: nat, x: T)
    requires i < |s|
    ensures SumOf(f, s[i := x]) == SumOf(f, s) - f(s[i]) + f(x)
  {
    var n := |s| - 1;
    if i == n {
      assert s[i := x] == s[..n] + [x];
      SumAppend(f, s[..n], x);
    } else {
      SumUpdate(f, s[..n], i, x);
      assert s[i := x] == s[..n][i := x] + [s[n]];
      SumAppend(f, s[..n][i := x], s[n]);
    }
  }

  lemma {:induction false} SumRemove<T>(f: T -> real, s: seq<T>, i: nat)
    requires i < |s|
    ensures SumOf(f, s[..i] + s[i + 1..]) == SumOf(f, s) - f(s[i])
  {
    assert s == s[..i] + ([s[i]] + s[i + 1..]);
    SumConcat(f, s[..i], [s[i]] + s[i + 1..]);
    SumConcat(f, [s[i]], s[i + 1..]);
    SumConcat(f, s[..i], s[i + 1..]);
    SumAppend(f, [], s[i]);
    assert [] + [s[i]] == [s[i]];
  }

  lemma MultisetLast<T>(s: seq<T>)
    requires s != []
    ensures multiset(s) == multiset(s[..|s| - 1]) + multiset{s[|s| - 1]}
  {
    assert s == s[..|s| - 1] + [s[|s| - 1]];
  }

  lemma MultisetRemove<T>(s: seq<T>, i: nat)
    requires i < |s|
    ensures multiset(s[..i] + s[i + 1..]) == multiset(s) - multiset{s[i]}
  {
    assert s == s[..i] + [s[i]] + s[i + 1..];
  }

  /** A sum does not depend on the order of its terms. */
  lemma {:induction false} SumPermutation<T>(f: T -> real, a: seq<T>, b: seq<T>)
    requires multiset(a) == multiset(b)
    ensures SumOf(f, a) == SumOf(f, b)
    decreases |a|
  {
    if a == [] {
      assert |multiset(b)| == 0;
    } else {
      var n := |a| - 1;
      assert a[n] in multiset(b);
      var i :| 0 <= i < |b| && b[i] == a[n];
      MultisetRemove(a, n);
      MultisetRemove(b, i);
      assert a[..n] + a[n + 1..] == a[..n];
      SumPermutation(f, a[..n], b[..i] + b[i + 1..]);
      SumRemove(f, b, i);
    }
  }

  lemma {:induction false} SumSplit<T>(f: T -> real, g: T -> real, h: T -> real, s: seq<T>)
    requires forall x :: x in s ==> h(x) == f(x) + g(x)
    ensures SumOf(h, s) == SumOf(f, s) + SumOf(g, s)
  {
    if s != [] {
      SumSplit(f, g, h, s[..|s| - 1]);
    }
  }

  /** Termwise bounds add up. */
  lemma {:induction false} SumWithin<T>(f: T -> real, g: T -> real, bound: T -> real, s: seq<T>)
    requires forall x :: x in s ==> Abs(f(x) - g(x)) <= bound(x)
    ensures Abs(SumOf(f, s) - SumOf(g, s)) <= SumOf(bound, s)
  {
    if s != [] {
      SumWithin(f, g, bound, s[..|s| - 1]);
    }
  }
}
