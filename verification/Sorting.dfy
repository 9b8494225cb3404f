/** Array.prototype.sort: a stable sort by any total preorder. */
module Sorting {
  import opened Prelude

  /** Where a stable sort puts x: after every element that may stand before it. */
  function InsertBy<T>(le: (T, T) -> bool, s: seq<T>, x: T): seq<T> {
    if s == [] || le(s[|s| - 1], x) then s + [x]
    else InsertBy(le, s[..|s| - 1], x) + [s[|s| - 1]]
  }

  function SortBy<T>(le: (T, T) -> bool, s: seq<T>): seq<T> {
    if s == [] then [] else InsertBy(le, SortBy(le, s[..|s| - 1]), s[|s| - 1])
  }

  lemma SortOfTwo<T>(le: (T, T) -> bool, a: T, b: T)
    ensures SortBy(le, [a, b]) == if le(a, b) then [a, b] else [b, a]
  {
    assert [a, b][..1] == [a] && [a][..0] == [];
    assert SortBy(le, [a]) == [a];
    assert InsertBy(le, [], b) == [b];
  }

  ghost predicate TotalPreorder<T(!new)>(le: (T, T) -> bool) {
    && (forall x, y :: le(x, y) || le(y, x))
    && (forall x, y, z :: le(x, y) && le(y, z) ==> le(x, z))
  }

  ghost predicate Ordered<T>(le: (T, T) -> bool, s: seq<T>) {
    forall i, j :: 0 <= i < j < |s| ==> le(s[i], s[j])
  }

  lemma {:induction false} InsertSplits<T(!new)>(le: (T, T) -> bool, s: seq<T>, x: T) returns (k: nat)
    requires TotalPreorder(le) && Ordered(le, s)
    ensures k <= |s| && InsertBy(le, s, x) == s[..k] + [x] + s[k..]
    ensures forall i :: 0 <= i < |s| ==> (le(s[i], x) <==> i < k)
  {
    if s == [] || le(s[|s| - 1], x) {
      k := |s|;
      assert s[..k] == s;
    } else {
      var n := |s| - 1;
      k := InsertSplits(le, s[..n], x);
      assert s[..n][..k] == s[..k] && s[..n][k..] + [s[n]] == s[k..];
    }
  }

  lemma MultisetInsert<T>(s: seq<T>, x: T, k: nat)
    requires k <= |s|
    ensures multiset(s[..k] + [x] + s[k..]) == multiset(s) + multiset{x}
  {
    assert s == s[..k] + s[k..];
  }

  lemma InsertStaysOrdered<T(!new)>(le: (T, T) -> bool, s: seq<T>, x: T, k: nat)
    requires TotalPreorder(le) && Ordered(le, s) && k <= |s|
    requires forall i :: 0 <= i < |s| ==> (le(s[i], x) <==> i < k)
    ensures Ordered(le, s[..k] + [x] + s[k..])
  {
    var r := s[..k] + [x] + s[k..];
    assert forall i :: 0 <= i < |r| ==> r[i] == if i < k then s[i] else if i == k then x else s[i - 1];
  }

  lemma InsertIsSorted<T(!new)>(le: (T, T) -> bool, s: seq<T>, x: T)
    requires TotalPreorder(le) && Ordered(le, s)
    ensures Ordered(le, InsertBy(le, s, x)) && multiset(InsertBy(le, s, x)) == multiset(s) + multiset{x}
    ensures |InsertBy(le, s, x)| == |s| + 1
  {
    hide Ordered, InsertBy, TotalPreorder;
    var k := InsertSplits(le, s, x);
    InsertStaysOrdered(le, s, x, k);
    MultisetInsert(s, x, k);
  }

  /** The sort returns its input in order, losing and adding nothing. */
  lemma {:induction false} SortIsSort<T(!new)>(le: (T, T) -> bool, s: seq<T>)
    requires TotalPreorder(le)
    ensures Ordered(le, SortBy(le, s)) && multiset(SortBy(le, s)) == multiset(s) && |SortBy(le, s)| == |s|
  {
    if s != [] {
      hide Ordered, InsertBy, TotalPreorder;
      var n := |s| - 1;
      SortIsSort(le, s[..n]);
      InsertIsSorted(le, SortBy(le, s[..n]), s[n]);
      MultisetLast(s);
    }
  }

  lemma SortMembers<T(!new)>(le: (T, T) -> bool, s: seq<T>)
    requires TotalPreorder(le)
    ensures |SortBy(le, s)| == |s|
    ensures forall x :: x in SortBy(le, s) <==> x in s
  {
    hide Ordered, TotalPreorder, SortBy;
    SortIsSort(le, s);
    var sorted := SortBy(le, s);
    assert forall x :: x in sorted <==> x in multiset(sorted);
    assert forall x :: x in s <==> x in multiset(s);
  }

  /** The first of the sorted elements may stand before every other. */
  lemma SortHead<T(!new)>(le: (T, T) -> bool, s: seq<T>, x: T)
    requires TotalPreorder(le) && x in s
    ensures SortBy(le, s) != [] && le(SortBy(le, s)[0], x)
  {
    hide SortBy;
    SortIsSort(le, s);
    SortMembers(le, s);
    var sorted := SortBy(le, s);
    var i :| 0 <= i < |sorted| && sorted[i] == x;
  }

  lemma {:induction false} SortFixesOrdered<T>(le: (T, T) -> bool, s: seq<T>)
    requires Ordered(le, s)
    ensures SortBy(le, s) == s
  {
    if s != [] {
      SortFixesOrdered(le, s[..|s| - 1]);
    }
  }

  // ----- other orders on the sorted elements -----

  /** The sort puts element i before element j: a smaller one, or an equal one that came first. */
  predicate Comes<T>(le: (T, T) -> bool, s: seq<T>, i: nat, j: nat)
    requires i < |s| && j < |s|
  {
    le(s[i], s[j]) && (i < j || !le(s[j], s[i]))
  }

  ghost predicate RespectedBy<T>(le: (T, T) -> bool, d: (T, T) -> bool, s: seq<T>) {
    forall i, j :: 0 <= i < |s| && 0 <= j < |s| && Comes(le, s, i, j) ==> d(s[i], s[j])
  }

  /** x stands where the sort wants it, as far as d is concerned, relative to y that came before it. */
  predicate FitsNext<T>(le: (T, T) -> bool, d: (T, T) -> bool, y: T, x: T) {
    if le(y, x) then d(y, x) else d(x, y)
  }

  lemma InsertOrderedIff<T>(d: (T, T) -> bool, r: seq<T>, x: T, k: nat)
    requires k <= |r|
    ensures Ordered(d, r[..k] + [x] + r[k..]) <==>
      && Ordered(d, r) && (forall i :: 0 <= i < k ==> d(r[i], x)) && (forall i :: k <= i < |r| ==> d(x, r[i]))
  {
    var w := r[..k] + [x] + r[k..];
    assert forall i :: 0 <= i < k ==> w[i] == r[i];
    assert forall i :: k <= i < |r| ==> w[i + 1] == r[i];
    if Ordered(d, w) {
      forall i, j | 0 <= i < j < |r| ensures d(r[i], r[j]) {
        assert d(w[if i < k then i else i + 1], w[if j < k then j else j + 1]);
      }
      forall i | 0 <= i < k ensures d(r[i], x) {
        assert d(w[i], w[k]);
      }
      forall i | k <= i < |r| ensures d(x, r[i]) {
        assert d(w[k], w[i + 1]);
      }
    }
  }

  lemma RespectedNext<T(!new)>(le: (T, T) -> bool, d: (T, T) -> bool, s: seq<T>)
    requires TotalPreorder(le) && s != []
    ensures var n := |s| - 1;
      RespectedBy(le, d, s) <==>
        RespectedBy(le, d, s[..n]) && forall i :: 0 <= i < n ==> FitsNext(le, d, s[i], s[n])
  {
    var n := |s| - 1;
    var t := s[..n];
    assert forall i, j :: 0 <= i < n && 0 <= j < n ==> (Comes(le, t, i, j) <==> Comes(le, s, i, j));
    assert forall i :: 0 <= i < n ==> (Comes(le, s, i, n) <==> le(s[i], s[n]));
    assert forall i :: 0 <= i < n ==> (Comes(le, s, n, i) <==> !le(s[i], s[n]));
    assert !Comes(le, s, n, n);
    if RespectedBy(le, d, s) {
      assert forall i, j :: 0 <= i < n && 0 <= j < n && Comes(le, t, i, j) ==> Comes(le, s, i, j) && d(t[i], t[j]);
    }
  }

  /** The sorted sequence is in another order d exactly when d agrees with every choice the sort makes. */
  lemma {:induction false} SortRespectsIff<T(!new)>(le: (T, T) -> bool, d: (T, T) -> bool, s: seq<T>)
    requires TotalPreorder(le)
    ensures Ordered(d, SortBy(le, s)) <==> RespectedBy(le, d, s)
  {
    if s != [] {
      hide TotalPreorder, RespectedBy, Ordered, SortBy, FitsNext;
      SortRespectsIff(le, d, s[..|s| - 1]);
      RespectedNext(le, d, s);
      SortedNext(le, d, s);
    } else {
      hide TotalPreorder, FitsNext, Comes;
    }
  }

  lemma SortedNext<T(!new)>(le: (T, T) -> bool, d: (T, T) -> bool, s: seq<T>)
    requires TotalPreorder(le) && s != []
    ensures var n := |s| - 1;
      Ordered(d, SortBy(le, s)) <==>
        Ordered(d, SortBy(le, s[..n])) && forall i :: 0 <= i < n ==> FitsNext(le, d, s[i], s[n])
  {
    hide TotalPreorder, Ordered, InsertBy, FitsNext;
    var t, x := s[..|s| - 1], s[|s| - 1];
    var r := SortBy(le, t);
    assert SortBy(le, s) == InsertBy(le, r, x);
    hide SortBy;
    SortIsSort(le, t);
    SortMembers(le, t);
    InsertRespects(le, d, r, t, x);
  }

  lemma InsertRespects<T(!new)>(le: (T, T) -> bool, d: (T, T) -> bool, r: seq<T>, t: seq<T>, x: T)
    requires TotalPreorder(le) && Ordered(le, r) && (forall y :: y in r <==> y in t)
    ensures Ordered(d, InsertBy(le, r, x)) <==> Ordered(d, r) && forall i :: 0 <= i < |t| ==> FitsNext(le, d, t[i], x)
  {
    hide TotalPreorder, Ordered, InsertBy, FitsNext;
    var k := InsertSplits(le, r, x);
    InsertOrderedIff(d, r, x, k);
    MembersFit(le, d, r, t, x, k);
  }

  lemma MembersFit<T>(le: (T, T) -> bool, d: (T, T) -> bool, r: seq<T>, t: seq<T>, x: T, k: nat)
    requires k <= |r| && (forall y :: y in r <==> y in t)
    requires forall i :: 0 <= i < |r| ==> (le(r[i], x) <==> i < k)
    ensures (forall i :: 0 <= i < k ==> d(r[i], x)) && (forall i :: k <= i < |r| ==> d(x, r[i])) <==>
      forall i :: 0 <= i < |t| ==> FitsNext(le, d, t[i], x)
  {
    if forall i :: 0 <= i < |t| ==> FitsNext(le, d, t[i], x) {
      forall i | 0 <= i < |r| ensures FitsNext(le, d, r[i], x) {
        assert r[i] in t;
      }
    }
    if (forall i :: 0 <= i < k ==> d(r[i], x)) && (forall i :: k <= i < |r| ==> d(x, r[i])) {
      forall i | 0 <= i < |t| ensures FitsNext(le, d, t[i], x) {
        assert t[i] in r;
      }
    }
  }
}
