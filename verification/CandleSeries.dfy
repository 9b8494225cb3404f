/** Upserting into a series kept sorted by open time. */
module CandleSeries {
  import opened Prelude
  import opened Candles
  import opened Sorting

  predicate NotLater(a: Candle, b: Candle) {
    a.openTime <= b.openTime
  }

  function FindTime(s: seq<Candle>, t: int): (i: nat)
    ensures i <= |s|
    ensures i < |s| ==> s[i].openTime == t
    ensures forall j :: 0 <= j < i ==> s[j].openTime != t
  {
    if s == [] then 0
    else
      var i := FindTime(s[..|s| - 1], t);
      if i < |s| - 1 || s[|s| - 1].openTime == t then i else |s|
  }

  /** Replace the candle with the same open time, or push and sort. */
  function Upsert(s: seq<Candle>, c: Candle): seq<Candle> {
    var i := FindTime(s, c.openTime);
    if i < |s| then s[i := c] else SortBy(NotLater, s + [c])
  }

  lemma SortPushed(s: seq<Candle>, c: Candle)
    requires Sorted(s)
    ensures SortBy(NotLater, s + [c]) == InsertBy(NotLater, s, c)
  {
    SortFixesOrdered(NotLater, s);
    assert (s + [c])[..|s|] == s;
  }

  lemma InsertStaysStrict(s: seq<Candle>, c: Candle, k: nat)
    requires StrictlySorted(s) && k <= |s|
    requires forall i :: 0 <= i < |s| ==> s[i].openTime != c.openTime && (s[i].openTime < c.openTime <==> i < k)
    ensures StrictlySorted(s[..k] + [c] + s[k..])
  {
    var r := s[..k] + [c] + s[k..];
    assert forall i :: 0 <= i < |r| ==> r[i] == if i < k then s[i] else if i == k then c else s[i - 1];
  }

  /** On a strictly sorted series an upsert overwrites in place or inserts in order. */
  lemma UpsertSplits(s: seq<Candle>, c: Candle) returns (k: nat, added: bool)
    requires StrictlySorted(s)
    ensures StrictlySorted(Upsert(s, c))
    ensures added ==> k <= |s| && Upsert(s, c) == s[..k] + [c] + s[k..]
    ensures added ==> forall i :: 0 <= i < |s| ==> s[i].openTime != c.openTime && (s[i].openTime < c.openTime <==> i < k)
    ensures !added ==> k < |s| && s[k].openTime == c.openTime && Upsert(s, c) == s[k := c]
  {
    k := FindTime(s, c.openTime);
    added := k == |s|;
    if added {
      SortPushed(s, c);
      hide InsertBy, SortBy;
      k := InsertSplits(NotLater, s, c);
      InsertStaysStrict(s, c, k);
    }
  }

  lemma UpsertAppends(s: seq<Candle>, c: Candle)
    requires StrictlySorted(s) && forall i :: 0 <= i < |s| ==> s[i].openTime < c.openTime
    ensures Upsert(s, c) == s + [c]
  {
    SortPushed(s, c);
  }

  lemma Found(s: seq<Candle>, t: int, j: nat)
    requires j < |s| && s[j].openTime == t
    ensures FindTime(s, t) < |s|
  {
    assert FindTime(s, t) <= j;
  }

  /** The loop of findIndex, and the replace-or-push-and-sort that follows it. */
  method UpsertInto(s: seq<Candle>, c: Candle) returns (r: seq<Candle>)
    ensures r == Upsert(s, c)
  {
    var i := 0;
    while i < |s| && s[i].openTime != c.openTime
      invariant i <= |s| && forall j :: 0 <= j < i ==> s[j].openTime != c.openTime
    {
      i := i + 1;
    }
    assert i == FindTime(s, c.openTime);
    if i < |s| {
      r := s[i := c];
    } else {
      r := SortBy(NotLater, s + [c]);
    }
  }
}
