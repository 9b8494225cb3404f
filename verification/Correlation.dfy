/** Pearson correlation of two return series, and the Cauchy-Schwarz bound behind its clamp. */
module Correlation {
  import opened Prelude

  function Dot(v: seq<real>, w: seq<real>): real
    requires |v| == |w|
  {
    if v == [] then 0.0 else Dot(v[..|v| - 1], w[..|w| - 1]) + Times(v[|v| - 1], w[|w| - 1])
  }

  function Times(x: real, y: real): real {
    x * y
  }

  function Total(xs: seq<real>): real {
    if xs == [] then 0.0 else Total(xs[..|xs| - 1]) + xs[|xs| - 1]
  }

  function Mean(xs: seq<real>): real
    requires xs != []
  {
    Total(xs) / |xs| as real
  }

  /** Each value's distance from m. */
  function Deviations(xs: seq<real>, m: real): (v: seq<real>)
    ensures |v| == |xs| && forall i :: 0 <= i < |v| ==> v[i] == xs[i] - m
  {
    if xs == [] then [] else Deviations(xs[..|xs| - 1], m) + [xs[|xs| - 1] - m]
  }

  function Centred(xs: seq<real>): (v: seq<real>)
    requires xs != []
    ensures |v| == |xs|
  {
    Deviations(xs, Mean(xs))
  }

  /** The last n elements. */
  function Tail(xs: seq<real>, n: nat): (r: seq<real>)
    requires n <= |xs|
    ensures |r| == n
  {
    xs[|xs| - n..]
  }

  function Shared(a: seq<real>, b: seq<real>): nat {
    if |a| < |b| then |a| else |b|
  }

  function Numerator(a: seq<real>, b: seq<real>): real
    requires a != [] && b != []
  {
    var n := Shared(a, b);
    Dot(Centred(Tail(a, n)), Centred(Tail(b, n)))
  }

  /** The sum of squares of the first argument's shared tail. */
  function Spread(a: seq<real>, b: seq<real>): real
    requires a != [] && b != []
  {
    var v := Centred(Tail(a, Shared(a, b)));
    Dot(v, v)
  }

  /** What Math.sqrt promises, in exact arithmetic. */
  ghost predicate SquareRoot(root: real -> real) {
    forall x :: x >= 0.0 ==> root(x) >= 0.0 && root(x) * root(x) == x
  }

  function Clamp(x: real): real {
    Max(-1.0, Min(1.0, x))
  }

  function RootOfProduct(dx: real, dy: real, root: real -> real): real {
    root(dx * dy)
  }

  function Denominator(a: seq<real>, b: seq<real>, root: real -> real): real
    requires a != [] && b != []
  {
    RootOfProduct(Spread(a, b), Spread(b, a), root)
  }

  function Pearson(a: seq<real>, b: seq<real>, root: real -> real): real {
    if Shared(a, b) < 2 then 0.0 else Ratio(Numerator(a, b), Denominator(a, b, root))
  }

  function Ratio(num: real, denom: real): real {
    if denom <= 0.0 then 0.0 else Clamp(num / denom)
  }

  /** The mean of both tails, then the accumulators, then the clamp. */
  method PearsonLoop(a: seq<real>, b: seq<real>, root: real -> real) returns (rho: real)
    ensures rho == Pearson(a, b, root)
  {
    hide Dot, Deviations, Clamp, Total;
    var n := if |a| < |b| then |a| else |b|;
    if n < 2 {
      return 0.0;
    }
    var xs, ys := Tail(a, n), Tail(b, n);
    var sx := Sum(xs);
    var sy := Sum(ys);
    var num, dx, dy := Accumulate(xs, ys, sx / n as real, sy / n as real);
    assert num == Numerator(a, b) && dx == Spread(a, b) && dy == Spread(b, a);
    var denom := RootOfProduct(dx, dy, root);
    hide RootOfProduct;
    if denom <= 0.0 {
      return 0.0;
    }
    rho := Clamp(num / denom);
  }

  method Sum(xs: seq<real>) returns (s: real)
    ensures s == Total(xs)
  {
    s := 0.0;
    for i := 0 to |xs|
      invariant s == Total(xs[..i])
    {
      assert xs[..i + 1][..i] == xs[..i];
      s := s + xs[i];
    }
    assert xs[..|xs|] == xs;
  }

  lemma DotNext(v: seq<real>, w: seq<real>, i: nat)
    requires |v| == |w| && i < |v|
    ensures Dot(v[..i + 1], w[..i + 1]) == Dot(v[..i], w[..i]) + Times(v[i], w[i])
  {
    assert v[..i + 1][..i] == v[..i] && w[..i + 1][..i] == w[..i];
  }

  method Accumulate(xs: seq<real>, ys: seq<real>, mx: real, my: real) returns (num: real, dx: real, dy: real)
    requires |xs| == |ys|
    ensures num == Dot(Deviations(xs, mx), Deviations(ys, my))
    ensures dx == Dot(Deviations(xs, mx), Deviations(xs, mx))
    ensures dy == Dot(Deviations(ys, my), Deviations(ys, my))
  {
    num, dx, dy := 0.0, 0.0, 0.0;
    ghost var v, w := Deviations(xs, mx), Deviations(ys, my);
    for i := 0 to |xs|
      invariant num == Dot(v[..i], w[..i]) && dx == Dot(v[..i], v[..i]) && dy == Dot(w[..i], w[..i])
    {
      hide Dot, Deviations;
      DotNext(v, w, i);
      DotNext(v, v, i);
      DotNext(w, w, i);
      var vx, vy := xs[i] - mx, ys[i] - my;
      num, dx, dy := num + vx * vy, dx + vx * vx, dy + vy * vy;
    }
    assert v[..|xs|] == v && w[..|xs|] == w;
  }

  // ----- Cauchy-Schwarz -----

  function Quadratic(a: real, c: real, b: real, t: real): real {
    t * t * a + 2.0 * t * c + b
  }

  lemma Positive(x: real, y: real)
    requires x > 0.0 && y > 0.0
    ensures x * y > 0.0 && Times(x, y) > 0.0
  {
  }

  lemma Square(x: real)
    ensures if x == 0.0 then Times(x, x) == 0.0 else Times(x, x) > 0.0
  {
    if x > 0.0 {
      Positive(x, x);
    } else if x < 0.0 {
      Positive(-x, -x);
      assert Times(-x, -x) == Times(x, x);
    }
  }

  lemma SameSign(x: real, d: real)
    requires d > 0.0
    ensures x * d >= 0.0 <==> x >= 0.0
  {
    if x > 0.0 {
      Positive(x, d);
    } else if x < 0.0 {
      Positive(-x, d);
      assert (-x) * d == -(x * d);
    }
  }

  lemma SquaresCompare(x: real, y: real)
    requires x >= 0.0 && y >= 0.0
    ensures x <= y <==> x * x <= y * y
  {
    assert y * y - x * x == (y - x) * (y + x);
    if x + y > 0.0 {
      SameSign(y - x, y + x);
    }
  }

  lemma QuadraticStep(a: real, c: real, b: real, x: real, y: real, t: real)
    ensures Quadratic(a + Times(x, x), c + Times(x, y), b + Times(y, y), t) >= Quadratic(a, c, b, t)
  {
    assert t * t * (a + x * x) == t * t * a + (t * x) * (t * x);
    assert 2.0 * t * (c + x * y) == 2.0 * t * c + 2.0 * (t * x) * y;
    Square(t * x + y);
  }

  /** |t·v + w|² is never negative. */
  lemma {:induction false} QuadraticIsPositive(v: seq<real>, w: seq<real>, t: real)
    requires |v| == |w|
    ensures Quadratic(Dot(v, v), Dot(v, w), Dot(w, w), t) >= 0.0
  {
    if v == [] {
      assert t * t * 0.0 == 0.0 && 2.0 * t * 0.0 == 0.0;
    } else {
      hide Quadratic, Times;
      var n := |v| - 1;
      QuadraticIsPositive(v[..n], w[..n], t);
      QuadraticStep(Dot(v[..n], v[..n]), Dot(v[..n], w[..n]), Dot(w[..n], w[..n]), v[n], w[n], t);
    }
  }

  lemma {:induction false} SquaresArePositive(v: seq<real>)
    ensures Dot(v, v) >= 0.0
    ensures Dot(v, v) == 0.0 <==> forall i :: 0 <= i < |v| ==> v[i] == 0.0
  {
    if v != [] {
      var n := |v| - 1;
      SquaresArePositive(v[..n]);
      Square(v[n]);
      hide Times;
      assert forall i :: 0 <= i < n ==> v[..n][i] == v[i];
    }
  }

  /** A quadratic that is never negative has no positive discriminant. */
  lemma Discriminant(a: real, c: real, b: real)
    requires a > 0.0 && Quadratic(a, c, b, -c / a) >= 0.0
    ensures c * c <= a * b
  {
    var t := -c / a;
    assert t * a == -c;
    assert t * t * a == t * (t * a) == t * -c;
    assert t * c + b >= 0.0;
    assert a * (t * c + b) == (t * a) * c + a * b;
    assert a * (t * c + b) >= 0.0;
  }

  lemma ZeroDot(v: seq<real>, w: seq<real>)
    requires |v| == |w| && forall i :: 0 <= i < |v| ==> v[i] == 0.0
    ensures Dot(v, w) == 0.0
  {
    if v != [] {
      ZeroDot(v[..|v| - 1], w[..|w| - 1]);
    }
  }

  /** num² <= dx·dy */
  predicate Bounded(num: real, dx: real, dy: real) {
    num * num <= dx * dy
  }

  lemma CauchySchwarz(v: seq<real>, w: seq<real>)
    requires |v| == |w|
    ensures Bounded(Dot(v, w), Dot(v, v), Dot(w, w))
  {
    SquaresArePositive(v);
    hide Dot, Quadratic;
    if Dot(v, v) == 0.0 {
      ZeroDot(v, w);
    } else {
      QuadraticIsPositive(v, w, -Dot(v, w) / Dot(v, v));
      Discriminant(Dot(v, v), Dot(v, w), Dot(w, w));
    }
  }

  /** num² <= dx·dy for the accumulators of any two series. */
  lemma AccumulatorsBounded(a: seq<real>, b: seq<real>)
    requires a != [] && b != []
    ensures Bounded(Numerator(a, b), Spread(a, b), Spread(b, a))
    ensures Spread(a, b) >= 0.0 && Spread(b, a) >= 0.0
  {
    hide Dot, Centred, Bounded;
    var v, w := Centred(Tail(a, Shared(a, b))), Centred(Tail(b, Shared(a, b)));
    CauchySchwarz(v, w);
    SquaresArePositive(v);
    SquaresArePositive(w);
  }

  lemma RatioWithinOne(num: real, denom: real)
    requires denom > 0.0 && num * num <= denom * denom
    ensures Clamp(num / denom) == num / denom
  {
    SquaresCompare(Abs(num), denom);
    var q := num / denom;
    assert q * denom == num;
    SameSign(1.0 - q, denom);
    SameSign(1.0 + q, denom);
  }

  /** In exact arithmetic the clamp to [-1, 1] never binds. */
  lemma ClampNeverBinds(a: seq<real>, b: seq<real>, root: real -> real)
    requires SquareRoot(root) && Shared(a, b) >= 2 && Denominator(a, b, root) > 0.0
    ensures Pearson(a, b, root) == Numerator(a, b) / Denominator(a, b, root)
  {
    AccumulatorsBounded(a, b);
    hide Numerator, Spread, RootOfProduct, Bounded, Clamp;
    RatioIsUnclamped(Numerator(a, b), Spread(a, b), Spread(b, a), root);
  }

  lemma RatioIsUnclamped(num: real, dx: real, dy: real, root: real -> real)
    requires SquareRoot(root) && dx >= 0.0 && dy >= 0.0 && Bounded(num, dx, dy) && RootOfProduct(dx, dy, root) > 0.0
    ensures Clamp(num / RootOfProduct(dx, dy, root)) == num / RootOfProduct(dx, dy, root)
  {
    hide Clamp;
    RootSquared(dx, dy, root);
    RatioWithinOne(num, RootOfProduct(dx, dy, root));
  }

  lemma RootSquared(x: real, y: real, root: real -> real)
    requires SquareRoot(root) && x >= 0.0 && y >= 0.0
    ensures root(x * y) >= 0.0 && root(x * y) * root(x * y) == x * y
  {
    assert x * y >= 0.0;
  }

  ghost predicate Constant(xs: seq<real>) {
    forall i, j :: 0 <= i < j < |xs| ==> xs[i] == xs[j]
  }

  lemma {:induction false} TotalOfConstant(xs: seq<real>, c: real)
    requires forall i :: 0 <= i < |xs| ==> xs[i] == c
    ensures Total(xs) == |xs| as real * c
  {
    if xs != [] {
      TotalOfConstant(xs[..|xs| - 1], c);
    }
  }

  /** A series has no spread exactly when it is constant. */
  lemma SpreadMeans(xs: seq<real>)
    requires xs != []
    ensures Dot(Centred(xs), Centred(xs)) == 0.0 <==> Constant(xs)
  {
    SquaresArePositive(Centred(xs));
    if Constant(xs) {
      TotalOfConstant(xs, xs[0]);
    }
  }

  lemma RootOfSquare(x: real, root: real -> real)
    requires SquareRoot(root) && x >= 0.0
    ensures RootOfProduct(x, x, root) == x
  {
    RootSquared(x, x, root);
    SquaresCompare(root(x * x), x);
    SquaresCompare(x, root(x * x));
  }

  lemma Itself(x: real)
    requires x > 0.0
    ensures Clamp(x / x) == 1.0
  {
  }

  /** A series that moves at all correlates exactly 1 with itself. */
  lemma SelfCorrelation(a: seq<real>, root: real -> real)
    requires SquareRoot(root) && |a| >= 2
    ensures Pearson(a, a, root) == if Constant(a) then 0.0 else 1.0
  {
    hide Dot, Centred, Clamp;
    assert Tail(a, |a|) == a;
    var dx := Dot(Centred(a), Centred(a));
    assert Spread(a, a) == dx && Numerator(a, a) == dx;
    SpreadMeans(a);
    SquaresArePositive(Centred(a));
    RootOfSquare(dx, root);
    hide RootOfProduct;
    if dx > 0.0 {
      Itself(dx);
    }
  }

  lemma {:induction false} DotSymmetric(v: seq<real>, w: seq<real>)
    requires |v| == |w|
    ensures Dot(v, w) == Dot(w, v)
  {
    if v != [] {
      DotSymmetric(v[..|v| - 1], w[..|w| - 1]);
    }
  }

  lemma NumeratorIsSymmetric(a: seq<real>, b: seq<real>)
    requires a != [] && b != []
    ensures Numerator(a, b) == Numerator(b, a)
  {
    hide Dot, Centred, Tail;
    DotSymmetric(Centred(Tail(a, Shared(a, b))), Centred(Tail(b, Shared(a, b))));
  }

  lemma DenominatorIsSymmetric(a: seq<real>, b: seq<real>, root: real -> real)
    requires a != [] && b != []
    ensures Denominator(a, b, root) == Denominator(b, a, root)
  {
    hide Spread, RootOfProduct;
    RootCommutes(Spread(a, b), Spread(b, a), root);
  }

  /** The estimate does not depend on which symbol is the candidate. */
  lemma PearsonIsSymmetric(a: seq<real>, b: seq<real>, root: real -> real)
    ensures Pearson(a, b, root) == Pearson(b, a, root)
  {
    if Shared(a, b) >= 2 {
      hide Numerator, Denominator, Ratio;
      NumeratorIsSymmetric(a, b);
      DenominatorIsSymmetric(a, b, root);
    }
  }

  lemma RootCommutes(x: real, y: real, root: real -> real)
    ensures RootOfProduct(x, y, root) == RootOfProduct(y, x, root)
  {
    assert x * y == y * x;
  }

  // ----- exact lines -----

  ghost predicate OnLine(xs: seq<real>, ys: seq<real>, p: real, q: real) {
    |ys| == |xs| && forall i :: 0 <= i < |xs| ==> ys[i] == Times(p, xs[i]) + q
  }

  lemma {:induction false} TotalOfLine(xs: seq<real>, ys: seq<real>, p: real, q: real)
    requires OnLine(xs, ys, p, q)
    ensures Total(ys) == p * Total(xs) + |xs| as real * q
  {
    if xs != [] {
      var n := |xs| - 1;
      TotalOfLine(xs[..n], ys[..n], p, q);
      assert p * Total(xs) == p * Total(xs[..n]) + p * xs[n];
      assert |xs| as real * q == n as real * q + q;
    }
  }

  lemma MeanOfLine(n: real, total: real, p: real, q: real)
    requires n > 0.0
    ensures (p * total + n * q) / n == p * (total / n) + q
  {
    var m := total / n;
    assert n * m == total;
    assert p * total + n * q == n * (p * m + q);
  }

  lemma LinePoint(x: real, y: real, mx: real, my: real, p: real, q: real)
    requires y == Times(p, x) + q && my == Times(p, mx) + q
    ensures y - my == Times(p, x - mx) + 0.0
  {
  }

  lemma DeviationsOnLine(xs: seq<real>, ys: seq<real>, mx: real, my: real, p: real, q: real)
    requires OnLine(xs, ys, p, q) && my == Times(p, mx) + q
    ensures OnLine(Deviations(xs, mx), Deviations(ys, my), p, 0.0)
  {
    hide Times, Deviations;
    forall i | 0 <= i < |xs| ensures Deviations(ys, my)[i] == Times(p, Deviations(xs, mx)[i]) + 0.0 {
      LinePoint(xs[i], ys[i], mx, my, p, q);
    }
  }

  lemma CentredLine(xs: seq<real>, ys: seq<real>, p: real, q: real)
    requires OnLine(xs, ys, p, q) && xs != []
    ensures OnLine(Centred(xs), Centred(ys), p, 0.0)
  {
    TotalOfLine(xs, ys, p, q);
    MeanOfLine(|xs| as real, Total(xs), p, q);
    DeviationsOnLine(xs, ys, Mean(xs), Mean(ys), p, q);
  }

  lemma {:induction false} DotOfLine(v: seq<real>, w: seq<real>, p: real)
    requires OnLine(v, w, p, 0.0)
    ensures Dot(v, w) == Times(p, Dot(v, v)) && Dot(w, w) == Times(p, Times(p, Dot(v, v)))
  {
    if v != [] {
      var n := |v| - 1;
      DotOfLine(v[..n], w[..n], p);
      LineTerm(Dot(v[..n], v[..n]), v[n], w[n], p);
    }
  }

  lemma LineTerm(a: real, x: real, y: real, p: real)
    requires y == Times(p, x) + 0.0
    ensures Times(p, a) + Times(x, y) == Times(p, a + Times(x, x))
    ensures Times(p, Times(p, a)) + Times(y, y) == Times(p, Times(p, a + Times(x, x)))
  {
    assert x * y == p * (x * x);
    assert y * y == p * (p * (x * x));
    assert p * (p * a) + p * (p * (x * x)) == p * (p * a + p * (x * x));
  }

  lemma LineRatio(dx: real, p: real, root: real -> real)
    requires SquareRoot(root) && dx > 0.0 && p != 0.0
    ensures var denom := RootOfProduct(dx, Times(p, Times(p, dx)), root);
      denom > 0.0 && Clamp(Times(p, dx) / denom) == Sign(p) as real
  {
    var size := Abs(p) * dx;
    Positive(Abs(p), dx);
    assert dx * (p * (p * dx)) == size * size;
    RootOfSquare(size, root);
    assert RootOfProduct(dx, Times(p, Times(p, dx)), root) == size;
    assert p * dx == Sign(p) as real * size;
  }

  /** Series on an exact line correlate perfectly: +1 when they move together, -1 when they move apart. */
  lemma PerfectLine(a: seq<real>, b: seq<real>, p: real, q: real, root: real -> real)
    requires SquareRoot(root) && |a| >= 2 && OnLine(a, b, p, q) && p != 0.0 && !Constant(a)
    ensures Pearson(a, b, root) == Sign(p) as real
  {
    assert Tail(a, |a|) == a && Tail(b, |b|) == b;
    SpreadMeans(a);
    SquaresArePositive(Centred(a));
    CentredLine(a, b, p, q);
    DotOfLine(Centred(a), Centred(b), p);
    hide Dot, Centred, Times, RootOfProduct, Clamp;
    LineRatio(Dot(Centred(a), Centred(a)), p, root);
  }

  // ----- which returns count -----

  lemma TailOfTail(earlier: seq<real>, a: seq<real>, n: nat)
    requires n <= |a|
    ensures Tail(earlier + a, n) == Tail(a, n)
  {
  }

  /** The series are aligned at their newest ends: returns older than the shorter series reaches do not count. */
  lemma OlderReturnsIgnored(earlier: seq<real>, a: seq<real>, b: seq<real>, root: real -> real)
    requires |a| >= |b|
    ensures Pearson(earlier + a, b, root) == Pearson(a, b, root)
    ensures Pearson(b, earlier + a, root) == Pearson(b, a, root)
  {
    hide Centred, Dot, Ratio, RootOfProduct, Tail;
    TailOfTail(earlier, a, |b|);
  }

  /** Whatever root is used, the estimate is within [-1, 1]. */
  lemma WithinOne(a: seq<real>, b: seq<real>, root: real -> real)
    ensures -1.0 <= Pearson(a, b, root) <= 1.0
  {
    hide Numerator, Denominator;
  }
}
