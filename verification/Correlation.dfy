/** The correlation coefficient of two series, and the laws that make it one. */
module Correlation {
  import opened RealFacts

  /** The sum of the products of the deviations from ma and mb. */
  function Covariation(a: seq<real>, b: seq<real>, ma: real, mb: real, n: nat): real
    requires n <= |a| == |b|
  {
    if n == 0 then 0.0 else Covariation(a, b, ma, mb, n - 1) + Times(a[n - 1] - ma, b[n - 1] - mb)
  }

  function Pearson(sqrt: real -> real, a: seq<real>, b: seq<real>): real
    requires IsSquareRoot(sqrt) && a != [] && |a| == |b|
  {
    var ma, mb := RealMean(a), RealMean(b);
    Coefficient(sqrt, Covariation(a, b, ma, mb, |a|), Covariation(a, a, ma, ma, |a|), Covariation(b, b, mb, mb, |a|))
  }

  /** A constant series correlates with nothing. */
  function Coefficient(sqrt: real -> real, cov: real, varA: real, varB: real): real
    requires IsSquareRoot(sqrt)
  {
    if varA <= 0.0 || varB <= 0.0 then 0.0
    else
      RootIsPositive(sqrt, varA, varB);
      cov / sqrt(Times(varA, varB))
  }

  lemma RootIsPositive(sqrt: real -> real, a: real, b: real)
    requires IsSquareRoot(sqrt) && a > 0.0 && b > 0.0
    ensures sqrt(Times(a, b)) > 0.0 && Times(sqrt(Times(a, b)), sqrt(Times(a, b))) == Times(a, b)
  {
  }

  // ---- It lies between -1 and 1 ----

  lemma SquareOfSum(a: real, b: real)
    ensures Times(a + b, a + b) == Times(a, a) + 2.0 * Times(a, b) + Times(b, b)
  {
  }

  lemma SquareOfProduct(a: real, b: real)
    ensures Times(Times(a, b), Times(a, b)) == Times(Times(a, a), Times(b, b))
  {
  }

  lemma SquaresOrder(u: real, v: real)
    requires v >= 0.0 && Times(u, u) <= Times(v, v)
    ensures -v <= u <= v
  {
    assert Times(-u, -u) == Times(u, u);
    if u > v { LargerSquare(v, u); }
    if u < -v { LargerSquare(v, -u); }
  }

  /** The mean inequality, without a root: a product bounded by a square bounds twice its root by the sum. */
  lemma TwiceAtMostSum(u: real, p: real, q: real)
    requires p >= 0.0 && q >= 0.0 && Times(u, u) <= Times(p, q)
    ensures 2.0 * u <= p + q
  {
    SquareOfSum(p, q);
    SquareOfSum(p, -q);
    Signs(p - q, p - q);
    assert Times(p, -q) == -Times(p, q) && Times(-q, -q) == Times(q, q);
    assert Times(2.0 * u, 2.0 * u) == 4.0 * Times(u, u);
    SquaresOrder(2.0 * u, p + q);
  }

  /** One more pair of deviations keeps the inequality. */
  lemma CauchySchwarzStep(c: real, va: real, vb: real, x: real, y: real)
    requires va >= 0.0 && vb >= 0.0 && Times(c, c) <= Times(va, vb)
    ensures Times(c + Times(x, y), c + Times(x, y)) <= Times(va + Times(x, x), vb + Times(y, y))
  {
    var xx, yy, xy := Times(x, x), Times(y, y), Times(x, y);
    Signs(x, x);
    Signs(y, y);
    Signs(va, yy);
    Signs(vb, xx);
    CrossTerm(c, va, vb, xx, yy, xy) by { SquareOfProduct(x, y); }
    SquareOfSum(c, xy);
    SquareOfProduct(x, y);
    Expand(va, xx, vb, yy);
  }

  lemma Expand(a: real, b: real, c: real, d: real)
    ensures Times(a + b, c + d) == Times(a, c) + Times(a, d) + Times(b, c) + Times(b, d)
  {
  }

  lemma CrossTerm(c: real, va: real, vb: real, xx: real, yy: real, xy: real)
    requires va >= 0.0 && vb >= 0.0 && xx >= 0.0 && yy >= 0.0
    requires Times(c, c) <= Times(va, vb) && Times(xy, xy) == Times(xx, yy)
    ensures 2.0 * Times(c, xy) <= Times(va, yy) + Times(xx, vb)
  {
    SquareOfProduct(c, xy);
    Signs(xx, yy);
    Monotone(Times(c, c), Times(va, vb), Times(xx, yy));
    Regroup(va, vb, xx, yy);
    Signs(va, yy);
    Signs(xx, vb);
    TwiceAtMostSum(Times(c, xy), Times(va, yy), Times(xx, vb));
  }

  lemma Regroup(a: real, b: real, c: real, d: real)
    ensures Times(Times(a, b), Times(c, d)) == Times(Times(a, d), Times(c, b))
  {
  }

  lemma {:induction false} CauchySchwarz(a: seq<real>, b: seq<real>, ma: real, mb: real, n: nat)
    requires n <= |a| == |b|
    ensures var c, va, vb := Covariation(a, b, ma, mb, n), Covariation(a, a, ma, ma, n), Covariation(b, b, mb, mb, n);
            va >= 0.0 && vb >= 0.0 && Times(c, c) <= Times(va, vb)
  {
    if n > 0 {
      CauchySchwarz(a, b, ma, mb, n - 1);
      var x, y := a[n - 1] - ma, b[n - 1] - mb;
      Signs(x, x);
      Signs(y, y);
      CauchySchwarzStep(
        Covariation(a, b, ma, mb, n - 1), Covariation(a, a, ma, ma, n - 1), Covariation(b, b, mb, mb, n - 1), x, y);
    }
  }

  lemma Quotient(c: real, root: real)
    requires root > 0.0 && -root <= c <= root
    ensures -1.0 <= c / root <= 1.0
  {
  }

  /** For every pair of equal-length series the coefficient lies between -1 and 1. */
  lemma PearsonIsBounded(sqrt: real -> real, a: seq<real>, b: seq<real>)
    requires IsSquareRoot(sqrt) && a != [] && |a| == |b|
    ensures -1.0 <= Pearson(sqrt, a, b) <= 1.0
  {
    var ma, mb := RealMean(a), RealMean(b);
    CauchySchwarz(a, b, ma, mb, |a|);
    var c, va, vb := Covariation(a, b, ma, mb, |a|), Covariation(a, a, ma, ma, |a|), Covariation(b, b, mb, mb, |a|);
    if va > 0.0 && vb > 0.0 {
      RootIsPositive(sqrt, va, vb);
      SquaresOrder(c, sqrt(Times(va, vb)));
      Quotient(c, sqrt(Times(va, vb)));
    }
  }

  // ---- Where the ring happens to stand does not matter ----

  lemma {:induction false} SumSplits(a: seq<real>, b: seq<real>, n: nat)
    requires n <= |b|
    ensures RealSum(a + b, |a| + n) == RealSum(a, |a|) + RealSum(b, n)
  {
    if n > 0 {
      SumSplits(a, b, n - 1);
    } else {
      SumPrefix(a, b, |a|);
    }
  }

  lemma {:induction false} SumPrefix(a: seq<real>, b: seq<real>, n: nat)
    requires n <= |a|
    ensures RealSum(a + b, n) == RealSum(a, n)
  {
    if n > 0 { SumPrefix(a, b, n - 1); }
  }

  lemma {:induction false} CovariationSplits(
    a: seq<real>, b: seq<real>, c: seq<real>, d: seq<real>, ma: real, mb: real, n: nat)
    requires |a| == |c| && n <= |b| == |d|
    ensures Covariation(a + b, c + d, ma, mb, |a| + n)
            == Covariation(a, c, ma, mb, |a|) + Covariation(b, d, ma, mb, n)
  {
    if n > 0 {
      CovariationSplits(a, b, c, d, ma, mb, n - 1);
    } else {
      CovariationPrefix(a, b, c, d, ma, mb, |a|);
    }
  }

  lemma {:induction false} CovariationPrefix(
    a: seq<real>, b: seq<real>, c: seq<real>, d: seq<real>, ma: real, mb: real, n: nat)
    requires |a| == |c| && |b| == |d| && n <= |a|
    ensures Covariation(a + b, c + d, ma, mb, n) == Covariation(a, c, ma, mb, n)
  {
    if n > 0 { CovariationPrefix(a, b, c, d, ma, mb, n - 1); }
  }

  /** The pairs are correlated in slot order; any rotation of the two rings gives the same answer. */
  lemma PearsonIgnoresRotation(sqrt: real -> real, a: seq<real>, b: seq<real>, c: seq<real>, d: seq<real>)
    requires IsSquareRoot(sqrt) && |a| == |c| && |b| == |d| && a + b != []
    ensures Pearson(sqrt, a + b, c + d) == Pearson(sqrt, b + a, d + c)
  {
    SumSplits(a, b, |b|);
    SumSplits(b, a, |a|);
    SumSplits(c, d, |d|);
    SumSplits(d, c, |c|);
    var ma, mc := RealMean(a + b), RealMean(c + d);
    assert ma == RealMean(b + a) && mc == RealMean(d + c);
    CovariationSplits(a, b, c, d, ma, mc, |b|);
    CovariationSplits(b, a, d, c, ma, mc, |a|);
    CovariationSplits(a, b, a, b, ma, ma, |b|);
    CovariationSplits(b, a, b, a, ma, ma, |a|);
    CovariationSplits(c, d, c, d, mc, mc, |d|);
    CovariationSplits(d, c, d, c, mc, mc, |c|);
  }

  // ---- What it measures ----

  /** b is a with a gain and an offset. */
  ghost predicate Affine(a: seq<real>, b: seq<real>, g: real, c: real)
  {
    |a| == |b| && forall k :: 0 <= k < |a| ==> b[k] == Times(g, a[k]) + c
  }

  ghost predicate Constant(a: seq<real>)
  {
    forall k :: 0 <= k < |a| ==> a[k] == a[0]
  }

  lemma {:induction false} AffineSum(a: seq<real>, b: seq<real>, g: real, c: real, n: nat)
    requires Affine(a, b, g, c) && n <= |a|
    ensures RealSum(b, n) == Times(g, RealSum(a, n)) + Times(c, n as real)
  {
    if n > 0 {
      AffineSum(a, b, g, c, n - 1);
      Distribute(g, RealSum(a, n - 1), a[n - 1]);
      Distribute(c, (n - 1) as real, 1.0);
      One(c);
    }
  }

  lemma AffineMean(a: seq<real>, b: seq<real>, g: real, c: real)
    requires Affine(a, b, g, c) && a != []
    ensures RealMean(b) == Times(g, RealMean(a)) + c
  {
    AffineSum(a, b, g, c, |a|);
    Averages(RealSum(a, |a|), RealSum(b, |b|), g, c, |a| as real);
  }

  lemma Averages(sa: real, sb: real, g: real, c: real, n: real)
    requires n > 0.0 && sb == Times(g, sa) + Times(c, n)
    ensures sb / n == Times(g, sa / n) + c
  {
    var x := sa / n;
    assert sa == Times(x, n);
    assert Times(g, Times(x, n)) == Times(Times(g, x), n);
    Distribute(n, Times(g, x), c);
    assert sb == Times(Times(g, x) + c, n);
  }

  /** A gain on one series comes out of the covariation, and an offset goes. */
  lemma {:induction false} AffineCovariation(
    a: seq<real>, b: seq<real>, d: seq<real>, g: real, c: real, ma: real, md: real, n: nat)
    requires Affine(a, b, g, c) && |a| == |d| && n <= |a|
    ensures Covariation(d, b, md, Times(g, ma) + c, n) == Times(g, Covariation(d, a, md, ma, n))
    ensures Covariation(b, d, Times(g, ma) + c, md, n) == Times(g, Covariation(a, d, ma, md, n))
  {
    if n > 0 {
      AffineCovariation(a, b, d, g, c, ma, md, n - 1);
      var x, y := a[n - 1] - ma, d[n - 1] - md;
      Distribute(g, a[n - 1], ma);
      assert b[n - 1] - (Times(g, ma) + c) == Times(g, x);
      GainOut(g, x, y);
      Distribute(g, Covariation(d, a, md, ma, n - 1), Times(y, x));
      Distribute(g, Covariation(a, d, ma, md, n - 1), Times(x, y));
    }
  }

  lemma GainOut(g: real, x: real, y: real)
    ensures Times(y, Times(g, x)) == Times(g, Times(y, x))
    ensures Times(Times(g, x), y) == Times(g, Times(x, y))
  {
  }

  lemma AffineVariation(a: seq<real>, b: seq<real>, g: real, c: real)
    requires Affine(a, b, g, c) && a != []
    ensures var ma, mb := RealMean(a), RealMean(b);
            Covariation(b, b, mb, mb, |a|) == Times(Times(g, g), Covariation(a, a, ma, ma, |a|))
  {
    var ma, mb := RealMean(a), RealMean(b);
    AffineMean(a, b, g, c);
    AffineCovariation(a, b, b, g, c, ma, mb, |a|);
    AffineCovariation(a, b, a, g, c, ma, ma, |a|);
    assert Times(g, Times(g, Covariation(a, a, ma, ma, |a|))) == Times(Times(g, g), Covariation(a, a, ma, ma, |a|));
  }

  lemma RootOfSquare(sqrt: real -> real, x: real, y: real)
    requires IsSquareRoot(sqrt) && x >= 0.0 && Times(x, x) == y
    ensures sqrt(y) == x
  {
    Signs(x, x);
    if sqrt(y) < x { LargerSquare(sqrt(y), x); }
    if sqrt(y) > x { LargerSquare(x, sqrt(y)); }
  }

  /** A positive gain and an offset on one side change nothing; a negative gain turns the sign. */
  lemma GainAndOffset(sqrt: real -> real, a: seq<real>, b: seq<real>, d: seq<real>, g: real, c: real)
    requires IsSquareRoot(sqrt) && Affine(a, b, g, c) && a != [] && |a| == |d| && g != 0.0
    ensures Pearson(sqrt, b, d) == if g > 0.0 then Pearson(sqrt, a, d) else -Pearson(sqrt, a, d)
  {
    var ma, mb, md := RealMean(a), RealMean(b), RealMean(d);
    AffineMean(a, b, g, c);
    AffineVariation(a, b, g, c);
    AffineCovariation(a, b, d, g, c, ma, md, |a|);
    var va, vd := Covariation(a, a, ma, ma, |a|), Covariation(d, d, md, md, |a|);
    CauchySchwarz(a, d, ma, md, |a|);
    GainOnCoefficient(sqrt, Covariation(a, d, ma, md, |a|), va, vd, g);
  }

  lemma GainOnCoefficient(sqrt: real -> real, cov: real, va: real, vd: real, g: real)
    requires IsSquareRoot(sqrt) && va >= 0.0 && vd >= 0.0 && g != 0.0
    ensures Coefficient(sqrt, Times(g, cov), Times(Times(g, g), va), vd)
            == if g > 0.0 then Coefficient(sqrt, cov, va, vd) else -Coefficient(sqrt, cov, va, vd)
  {
    var h := if g > 0.0 then g else -g;
    assert Times(h, h) == Times(g, g);
    Signs(h, h);
    Signs(Times(h, h), va);
    if va > 0.0 && vd > 0.0 {
      RootIsPositive(sqrt, va, vd);
      var root := sqrt(Times(va, vd));
      Signs(h, root);
      SquareOfProduct(h, root);
      assert Times(Times(h, h), Times(va, vd)) == Times(Times(Times(g, g), va), vd);
      RootOfSquare(sqrt, Times(h, root), Times(Times(Times(g, g), va), vd));
      Cancels(g, h, cov, root);
    }
  }

  lemma Cancels(g: real, h: real, cov: real, root: real)
    requires h > 0.0 && root > 0.0 && (g == h || g == -h) && Times(h, root) > 0.0
    ensures Times(g, cov) / Times(h, root) == if g == h then cov / root else -(cov / root)
  {
    var q := cov / root;
    assert cov == Times(q, root);
    assert Times(h, Times(q, root)) == Times(q, Times(h, root));
    assert Times(-h, cov) == -Times(h, cov);
  }

  /** Which side is which does not matter. */
  lemma {:induction false} CovariationIsSymmetric(a: seq<real>, b: seq<real>, ma: real, mb: real, n: nat)
    requires n <= |a| == |b|
    ensures Covariation(a, b, ma, mb, n) == Covariation(b, a, mb, ma, n)
  {
    if n > 0 { CovariationIsSymmetric(a, b, ma, mb, n - 1); }
  }

  lemma PearsonIsSymmetric(sqrt: real -> real, a: seq<real>, b: seq<real>)
    requires IsSquareRoot(sqrt) && a != [] && |a| == |b|
    ensures Pearson(sqrt, a, b) == Pearson(sqrt, b, a)
  {
    var ma, mb := RealMean(a), RealMean(b);
    CovariationIsSymmetric(a, b, ma, mb, |a|);
    var va, vb := Covariation(a, a, ma, ma, |a|), Covariation(b, b, mb, mb, |a|);
    assert Times(va, vb) == Times(vb, va);
  }

  // ---- Constant series ----

  lemma {:induction false} SumOfConstant(a: seq<real>, n: nat)
    requires a != [] && Constant(a) && n <= |a|
    ensures RealSum(a, n) == Times(a[0], n as real)
  {
    if n > 0 {
      SumOfConstant(a, n - 1);
      Distribute(a[0], (n - 1) as real, 1.0);
      One(a[0]);
    }
  }

  /** A series varies about m unless all of it is m. */
  lemma {:induction false} VariesUnlessConstant(a: seq<real>, m: real, n: nat)
    requires n <= |a|
    ensures Covariation(a, a, m, m, n) >= 0.0
    ensures Covariation(a, a, m, m, n) == 0.0 <==> forall k :: 0 <= k < n ==> a[k] == m
  {
    if n > 0 {
      VariesUnlessConstant(a, m, n - 1);
      var d := a[n - 1] - m;
      Signs(d, d);
      Signs(-d, -d);
      assert Times(-d, -d) == Times(d, d);
    }
  }

  lemma VariationIsZeroExactly(a: seq<real>)
    requires a != []
    ensures Covariation(a, a, RealMean(a), RealMean(a), |a|) <= 0.0 <==> Constant(a)
  {
    VariesUnlessConstant(a, RealMean(a), |a|);
    if Constant(a) {
      SumOfConstant(a, |a|);
      Quotients(a[0], RealSum(a, |a|), |a| as real);
    }
  }

  lemma Quotients(x: real, s: real, n: real)
    requires n > 0.0 && s == Times(x, n)
    ensures s / n == x
  {
  }

  /** A constant series correlates with nothing, on either side. */
  lemma ConstantsCorrelateWithNothing(sqrt: real -> real, a: seq<real>, b: seq<real>)
    requires IsSquareRoot(sqrt) && a != [] && |a| == |b| && (Constant(a) || Constant(b))
    ensures Pearson(sqrt, a, b) == 0.0
  {
    VariationIsZeroExactly(a);
    VariationIsZeroExactly(b);
  }

  /** Any other series correlates perfectly with itself. */
  lemma SelfCorrelation(sqrt: real -> real, a: seq<real>)
    requires IsSquareRoot(sqrt) && a != [] && !Constant(a)
    ensures Pearson(sqrt, a, a) == 1.0
  {
    VariationIsZeroExactly(a);
    var v := Covariation(a, a, RealMean(a), RealMean(a), |a|);
    RootOfSquare(sqrt, v, Times(v, v));
    One(v);
    Quotients(1.0, v, v);
  }

  /** And with any copy of itself, at any gain and offset: 1 for a positive gain, -1 for a negative one. */
  lemma EchoesCorrelatePerfectly(sqrt: real -> real, a: seq<real>, b: seq<real>, g: real, c: real)
    requires IsSquareRoot(sqrt) && Affine(a, b, g, c) && a != [] && g != 0.0 && !Constant(a)
    ensures Pearson(sqrt, b, a) == Pearson(sqrt, a, b) == if g > 0.0 then 1.0 else -1.0
  {
    SelfCorrelation(sqrt, a);
    GainAndOffset(sqrt, a, b, a, g, c);
    PearsonIsSymmetric(sqrt, a, b);
  }

  /** In general its square is the share of the variation that is common, and its sign that of the covariation. */
  lemma SquareIsTheCommonShare(sqrt: real -> real, a: seq<real>, b: seq<real>)
    requires IsSquareRoot(sqrt) && a != [] && |a| == |b| && !Constant(a) && !Constant(b)
    ensures var ma, mb, r := RealMean(a), RealMean(b), Pearson(sqrt, a, b);
            var cov := Covariation(a, b, ma, mb, |a|);
            && Times(Times(r, r), Times(Covariation(a, a, ma, ma, |a|), Covariation(b, b, mb, mb, |a|)))
               == Times(cov, cov)
            && (r > 0.0 <==> cov > 0.0) && (r < 0.0 <==> cov < 0.0)
  {
    VariationIsZeroExactly(a);
    VariationIsZeroExactly(b);
    var ma, mb := RealMean(a), RealMean(b);
    var va, vb := Covariation(a, a, ma, ma, |a|), Covariation(b, b, mb, mb, |a|);
    RootIsPositive(sqrt, va, vb);
    var root, cov, r := sqrt(Times(va, vb)), Covariation(a, b, ma, mb, |a|), Pearson(sqrt, a, b);
    assert r == Coefficient(sqrt, cov, va, vb) == cov / root;
    TimesRoot(r, cov, root);
    SquareOfProduct(r, root);
    SignOfProduct(r, root);
  }

  lemma TimesRoot(r: real, cov: real, root: real)
    requires root > 0.0 && r == cov / root
    ensures Times(r, root) == cov
  {
  }

  lemma SignOfProduct(r: real, root: real)
    requires root > 0.0
    ensures (Times(r, root) > 0.0 <==> r > 0.0) && (Times(r, root) < 0.0 <==> r < 0.0)
  {
    Signs(r, root);
    Signs(-r, root);
  }
}
