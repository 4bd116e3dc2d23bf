/**
 Small facts about products of reals. A product is written Times(a, b) where a sum inside
 it must not be multiplied out.
 */
module RealFacts {

  function Times(a: real, b: real): real
  {
    a * b
  }

  lemma One(a: real)
    ensures Times(a, 1.0) == a == Times(1.0, a)
  {
  }

  lemma Signs(a: real, b: real)
    ensures a > 0.0 && b > 0.0 ==> Times(a, b) > 0.0
    ensures a >= 0.0 && b >= 0.0 ==> Times(a, b) >= 0.0
    ensures Times(a, a) >= 0.0
  {
  }

  lemma Distribute(a: real, b: real, c: real)
    ensures Times(a, b + c) == Times(a, b) + Times(a, c)
    ensures Times(a, b - c) == Times(a, b) - Times(a, c)
    ensures Times(b, a) == Times(a, b)
  {
  }

  lemma Monotone(a: real, b: real, c: real)
    requires a <= b && c >= 0.0
    ensures Times(a, c) <= Times(b, c) && Times(c, a) <= Times(c, b)
  {
  }

  lemma LargerSquare(v: real, w: real)
    requires 0.0 <= v < w
    ensures Times(v, v) < Times(w, w)
  {
    Monotone(v, w, v);
    Signs(w, w - v);
    Distribute(w, w, v);
  }

  /** A proper share of a difference lies strictly between nothing and all of it. */
  lemma Share(alpha: real, d: real)
    requires 0.0 < alpha < 1.0
    ensures d > 0.0 ==> 0.0 < Times(alpha, d) < d
    ensures d < 0.0 ==> d < Times(alpha, d) < 0.0
    ensures Times(alpha, d) - d == Times(1.0 - alpha, -d)
  {
  }

  function RealSum(s: seq<real>, to: nat): real
    requires to <= |s|
  {
    if to == 0 then 0.0 else RealSum(s, to - 1) + s[to - 1]
  }

  function RealMean(s: seq<real>): (r: real)
    requires s != []
    ensures r != 0.0 <==> RealSum(s, |s|) != 0.0
  {
    RealSum(s, |s|) / |s| as real
  }

  ghost predicate IsSquareRoot(sqrt: real -> real)
  {
    forall x: real :: x >= 0.0 ==> sqrt(x) >= 0.0 && Times(sqrt(x), sqrt(x)) == x
  }

  function Power(b: real, n: nat): real
  {
    if n == 0 then 1.0 else Times(b, Power(b, n - 1))
  }

  lemma {:induction false} PowerBounds(b: real, n: nat)
    requires b > 0.0
    ensures Power(b, n) > 0.0
    ensures b >= 1.0 ==> Power(b, n) >= 1.0
  {
    if n > 0 {
      PowerBounds(b, n - 1);
      Signs(b, Power(b, n - 1));
      if b >= 1.0 { Monotone(1.0, b, Power(b, n - 1)); }
    }
  }
}
