/** What the window's statistics depend on, and what they mean over the reals. */
module FeatureWindowTheorems {
  import opened FeatureWindow
  import opened RealFacts
  import Ring

  // ---- Reproducibility ----

  /** What a window of this capacity holds after the whole history has been pushed. */
  function Held(capacity: nat, history: seq<Features>): seq<Features>
  {
    if history == [] then []
    else Ring.Last(Held(capacity, history[..|history| - 1]) + [history[|history| - 1]], capacity)
  }

  lemma {:induction false} HeldIsTheNewest(capacity: nat, history: seq<Features>)
    requires 0 < capacity
    ensures Held(capacity, history) == Ring.Last(history, capacity)
  {
    if history != [] {
      var before := history[..|history| - 1];
      HeldIsTheNewest(capacity, before);
      assert history == before + [history[|history| - 1]];
      Ring.LastOfLast(before, history[|history| - 1], capacity);
    }
  }

  /** Sessions of any length that end with the same capacity-many frames report the same statistics. */
  lemma StatsForgetHistory(order: Order, capacity: nat, long: seq<Features>, short: seq<Features>)
    requires 0 < capacity && capacity <= |short| <= |long|
    requires long[|long| - capacity..] == short[|short| - capacity..]
    ensures StatsOf(order, Held(capacity, long)) == StatsOf(order, Held(capacity, short))
    ensures forall n :: RecentModulationOf(order, Held(capacity, long), n)
                        == RecentModulationOf(order, Held(capacity, short), n)
  {
    HeldIsTheNewest(capacity, long);
    HeldIsTheNewest(capacity, short);
  }

  lemma {:induction false} FoldsShift(a: seq<Features>, b: seq<Features>, mean: Float, from: nat, to: nat)
    requires from <= to <= |b|
    ensures Sum(Energy, a + b, |a| + from, |a| + to) == Sum(Energy, b, from, to)
    ensures SumSquaredDeviation(a + b, mean, |a| + from, |a| + to) == SumSquaredDeviation(b, mean, from, to)
  {
    if from < to {
      FoldsShift(a, b, mean, from, to - 1);
    }
  }

  /** The short-window modulation reads nothing older than its own n frames, whatever the capacity. */
  lemma RecentModulationIsLocal(order: Order, older: seq<Features>, recent: seq<Features>)
    ensures RecentModulationOf(order, older + recent, |recent|) == RecentModulationOf(order, recent, |recent|)
  {
    var mean := Mean(Energy, recent, 0);
    FoldsShift(older, recent, mean, 0, |recent|);
  }

  // ---- The recent minimum does not depend on the direction of the walk ----

  /** An order of values: expressions of equal value may differ, and then neither is less. */
  ghost predicate StrictWeak(less: (Float, Float) -> bool)
  {
    && (forall x, y :: less(x, y) ==> !less(y, x))
    && (forall x, y, z :: less(x, y) ==> less(x, z) || less(z, y))
  }

  ghost predicate IsMinimum(order: Order, s: seq<Features>, m: Float)
  {
    && (m == MaxFloat || exists k :: 0 <= k < |s| && s[k].rms == m)
    && !order.less(MaxFloat, m)
    && forall k :: 0 <= k < |s| ==> !order.less(s[k].rms, m)
  }

  lemma {:induction false} LowestIsMinimum(order: Order, s: seq<Features>, to: nat)
    requires StrictWeak(order.less) && to <= |s|
    ensures IsMinimum(order, s[..to], Lowest(order, s, to))
  {
    if to > 0 {
      LowestIsMinimum(order, s, to - 1);
      var rest, x := Lowest(order, s, to - 1), s[to - 1].rms;
      assert forall k :: 0 <= k < to - 1 ==> s[..to][k] == s[..to - 1][k];
      assert s[..to][to - 1].rms == x;
      if !order.less(x, rest) && rest != MaxFloat {
        var k :| 0 <= k < to - 1 && s[..to - 1][k].rms == rest;
        assert s[..to][k].rms == rest;
      }
    }
  }

  lemma {:induction false} LowestBackwardIsMinimum(order: Order, s: seq<Features>, from: nat)
    requires StrictWeak(order.less) && from <= |s|
    ensures IsMinimum(order, s[from..], LowestBackward(order, s, from))
    decreases |s| - from
  {
    if from < |s| {
      LowestBackwardIsMinimum(order, s, from + 1);
      var rest, x := LowestBackward(order, s, from + 1), s[from].rms;
      assert forall k :: 1 <= k < |s| - from ==> s[from..][k] == s[from + 1..][k - 1];
      assert s[from..][0].rms == x;
      if !order.less(x, rest) && rest != MaxFloat {
        var k :| 0 <= k < |s| - from - 1 && s[from + 1..][k].rms == rest;
        assert s[from..][k + 1].rms == rest;
      }
    }
  }

  /** Unlike a sum, a minimum carries no order: whatever the machine's comparison, neither walk finds less. */
  lemma MinimumHasNoDirection(order: Order, s: seq<Features>)
    requires StrictWeak(order.less)
    ensures !order.less(LowestBackward(order, s, 0), Lowest(order, s, |s|))
    ensures !order.less(Lowest(order, s, |s|), LowestBackward(order, s, 0))
  {
    LowestIsMinimum(order, s, |s|);
    LowestBackwardIsMinimum(order, s, 0);
    assert s[..|s|] == s && s[0..] == s;
  }

  // ---- Over the reals, the modulation is dimensionless ----

  /** What a machine makes of each operation. */
  datatype Machine = Machine(
    measured: int -> real,
    whole: int -> real,
    maxFloat: real,
    add: (real, real) -> real,
    sub: (real, real) -> real,
    mul: (real, real) -> real,
    div: (real, real) -> real,
    sqrt: real -> real)

  function Value(m: Machine, x: Float): real
  {
    match x
    case Measured(bits) => m.measured(bits)
    case Whole(n) => m.whole(n)
    case MaxFloat => m.maxFloat
    case Add(a, b) => m.add(Value(m, a), Value(m, b))
    case Sub(a, b) => m.sub(Value(m, a), Value(m, b))
    case Mul(a, b) => m.mul(Value(m, a), Value(m, b))
    case Div(a, b) => m.div(Value(m, a), Value(m, b))
    case Sqrt(a) => m.sqrt(Value(m, a))
  }

  /** A machine that compares what its expressions come to finds the same minimum either way, rounding or not. */
  lemma MinimumByValue(m: Machine, order: Order, s: seq<Features>)
    requires forall x, y :: order.less(x, y) <==> Value(m, x) < Value(m, y)
    ensures Value(m, LowestBackward(order, s, 0)) == Value(m, Lowest(order, s, |s|))
  {
    MinimumHasNoDirection(order, s);
  }

  /** A machine that does not round. */
  ghost predicate Exact(m: Machine)
  {
    && (forall n :: m.whole(n) == n as real)
    && (forall x, y :: m.add(x, y) == x + y)
    && (forall x, y :: m.sub(x, y) == x - y)
    && (forall x, y :: m.mul(x, y) == x * y)
    && (forall x, y :: y != 0.0 ==> m.div(x, y) == x / y)
    && IsSquareRoot(m.sqrt)
  }

  function Energies(m: Machine, s: seq<Features>): (r: seq<real>)
    ensures |r| == |s|
  {
    seq(|s|, k requires 0 <= k < |s| => Value(m, s[k].energy))
  }

  function Square(x: real): (r: real)
    ensures r >= 0.0
  {
    x * x
  }

  function RealDeviation(s: seq<real>, mean: real, to: nat): (r: real)
    requires to <= |s|
    ensures r >= 0.0
  {
    if to == 0 then 0.0 else RealDeviation(s, mean, to - 1) + Square(s[to - 1] - mean)
  }

  ghost function RealVariation(sqrt: real -> real, s: seq<real>): real
    requires s != [] && RealSum(s, |s|) != 0.0
  {
    RelativeDeviation(sqrt, RealDeviation(s, RealMean(s), |s|), RealMean(s), |s| as real)
  }

  ghost function RelativeDeviation(sqrt: real -> real, dev: real, mean: real, n: real): real
    requires mean != 0.0 && n > 0.0
  {
    sqrt(dev / n) / mean
  }

  lemma {:induction false} ValueOfSum(m: Machine, s: seq<Features>, to: nat)
    requires Exact(m) && to <= |s|
    ensures Value(m, Sum(Energy, s, 0, to)) == RealSum(Energies(m, s), to)
  {
    if to > 0 {
      ValueOfSum(m, s, to - 1);
    }
  }

  lemma {:induction false} ValueOfDeviation(m: Machine, s: seq<Features>, mean: Float, to: nat)
    requires Exact(m) && to <= |s|
    ensures Value(m, SumSquaredDeviation(s, mean, 0, to)) == RealDeviation(Energies(m, s), Value(m, mean), to)
  {
    if to > 0 {
      ValueOfDeviation(m, s, mean, to - 1);
      var d := Value(m, s[to - 1].energy) - Value(m, mean);
      assert Value(m, Sub(s[to - 1].energy, mean)) == d;
      assert m.mul(d, d) == Square(d);
    }
  }

  lemma QuotientIs(m: Machine, x: Float, y: Float)
    requires Exact(m) && Value(m, y) != 0.0
    ensures Value(m, Div(x, y)) == Value(m, x) / Value(m, y)
  {
  }

  lemma ValueOfMean(m: Machine, s: seq<Features>)
    requires Exact(m) && s != []
    ensures Value(m, Mean(Energy, s, 0)) == RealMean(Energies(m, s))
  {
    ValueOfSum(m, s, |s|);
    assert Value(m, Whole(|s|)) == |s| as real;
    QuotientIs(m, Sum(Energy, s, 0, |s|), Whole(|s|));
  }

  lemma ValueOfSpread(m: Machine, s: seq<Features>, mean: Float)
    requires Exact(m) && s != []
    ensures Value(m, Sqrt(Div(SumSquaredDeviation(s, mean, 0, |s|), Whole(|s|))))
            == m.sqrt(RealDeviation(Energies(m, s), Value(m, mean), |s|) / |s| as real)
  {
    ValueOfDeviation(m, s, mean, |s|);
    assert Value(m, Whole(|s|)) == |s| as real;
    QuotientIs(m, SumSquaredDeviation(s, mean, 0, |s|), Whole(|s|));
  }

  /** Evaluated exactly, the window's modulation is the coefficient of variation. */
  lemma ValueOfVariation(m: Machine, s: seq<Features>)
    requires Exact(m) && s != [] && RealSum(Energies(m, s), |s|) != 0.0
    ensures Value(m, Variation(s, 0)) == RealVariation(m.sqrt, Energies(m, s))
  {
    var mean := Mean(Energy, s, 0);
    ValueOfMean(m, s);
    ValueOfSpread(m, s, mean);
    QuotientIs(m, Sqrt(Div(SumSquaredDeviation(s, mean, 0, |s|), Whole(|s|))), mean);
  }

  lemma {:induction false} SumScales(s: seq<real>, t: seq<real>, gain: real, to: nat)
    requires |s| == |t| && to <= |s| && forall k :: 0 <= k < |s| ==> t[k] == gain * s[k]
    ensures RealSum(t, to) == gain * RealSum(s, to)
  {
    if to > 0 {
      SumScales(s, t, gain, to - 1);
      Distribute(gain, RealSum(s, to - 1), s[to - 1]);
    }
  }

  lemma {:induction false} DeviationScales(s: seq<real>, t: seq<real>, gain: real, mean: real, loudMean: real, to: nat)
    requires |s| == |t| && to <= |s| && forall k :: 0 <= k < |s| ==> t[k] == gain * s[k]
    requires loudMean == gain * mean
    ensures RealDeviation(t, loudMean, to) == gain * gain * RealDeviation(s, mean, to)
  {
    if to > 0 {
      DeviationScales(s, t, gain, mean, loudMean, to - 1);
      var d := s[to - 1] - mean;
      Distribute(gain, s[to - 1], mean);
      SquareScales(gain, d, t[to - 1] - loudMean);
      Distribute(gain * gain, RealDeviation(s, mean, to - 1), Square(d));
    }
  }

  lemma SquareScales(gain: real, d: real, e: real)
    requires e == gain * d
    ensures Square(e) == gain * gain * Square(d)
  {
  }

  lemma RootScales(sqrt: real -> real, gain: real, v: real)
    requires IsSquareRoot(sqrt) && gain > 0.0 && v >= 0.0
    ensures sqrt(gain * gain * v) == gain * sqrt(v)
  {
    var r := sqrt(v);
    SquareScales(gain, r, gain * r);
    ProductsOfPositives(gain, v, r);
    var a, b := sqrt(gain * gain * v), gain * r;
    assert Square(a) == Square(b);
    if a < b { LargerSquare(a, b); }
    if b < a { LargerSquare(b, a); }
  }

  lemma ProductsOfPositives(gain: real, v: real, r: real)
    requires gain > 0.0 && v >= 0.0 && r >= 0.0
    ensures gain * gain * v >= 0.0 && gain * r >= 0.0
  {
  }

  lemma RatioScales(gain: real, a: real, m: real)
    requires gain > 0.0 && m != 0.0
    ensures gain * m != 0.0 && (gain * a) / (gain * m) == a / m
  {
  }

  lemma MeanScales(gain: real, sum: real, n: real)
    requires n > 0.0
    ensures (gain * sum) / n == gain * (sum / n)
    ensures sum >= 0.0 ==> sum / n >= 0.0
  {
  }

  lemma RealVariationScales(sqrt: real -> real, s: seq<real>, t: seq<real>, gain: real)
    requires IsSquareRoot(sqrt) && gain > 0.0 && s != [] && RealSum(s, |s|) != 0.0
    requires |s| == |t| && forall k :: 0 <= k < |s| ==> t[k] == gain * s[k]
    ensures RealSum(t, |t|) != 0.0
    ensures RealVariation(sqrt, t) == RealVariation(sqrt, s)
  {
    RealMeanScales(s, t, gain);
    DeviationScales(s, t, gain, RealMean(s), RealMean(t), |s|);
    RelativeDeviationScales(sqrt, RealDeviation(s, RealMean(s), |s|), RealMean(s),
                            RealDeviation(t, RealMean(t), |t|), RealMean(t), |s| as real, gain);
  }

  lemma RealMeanScales(s: seq<real>, t: seq<real>, gain: real)
    requires s != [] && |s| == |t| && forall k :: 0 <= k < |s| ==> t[k] == gain * s[k]
    ensures RealMean(t) == gain * RealMean(s)
  {
    SumScales(s, t, gain, |s|);
    MeanScales(gain, RealSum(s, |s|), |s| as real);
  }

  lemma RelativeDeviationScales(
    sqrt: real -> real, dev: real, mean: real, loudDev: real, loudMean: real, n: real, gain: real)
    requires IsSquareRoot(sqrt) && gain > 0.0 && dev >= 0.0 && mean != 0.0 && n > 0.0
    requires loudDev == gain * gain * dev && loudMean == gain * mean
    ensures loudMean != 0.0
    ensures RelativeDeviation(sqrt, loudDev, loudMean, n) == RelativeDeviation(sqrt, dev, mean, n)
  {
    var v, louder := dev / n, loudDev / n;
    assert v >= 0.0 && louder == gain * gain * v by { MeanScales(gain * gain, dev, n); }
    assert sqrt(louder) == gain * sqrt(v) by { RootScales(sqrt, gain, v); }
    RatioScales(gain, sqrt(v), mean);
  }

  /** The modulation means the same thing at any input level: a gain leaves it unchanged. */
  lemma ModulationIsDimensionless(m: Machine, s: seq<Features>, t: seq<Features>, gain: real)
    requires Exact(m) && gain > 0.0 && s != [] && |s| == |t|
    requires forall k :: 0 <= k < |s| ==> Value(m, t[k].energy) == gain * Value(m, s[k].energy)
    requires Value(m, Sum(Energy, s, 0, |s|)) != 0.0
    ensures Value(m, Variation(t, 0)) == Value(m, Variation(s, 0))
  {
    var quiet, loud := Energies(m, s), Energies(m, t);
    assert RealSum(quiet, |s|) != 0.0 by { ValueOfSum(m, s, |s|); }
    RealVariationScales(m.sqrt, quiet, loud, gain);
    ValueOfVariation(m, s);
    ValueOfVariation(m, t);
  }
}
