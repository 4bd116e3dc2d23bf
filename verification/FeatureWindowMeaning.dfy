/** What each statistic of the window is, evaluated without rounding. */
module FeatureWindowMeaning {
  import opened FeatureWindow
  import opened FeatureWindowTheorems
  import opened RealFacts

  /** Compares what expressions come to. */
  ghost predicate ByValue(m: Machine, order: Order)
  {
    && (forall x, y :: order.less(x, y) <==> Value(m, x) < Value(m, y))
    && (forall x, y :: order.atMost(x, y) <==> Value(m, x) <= Value(m, y))
  }

  /** The window's measurements as numbers, oldest first. */
  datatype Series = Series(energy: seq<real>, rms: seq<real>, zcr: seq<real>, clip: seq<real>)

  ghost predicate Reads(m: Machine, s: seq<Features>, x: Series)
  {
    && |x.energy| == |x.rms| == |x.zcr| == |x.clip| == |s|
    && forall k :: 0 <= k < |s| ==>
         && x.energy[k] == Value(m, s[k].energy) && x.rms[k] == Value(m, s[k].rms)
         && x.zcr[k] == Value(m, s[k].zcr) && x.clip[k] == Value(m, s[k].clipRatio)
  }

  ghost predicate ReadsField(m: Machine, field: Field, s: seq<Features>, xs: seq<real>)
  {
    |xs| == |s| && forall k :: 0 <= k < |s| ==> xs[k] == Value(m, Get(field, s[k]))
  }

  lemma {:induction false} SumIs(m: Machine, field: Field, s: seq<Features>, xs: seq<real>, from: nat, to: nat)
    requires Exact(m) && ReadsField(m, field, s, xs) && from <= to <= |s|
    ensures Value(m, Sum(field, s, from, to)) == RealSum(xs[from..to], to - from)
  {
    if from < to {
      SumIs(m, field, s, xs, from, to - 1);
      SumOfPrefix(xs[from..to], to - 1 - from);
      assert xs[from..to][..to - 1 - from] == xs[from..to - 1];
    }
  }

  lemma {:induction false} SumOfPrefix(xs: seq<real>, n: nat)
    requires n <= |xs|
    ensures RealSum(xs, n) == RealSum(xs[..n], n)
    decreases n
  {
    if n > 0 {
      SumOfPrefix(xs, n - 1);
      SumOfPrefix(xs[..n], n - 1);
      assert xs[..n][..n - 1] == xs[..n - 1];
    }
  }

  lemma PartIs(m: Machine, field: Field, s: seq<Features>, xs: seq<real>, from: nat, to: nat)
    requires Exact(m) && ReadsField(m, field, s, xs) && from < to <= |s|
    ensures Value(m, Div(Sum(field, s, from, to), Whole(to - from))) == RealMean(xs[from..to])
  {
    SumIs(m, field, s, xs, from, to);
    assert Value(m, Whole(to - from)) == (to - from) as real;
    QuotientIs(m, Sum(field, s, from, to), Whole(to - from));
  }

  lemma MeanIs(m: Machine, field: Field, s: seq<Features>, xs: seq<real>, from: nat)
    requires Exact(m) && ReadsField(m, field, s, xs) && from < |s|
    ensures Value(m, Mean(field, s, from)) == RealMean(xs[from..])
  {
    PartIs(m, field, s, xs, from, |s|);
    assert xs[from..|s|] == xs[from..];
  }

  // ---- The trend ----

  /** How far the newer half's mean lies above the older frames', as a share of the mean of all. */
  ghost function RealTrend(xs: seq<real>): real
    requires |xs| >= 4 && RealMean(xs) != 0.0
  {
    var older := |xs| - |xs| / 2;
    (RealMean(xs[older..]) - RealMean(xs[..older])) / RealMean(xs)
  }

  lemma PartsOfTrend(m: Machine, s: seq<Features>, xs: seq<real>, older: nat)
    requires Exact(m) && ReadsField(m, Energy, s, xs) && 0 < older < |s|
    ensures Value(m, Div(Sum(Energy, s, older, |s|), Whole(|s| - older))) == RealMean(xs[older..])
    ensures Value(m, Div(Sum(Energy, s, 0, older), Whole(older))) == RealMean(xs[..older])
    ensures Value(m, Mean(Energy, s, 0)) == RealMean(xs)
  {
    PartIs(m, Energy, s, xs, older, |s|);
    PartIs(m, Energy, s, xs, 0, older);
    MeanIs(m, Energy, s, xs, 0);
    assert xs[older..|s|] == xs[older..] && xs[0..older] == xs[..older] && xs[0..] == xs;
  }

  lemma TrendIs(m: Machine, s: seq<Features>, xs: seq<real>)
    requires Exact(m) && ReadsField(m, Energy, s, xs) && |s| >= 4 && RealMean(xs) != 0.0
    ensures Value(m, Trend(s)) == RealTrend(xs)
  {
    var half := |s| / 2;
    var older := |s| - half;
    PartsOfTrend(m, s, xs, older);
    RiseIs(m, Div(Sum(Energy, s, older, |s|), Whole(half)), Div(Sum(Energy, s, 0, older), Whole(older)),
           Mean(Energy, s, 0), RealMean(xs[older..]), RealMean(xs[..older]), RealMean(xs));
  }

  lemma RiseIs(m: Machine, a: Float, b: Float, c: Float, x: real, y: real, z: real)
    requires Exact(m) && Value(m, a) == x && Value(m, b) == y && Value(m, c) == z && z != 0.0
    ensures Value(m, Div(Sub(a, b), c)) == (x - y) / z
  {
    QuotientIs(m, Sub(a, b), c);
  }

  // ---- The extremes ----

  ghost predicate IsLeast(xs: seq<real>, x: real)
  {
    x in xs && forall y :: y in xs ==> x <= y
  }

  ghost predicate IsGreatest(xs: seq<real>, x: real)
  {
    x in xs && forall y :: y in xs ==> y <= x
  }

  lemma {:induction false} LowestIs(m: Machine, order: Order, s: seq<Features>, xs: seq<real>, to: nat)
    requires ByValue(m, order) && ReadsField(m, Rms, s, xs) && 0 < to <= |s|
    requires forall k :: 0 <= k < to ==> xs[k] < m.maxFloat
    ensures IsLeast(xs[..to], Value(m, Lowest(order, s, to)))
  {
    var x := xs[to - 1];
    assert xs[..to] == xs[..to - 1] + [x];
    if to > 1 {
      LowestIs(m, order, s, xs, to - 1);
    } else {
      assert Value(m, MaxFloat) == m.maxFloat;
    }
  }

  lemma {:induction false} HighestIs(m: Machine, order: Order, s: seq<Features>, xs: seq<real>, to: nat)
    requires Exact(m) && ByValue(m, order) && ReadsField(m, Rms, s, xs) && 0 < to <= |s|
    requires forall k :: 0 <= k < to ==> xs[k] >= 0.0
    ensures IsGreatest(xs[..to], Value(m, Highest(order, s, to)))
  {
    var x := xs[to - 1];
    assert xs[..to] == xs[..to - 1] + [x];
    if to > 1 {
      HighestIs(m, order, s, xs, to - 1);
    } else {
      assert Value(m, ZERO) == 0.0;
    }
  }

  lemma {:induction false} SynthesisedIsCount(s: seq<Features>, to: nat)
    requires to <= |s|
    ensures Synthesised(s, to) == |set k | 0 <= k < to && s[k].synthesised|
  {
    if to > 0 {
      SynthesisedIsCount(s, to - 1);
      var before, all := set k | 0 <= k < to - 1 && s[k].synthesised, set k | 0 <= k < to && s[k].synthesised;
      if s[to - 1].synthesised { assert all == before + {to - 1}; } else { assert all == before; }
    }
  }

  // ---- The report ----

  lemma VariationIs(m: Machine, s: seq<Features>, xs: seq<real>)
    requires Exact(m) && ReadsField(m, Energy, s, xs) && s != [] && RealMean(xs) != 0.0
    ensures Value(m, Variation(s, 0)) == RealVariation(m.sqrt, xs)
  {
    assert Energies(m, s) == xs;
    ValueOfVariation(m, s);
  }

  /**
   Evaluated without rounding, of levels that are not negative: the four means are means of their
   own measurements, the extremes are the least and the greatest level, and the shape is the
   variation of the energy and its trend, or nothing where there is no energy.
   */
  lemma StatsMeanWhatTheySay(m: Machine, order: Order, s: seq<Features>, x: Series)
    requires Exact(m) && ByValue(m, order) && Reads(m, s, x) && s != []
    requires forall k :: 0 <= k < |s| ==> 0.0 <= x.rms[k] < m.maxFloat
    ensures var r, mean := StatsOf(order, s), RealMean(x.energy);
            && r.frames == |s|
            && r.span == s[|s| - 1].timestamp + s[|s| - 1].duration - s[0].timestamp
            && Value(m, r.meanEnergy) == mean && Value(m, r.meanRms) == RealMean(x.rms)
            && Value(m, r.meanZcr) == RealMean(x.zcr) && Value(m, r.clipRatio) == RealMean(x.clip)
            && IsLeast(x.rms, Value(m, r.minRms)) && IsGreatest(x.rms, Value(m, r.maxRms))
            && Value(m, r.energyModulation) == (if mean > 0.0 then RealVariation(m.sqrt, x.energy) else 0.0)
            && Value(m, r.trend) == (if mean > 0.0 && |s| >= 4 then RealTrend(x.energy) else 0.0)
            && r.synthesisedFrames == |set k | 0 <= k < |s| && s[k].synthesised|
  {
    MeanIs(m, Energy, s, x.energy, 0);
    MeanIs(m, Rms, s, x.rms, 0);
    MeanIs(m, Zcr, s, x.zcr, 0);
    MeanIs(m, Clip, s, x.clip, 0);
    assert x.energy[0..] == x.energy && x.rms[0..] == x.rms && x.zcr[0..] == x.zcr && x.clip[0..] == x.clip;
    assert x.rms[..|s|] == x.rms;
    LowestIs(m, order, s, x.rms, |s|);
    HighestIs(m, order, s, x.rms, |s|);
    SynthesisedIsCount(s, |s|);
    assert Value(m, ZERO) == 0.0;
    if RealMean(x.energy) > 0.0 {
      VariationIs(m, s, x.energy);
      if |s| >= 4 { TrendIs(m, s, x.energy); }
    }
  }

  /** Of no frames there is nothing to say. */
  lemma NothingIsSaidOfNothing(m: Machine, order: Order)
    requires Exact(m)
    ensures var r := StatsOf(order, []);
            && r.frames == 0 && r.span == 0 && r.synthesisedFrames == 0
            && Value(m, r.meanEnergy) == Value(m, r.meanRms) == Value(m, r.meanZcr) == Value(m, r.clipRatio) == 0.0
            && Value(m, r.minRms) == Value(m, r.maxRms) == 0.0
            && Value(m, r.energyModulation) == Value(m, r.trend) == 0.0
  {
    assert Value(m, ZERO) == 0.0;
  }

  /** The short-window modulation is the variation of its own newest n energies, or nothing where there is none. */
  lemma RecentModulationMeansVariation(m: Machine, order: Order, s: seq<Features>, xs: seq<real>, n: nat)
    requires Exact(m) && ByValue(m, order) && ReadsField(m, Energy, s, xs) && 1 < n <= |s|
    ensures var recent := xs[|s| - n..];
            Value(m, RecentModulationOf(order, s, n))
            == if RealMean(recent) > 0.0 then RealVariation(m.sqrt, recent) else 0.0
  {
    var older, newest := s[..|s| - n], s[|s| - n..];
    assert s == older + newest;
    RecentModulationIsLocal(order, older, newest);
    MeanIs(m, Energy, newest, xs[|s| - n..], 0);
    assert xs[|s| - n..][0..] == xs[|s| - n..];
    assert Value(m, ZERO) == 0.0;
    if RealMean(xs[|s| - n..]) > 0.0 {
      VariationIs(m, newest, xs[|s| - n..]);
    }
  }
}
