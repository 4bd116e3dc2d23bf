/**
 A window of the newest frames and the statistics taken over it.

 Rounding makes the order of a summation part of its answer. So a value here is the whole
 computation behind it: equal values are the same operations on the same measurements in the
 same order, which any one machine evaluates to the same bits. How a machine compares two
 values is a parameter.
 */
module FeatureWindow {
  import opened Frames
  import Ring

  datatype Float =
    | Measured(bits: int)
    | Whole(n: int)
    | MaxFloat
    | Add(left: Float, right: Float)
    | Sub(left: Float, right: Float)
    | Mul(left: Float, right: Float)
    | Div(left: Float, right: Float)
    | Sqrt(of: Float)

  /** How the machine orders computed values. No law is assumed. */
  datatype Order = Order(less: (Float, Float) -> bool, atMost: (Float, Float) -> bool)

  const ZERO: Float := Whole(0)

  type Features = Frame<Float>

  datatype Field = Energy | Rms | Zcr | Clip

  function Get(field: Field, f: Features): Float
  {
    match field
    case Energy => f.energy
    case Rms => f.rms
    case Zcr => f.zcr
    case Clip => f.clipRatio
  }

  // ---- The statistics, as folds over s[from..to] from the oldest frame to the newest ----

  function Sum(field: Field, s: seq<Features>, from: nat, to: nat): Float
    requires from <= to <= |s|
  {
    if from == to then ZERO
    else Add(Sum(field, s, from, to - 1), Get(field, s[to - 1]))
  }

  function SumSquaredDeviation(s: seq<Features>, mean: Float, from: nat, to: nat): Float
    requires from <= to <= |s|
  {
    if from == to then ZERO
    else
      var d := Sub(s[to - 1].energy, mean);
      Add(SumSquaredDeviation(s, mean, from, to - 1), Mul(d, d))
  }

  function Lowest(order: Order, s: seq<Features>, to: nat): Float
    requires to <= |s|
  {
    if to == 0 then MaxFloat
    else
      var rest := Lowest(order, s, to - 1);
      if order.less(s[to - 1].rms, rest) then s[to - 1].rms else rest
  }

  function Highest(order: Order, s: seq<Features>, to: nat): Float
    requires to <= |s|
  {
    if to == 0 then ZERO
    else
      var rest := Highest(order, s, to - 1);
      if order.less(rest, s[to - 1].rms) then s[to - 1].rms else rest
  }

  /** The lowest level of s[from..], taken from the newest frame backwards. */
  function LowestBackward(order: Order, s: seq<Features>, from: nat): Float
    requires from <= |s|
    decreases |s| - from
  {
    if from == |s| then MaxFloat
    else
      var rest := LowestBackward(order, s, from + 1);
      if order.less(s[from].rms, rest) then s[from].rms else rest
  }

  function Synthesised(s: seq<Features>, to: nat): nat
    requires to <= |s|
  {
    if to == 0 then 0
    else Synthesised(s, to - 1) + if s[to - 1].synthesised then 1 else 0
  }

  function Mean(field: Field, s: seq<Features>, from: nat): Float
    requires from <= |s|
  {
    Div(Sum(field, s, from, |s|), Whole(|s| - from))
  }

  /** Standard deviation of the energy over its mean. */
  function Variation(s: seq<Features>, from: nat): Float
    requires from <= |s|
  {
    var mean := Mean(Energy, s, from);
    Div(Sqrt(Div(SumSquaredDeviation(s, mean, from, |s|), Whole(|s| - from))), mean)
  }

  function Trend(s: seq<Features>): Float
  {
    var half := |s| / 2;
    var older := |s| - half;
    Div(
      Sub(
        Div(Sum(Energy, s, older, |s|), Whole(half)),
        Div(Sum(Energy, s, 0, older), Whole(older))),
      Mean(Energy, s, 0))
  }

  datatype SignalStats = SignalStats(
    frames: nat,
    span: int,
    meanEnergy: Float,
    meanRms: Float,
    meanZcr: Float,
    minRms: Float,
    maxRms: Float,
    energyModulation: Float,
    trend: Float,
    clipRatio: Float,
    synthesisedFrames: nat)

  function StatsOf(order: Order, s: seq<Features>): SignalStats
  {
    if s == [] then
      SignalStats(0, 0, ZERO, ZERO, ZERO, ZERO, ZERO, ZERO, ZERO, ZERO, 0)
    else
      var meanEnergy := Mean(Energy, s, 0);
      SignalStats(
        |s|,
        s[|s| - 1].End() - s[0].timestamp,
        meanEnergy,
        Mean(Rms, s, 0),
        Mean(Zcr, s, 0),
        Lowest(order, s, |s|),
        Highest(order, s, |s|),
        if order.less(ZERO, meanEnergy) then Variation(s, 0) else ZERO,
        if |s| >= 4 && order.less(ZERO, meanEnergy) then Trend(s) else ZERO,
        Mean(Clip, s, 0),
        Synthesised(s, |s|))
  }

  function RecentModulationOf(order: Order, s: seq<Features>, n: int): Float
  {
    if n <= 1 || |s| < n then ZERO
    else if order.atMost(Mean(Energy, s, |s| - n), ZERO) then ZERO
    else Variation(s, |s| - n)
  }

  class FeatureWindow {
    const order: Order
    const buf: array<Features>
    var next: nat
    var filled: nat
    var total: nat
    var stats: SignalStats
    var statsValid: bool

    /** The frames held, oldest first. */
    ghost var contents: seq<Features>

    ghost predicate HoldsContents()
      reads this, buf
    {
      Ring.Holds(buf[..], next, filled, contents) && (filled < buf.Length ==> next == filled)
    }

    ghost predicate Valid()
      reads this, buf
    {
      HoldsContents() && (statsValid ==> stats == StatsOf(order, contents))
    }

    constructor (order: Order, capacity: nat)
      requires 0 < capacity
      ensures Valid() && contents == [] && total == 0
      ensures this.order == order && buf.Length == capacity && fresh(buf)
    {
      this.order := order;
      buf := new Features[capacity](_ => Frame(0, 0, 0, None, ZERO, ZERO, ZERO, ZERO, false));
      next, filled, total, statsValid, contents := 0, 0, 0, false, [];
      stats := SignalStats(0, 0, ZERO, ZERO, ZERO, ZERO, ZERO, ZERO, ZERO, ZERO, 0);
    }

    method Push(f: Features)
      requires Valid()
      modifies this, buf
      ensures Valid() && total == old(total) + 1
      ensures contents == Ring.Last(old(contents) + [f], buf.Length)
    {
      var next' := Ring.Step(buf.Length, next);
      Ring.Push(buf[..], next, next', filled, contents, f);
      ghost var after := buf[..][next := f];
      buf[next] := f;
      assert buf[..] == after;
      contents := Ring.Last(contents + [f], buf.Length);
      next := next';
      if filled < buf.Length {
        filled := filled + 1;
      }
      total := total + 1;
      statsValid := false;
    }

    method Newest() returns (f: Option<Features>)
      requires HoldsContents()
      ensures f == if contents == [] then None else Some(contents[filled - 1])
    {
      if filled == 0 {
        return None;
      }
      var i: int := next - 1;
      if i < 0 {
        i := buf.Length - 1;
      }
      assert i == Ring.Slot(buf.Length, next, filled, filled - 1);
      return Some(buf[i]);
    }

    method Oldest() returns (f: Option<Features>)
      requires HoldsContents()
      ensures f == if contents == [] then None else Some(contents[0])
    {
      if filled == 0 {
        return None;
      }
      if filled < buf.Length {
        return Some(buf[0]);
      }
      return Some(buf[next]);
    }

    /** The n-th newest entry. */
    method At(n: int) returns (f: Option<Features>)
      requires HoldsContents()
      ensures f == if 0 <= n < filled then Some(contents[filled - 1 - n]) else None
    {
      if n < 0 || n >= filled {
        return None;
      }
      var i: int := next - 1 - n;
      while i < 0
        invariant i == next - 1 - n || (next - 1 - n < 0 && i == next - 1 - n + buf.Length)
      {
        i := i + buf.Length;
      }
      assert i == Ring.Slot(buf.Length, next, filled, filled - 1 - n);
      return Some(buf[i]);
    }

    method Reset()
      requires Valid()
      modifies this
      ensures Valid() && contents == [] && total == 0
    {
      next, filled, total, contents := 0, 0, 0, [];
      statsValid := false;
    }

    /** The statistics of the frames held: a valid cache and a recomputation agree. */
    method Stats() returns (s: SignalStats)
      requires Valid()
      modifies this`stats, this`statsValid
      ensures Valid() && statsValid
      ensures s == StatsOf(order, contents)
    {
      if statsValid {
        return stats;
      }
      stats := Recompute();
      statsValid := true;
      return stats;
    }

    method Recompute() returns (s: SignalStats)
      requires HoldsContents()
      ensures s == StatsOf(order, contents)
    {
      if filled == 0 {
        return SignalStats(0, 0, ZERO, ZERO, ZERO, ZERO, ZERO, ZERO, ZERO, ZERO, 0);
      }
      var half := filled / 2;
      var olderCount := filled - half;
      var sumEnergy, olderEnergy, newerEnergy := EnergyPass(olderCount);
      var sumRms, sumZcr, sumClip, minRms, maxRms := LevelPass();
      var span, synthesised := ShapePass();

      var n := Whole(filled);
      var meanEnergy := Div(sumEnergy, n);
      var modulation := ZERO;
      if order.less(ZERO, meanEnergy) {
        var squared := SquaredDeviation(filled, meanEnergy);
        modulation := Div(Sqrt(Div(squared, n)), meanEnergy);
      }
      var trend := ZERO;
      if filled >= 4 && order.less(ZERO, meanEnergy) {
        trend := Div(Sub(Div(newerEnergy, Whole(half)), Div(olderEnergy, Whole(olderCount))), meanEnergy);
      }
      return SignalStats(filled, span, meanEnergy, Div(sumRms, n), Div(sumZcr, n),
                         minRms, maxRms, modulation, trend, Div(sumClip, n), synthesised);
    }

    // The source fills every accumulator in one walk; no accumulator reads another, so the
    // walk is written here as three: the energies, the levels, and the span with the count.

    method EnergyPass(olderCount: nat) returns (sum: Float, older: Float, newer: Float)
      requires HoldsContents() && olderCount <= filled
      ensures sum == Sum(Energy, contents, 0, filled)
      ensures older == Sum(Energy, contents, 0, olderCount)
      ensures newer == Sum(Energy, contents, olderCount, filled)
    {
      sum, older, newer := ZERO, ZERO, ZERO;
      var idx := WalkFrom(filled);
      for k := 0 to filled
        invariant idx == Ring.Slot(buf.Length, next, filled, k)
        invariant sum == Sum(Energy, contents, 0, k)
        invariant k <= olderCount ==> older == Sum(Energy, contents, 0, k) && newer == ZERO
        invariant k > olderCount ==> older == Sum(Energy, contents, 0, olderCount)
        invariant k > olderCount ==> newer == Sum(Energy, contents, olderCount, k)
      {
        var f;
        f, idx := Visit(idx, k);
        sum := Add(sum, f.energy);
        if k < olderCount {
          older := Add(older, f.energy);
        } else {
          newer := Add(newer, f.energy);
        }
      }
    }

    method LevelPass()
      returns (sumRms: Float, sumZcr: Float, sumClip: Float, minRms: Float, maxRms: Float)
      requires HoldsContents()
      ensures sumRms == Sum(Rms, contents, 0, filled) && sumZcr == Sum(Zcr, contents, 0, filled)
      ensures sumClip == Sum(Clip, contents, 0, filled)
      ensures minRms == Lowest(order, contents, filled) && maxRms == Highest(order, contents, filled)
    {
      ghost var c := contents;
      sumRms, sumZcr, sumClip, minRms, maxRms := ZERO, ZERO, ZERO, MaxFloat, ZERO;
      var idx := WalkFrom(filled);
      for k := 0 to filled
        invariant idx == Ring.Slot(buf.Length, next, filled, k)
        invariant sumRms == Sum(Rms, c, 0, k) && sumZcr == Sum(Zcr, c, 0, k) && sumClip == Sum(Clip, c, 0, k)
        invariant minRms == Lowest(order, c, k) && maxRms == Highest(order, c, k)
      {
        var f;
        f, idx := Visit(idx, k);
        sumRms := Add(sumRms, f.rms);
        sumZcr := Add(sumZcr, f.zcr);
        sumClip := Add(sumClip, f.clipRatio);
        if order.less(f.rms, minRms) {
          minRms := f.rms;
        }
        if order.less(maxRms, f.rms) {
          maxRms := f.rms;
        }
      }
    }

    method ShapePass() returns (span: int, synthesised: nat)
      requires HoldsContents() && 0 < filled
      ensures span == contents[filled - 1].End() - contents[0].timestamp
      ensures synthesised == Synthesised(contents, filled)
    {
      span, synthesised := 0, 0;
      var idx := WalkFrom(filled);
      for k := 0 to filled
        invariant idx == Ring.Slot(buf.Length, next, filled, k)
        invariant synthesised == Synthesised(contents, k)
        invariant 0 < k < filled ==> span == -contents[0].timestamp
        invariant 0 < k == filled ==> span == contents[filled - 1].End() - contents[0].timestamp
      {
        var f;
        f, idx := Visit(idx, k);
        if f.synthesised {
          synthesised := synthesised + 1;
        }
        if k == 0 {
          span := -f.timestamp;
        }
        if k == filled - 1 {
          span := span + f.timestamp + f.duration;
        }
      }
    }

    /** The slot of the n-th newest entry, where a walk over the newest n starts. */
    method WalkFrom(n: nat) returns (start: nat)
      requires HoldsContents() && n <= filled
      ensures start == Ring.Slot(buf.Length, next, filled, filled - n)
    {
      var i: int := next - n;
      while i < 0
        invariant i == next - n || (next - n < 0 && i == next - n + buf.Length)
      {
        i := i + buf.Length;
      }
      return i;
    }

    /** The second pass over the newest n frames. */
    method SquaredDeviation(n: nat, mean: Float) returns (sum: Float)
      requires HoldsContents() && n <= filled
      ensures sum == SumSquaredDeviation(contents, mean, filled - n, filled)
    {
      ghost var c := contents;
      var from := filled - n;
      var idx := WalkFrom(n);
      sum := ZERO;
      for k := 0 to n
        invariant idx == Ring.Slot(buf.Length, next, filled, from + k)
        invariant sum == SumSquaredDeviation(c, mean, from, from + k)
      {
        var f;
        f, idx := Visit(idx, from + k);
        var d := Sub(f.energy, mean);
        sum := Add(sum, Mul(d, d));
        assert sum == SumSquaredDeviation(c, mean, from, from + k + 1);
      }
    }

    /** The lowest level among the newest n frames, walked from the newest. */
    method RecentMinRms(n: int) returns (r: Option<Float>)
      requires HoldsContents()
      ensures r == if n <= 0 || filled == 0 then None
                   else Some(LowestBackward(order, contents, filled - (if n > filled then filled else n)))
    {
      if n <= 0 || filled == 0 {
        return None;
      }
      ghost var c := contents;
      var count := if n > filled then filled else n;
      var lowest := MaxFloat;
      var idx: int := next - 1;
      for k := 0 to count
        invariant k < filled ==>
                    (if idx < 0 then idx + buf.Length else idx) == Ring.Slot(buf.Length, next, filled, filled - 1 - k)
        invariant -1 <= idx < buf.Length
        invariant lowest == LowestBackward(order, c, filled - k)
      {
        if idx < 0 {
          idx := idx + buf.Length;
        }
        assert buf[idx] == c[filled - 1 - k];
        if order.less(buf[idx].rms, lowest) {
          lowest := buf[idx].rms;
        }
        idx := idx - 1;
      }
      return Some(lowest);
    }

    /** Reads the k-th oldest frame at idx and steps to the next slot. */
    method Visit(idx: nat, ghost k: nat) returns (f: Features, idx': nat)
      requires HoldsContents() && k < filled && idx == Ring.Slot(buf.Length, next, filled, k)
      ensures f == contents[k] && idx' == Ring.Slot(buf.Length, next, filled, k + 1)
    {
      f := buf[idx];
      idx' := idx + 1;
      if idx' == buf.Length {
        idx' := 0;
      }
    }

    method EnergySum(n: nat) returns (sum: Float)
      requires HoldsContents() && n <= filled
      ensures sum == Sum(Energy, contents, filled - n, filled)
    {
      ghost var c := contents;
      var from := filled - n;
      var idx := WalkFrom(n);
      sum := ZERO;
      for k := 0 to n
        invariant idx == Ring.Slot(buf.Length, next, filled, from + k)
        invariant sum == Sum(Energy, c, from, from + k)
      {
        var f;
        f, idx := Visit(idx, from + k);
        sum := Add(sum, f.energy);
      }
    }

    method RecentModulation(n: int) returns (m: Float)
      requires HoldsContents()
      ensures m == RecentModulationOf(order, contents, n)
    {
      if n <= 1 || filled < n {
        return ZERO;
      }
      var sum := EnergySum(n);
      var mean := Div(sum, Whole(n));
      if order.atMost(mean, ZERO) {
        return ZERO;
      }
      var squared := SquaredDeviation(n, mean);
      return Div(Sqrt(Div(squared, Whole(n))), mean);
    }
  }
}
