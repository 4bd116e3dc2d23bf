/** The adaptive noise floor: warm-up, gating, asymmetric adaptation, and retraction. */
module NoiseFloor {
  import opened Frames
  import Ring
  import opened RealFacts

  /** maxRiseFactor is the per-frame amplitude ratio of MaxRiseDBPerSecond, above 1. */
  datatype NoiseConfig = NoiseConfig(
    warmupFrames: nat,
    windowFrames: nat,
    riseAlpha: real,
    fallAlpha: real,
    maxRiseFactor: real,
    minFloor: real,
    maxFloor: real)
  {
    ghost predicate Valid()
    {
      && 0 < warmupFrames <= windowFrames
      && 0.0 < riseAlpha < fallAlpha < 1.0
      && 1.0 < maxRiseFactor
      && 0.0 < minFloor < maxFloor
    }

    function Clamp(v: real): real
    {
      if v < minFloor then minFloor else if v > maxFloor then maxFloor else v
    }
  }

  /** Larger than any level; what the warm-up minimum starts from. */
  const MAX_FLOAT64: real := 1.7976931348623157e308

  /** levels are the background levels retained, oldest first. */
  datatype NoiseState = NoiseState(
    floor: real,
    levels: seq<real>,
    total: nat,
    warmupSeen: nat,
    warmupMin: real,
    converged: bool)

  function Initial(cfg: NoiseConfig): NoiseState
  {
    NoiseState(cfg.minFloor, [], 0, 0, MAX_FLOAT64, false)
  }

  function Pushed(cfg: NoiseConfig, s: NoiseState, level: real): NoiseState
  {
    s.(levels := Ring.Last(s.levels + [level], cfg.windowFrames), total := s.total + 1)
  }

  function Toward(floor: real, alpha: real, target: real): real
  {
    floor + Times(alpha, target - floor)
  }

  /** One background level's effect on the floor. */
  function Adapted(cfg: NoiseConfig, floor: real, target: real): real
  {
    if target < floor then cfg.Clamp(Toward(floor, cfg.fallAlpha, target))
    else if target > floor then
      var candidate := Toward(floor, cfg.riseAlpha, target);
      var ceiling := Times(floor, cfg.maxRiseFactor);
      cfg.Clamp(if candidate > ceiling then ceiling else candidate)
    else cfg.Clamp(floor)
  }

  function WarmedUp(cfg: NoiseConfig, s: NoiseState, f: Frame<real>): NoiseState
  {
    var heard :=
      if f.synthesised then s
      else Pushed(cfg, s.(warmupMin := if f.rms < s.warmupMin then f.rms else s.warmupMin), f.rms);
    var seen := heard.(warmupSeen := s.warmupSeen + 1);
    if seen.warmupSeen < cfg.warmupFrames then seen
    else
      seen.(floor := cfg.Clamp(if seen.warmupMin == MAX_FLOAT64 then cfg.minFloor else seen.warmupMin),
            converged := true)
  }

  function Observed(cfg: NoiseConfig, s: NoiseState, f: Frame<real>, speechActive: bool): NoiseState
  {
    if !s.converged then WarmedUp(cfg, s, f)
    else if speechActive || f.synthesised then s
    else Pushed(cfg, s, f.rms).(floor := Adapted(cfg, s.floor, f.rms))
  }

  /** The count newest levels are no longer evidence; the floor is not rewound. */
  function Retracted(s: NoiseState, count: int): NoiseState
  {
    if count <= 0 || s.levels == [] then s
    else
      var n := if count > |s.levels| then |s.levels| else count;
      s.(levels := s.levels[..|s.levels| - n], total := if s.total >= n then s.total - n else 0)
  }

  class NoiseAnalyzer {
    const cfg: NoiseConfig
    const ring: array<real>
    var floor: real
    var next: nat
    var filled: nat
    var total: nat
    var warmupSeen: nat
    var warmupMin: real
    var converged: bool
    ghost var levels: seq<real>

    ghost predicate Valid()
      reads this, ring
    {
      && cfg.Valid() && ring.Length == cfg.windowFrames
      && Ring.Holds(ring[..], next, filled, levels)
      && cfg.minFloor <= floor <= cfg.maxFloor
    }

    ghost function State(): NoiseState
      reads this
    {
      NoiseState(floor, levels, total, warmupSeen, warmupMin, converged)
    }

    constructor (cfg: NoiseConfig)
      requires cfg.Valid()
      ensures Valid() && State() == Initial(cfg) && this.cfg == cfg && fresh(ring)
    {
      this.cfg := cfg;
      ring := new real[cfg.windowFrames](_ => 0.0);
      floor, next, filled, total := cfg.minFloor, 0, 0, 0;
      warmupSeen, warmupMin, converged := 0, MAX_FLOAT64, false;
      levels := [];
    }

    method Push(rms: real)
      requires Valid()
      modifies this`next, this`filled, this`total, this`levels, ring
      ensures Valid()
      ensures State() == Pushed(cfg, old(State()), rms)
    {
      var next' := Ring.Step(ring.Length, next);
      Ring.Push(ring[..], next, next', filled, levels, rms);
      ghost var after := ring[..][next := rms];
      ring[next] := rms;
      assert ring[..] == after;
      levels := Ring.Last(levels + [rms], ring.Length);
      next := next';
      if filled < ring.Length {
        filled := filled + 1;
      }
      total := total + 1;
    }

    method ObserveWarmup(f: Frame<real>)
      requires Valid()
      modifies this, ring
      ensures Valid()
      ensures State() == WarmedUp(cfg, old(State()), f)
    {
      if !f.synthesised {
        if f.rms < warmupMin {
          warmupMin := f.rms;
        }
        Push(f.rms);
      }
      warmupSeen := warmupSeen + 1;
      if warmupSeen < cfg.warmupFrames {
        return;
      }
      var quietest := warmupMin;
      if quietest == MAX_FLOAT64 {
        quietest := cfg.minFloor;
      }
      floor := cfg.Clamp(quietest);
      converged := true;
    }

    /** Down fast, up slowly and never past the ceiling. */
    method Adapt(target: real)
      requires Valid()
      modifies this`floor
      ensures Valid() && floor == Adapted(cfg, old(floor), target)
    {
      if target < floor {
        floor := Toward(floor, cfg.fallAlpha, target);
      } else if target > floor {
        var candidate := Toward(floor, cfg.riseAlpha, target);
        var ceiling := Times(floor, cfg.maxRiseFactor);
        if candidate > ceiling {
          candidate := ceiling;
        }
        floor := candidate;
      }
      floor := cfg.Clamp(floor);
    }

    method ObserveBackground(f: Frame<real>)
      requires Valid()
      modifies this, ring
      ensures Valid()
      ensures State() == Pushed(cfg, old(State()), f.rms).(floor := Adapted(cfg, old(floor), f.rms))
    {
      Push(f.rms);
      Adapt(f.rms);
    }

    method Observe(f: Frame<real>, speechActive: bool)
      requires Valid()
      modifies this, ring
      ensures Valid()
      ensures State() == Observed(cfg, old(State()), f, speechActive)
    {
      if !converged {
        ObserveWarmup(f);
      } else if speechActive {
        // Speech says nothing of the background.
      } else if f.synthesised {
        // Nor does a frame that was made up to fill a gap.
      } else {
        ObserveBackground(f);
      }
    }

    method Retract(count: int)
      requires Valid()
      modifies this, ring
      ensures Valid()
      ensures State() == Retracted(old(State()), count)
    {
      if count <= 0 || filled == 0 {
        return;
      }
      var n := if count > filled then filled else count;
      ghost var before, next0 := ring[..], next;
      var cursor: int := next;
      for i := 0 to n
        invariant 0 <= cursor < ring.Length
        invariant cursor == if i <= next0 then next0 - i else next0 + ring.Length - i
        invariant forall k :: 0 <= k < filled - i ==>
                    ring[Ring.Slot(ring.Length, next0, filled, k)] == before[Ring.Slot(ring.Length, next0, filled, k)]
        modifies ring
      {
        cursor := cursor - 1;
        if cursor < 0 {
          cursor := cursor + ring.Length;
        }
        ring[cursor] := 0.0;
      }
      Ring.Drop(before, ring[..], next0, cursor, filled, levels, n);
      next := cursor;
      filled := filled - n;
      levels := levels[..filled];
      if total >= n {
        total := total - n;
      } else {
        total := 0;
      }
    }

    method Reset()
      requires Valid()
      modifies this
      ensures Valid() && State() == Initial(cfg)
    {
      floor, next, filled, total := cfg.minFloor, 0, 0, 0;
      warmupSeen, warmupMin, converged := 0, MAX_FLOAT64, false;
      levels := [];
    }
  }
}
