/** What the noise floor does over whole runs. */
module NoiseFloorTheorems {
  import opened Frames
  import opened NoiseFloor
  import opened RealFacts
  import Ring

  datatype NoiseEvent = Hear(f: Frame<real>, speechActive: bool) | Withdraw(count: int)

  function Step(cfg: NoiseConfig, s: NoiseState, e: NoiseEvent): NoiseState
  {
    match e
    case Hear(f, speechActive) => Observed(cfg, s, f, speechActive)
    case Withdraw(count) => Retracted(s, count)
  }

  function Run(cfg: NoiseConfig, s: NoiseState, events: seq<NoiseEvent>): NoiseState
  {
    if events == [] then s else Step(cfg, Run(cfg, s, events[..|events| - 1]), events[|events| - 1])
  }

  /** How many events let a background level through the gate. */
  function Background(events: seq<NoiseEvent>): nat
  {
    if events == [] then 0
    else
      var e := events[|events| - 1];
      Background(events[..|events| - 1]) + if e.Hear? && !e.speechActive && !e.f.synthesised then 1 else 0
  }

  ghost predicate InRange(cfg: NoiseConfig, floor: real)
  {
    cfg.minFloor <= floor <= cfg.maxFloor
  }

  lemma TowardIsBetween(floor: real, alpha: real, target: real)
    requires 0.0 < alpha < 1.0
    ensures target < floor ==> target < Toward(floor, alpha, target) < floor
    ensures target > floor ==> floor < Toward(floor, alpha, target) < target
    ensures Toward(floor, alpha, target) - target == Times(1.0 - alpha, floor - target)
  {
    Share(alpha, target - floor);
  }

  /** One background level moves the floor towards itself, never past it, and up by at most the clamp. */
  lemma AdaptedIsBounded(cfg: NoiseConfig, floor: real, target: real)
    requires cfg.Valid() && InRange(cfg, floor)
    ensures InRange(cfg, Adapted(cfg, floor, target))
    ensures Adapted(cfg, floor, target) <= Times(floor, cfg.maxRiseFactor)
    ensures target <= floor ==> Adapted(cfg, floor, target) <= floor
    ensures target >= floor ==> floor <= Adapted(cfg, floor, target) <= target
    ensures target < floor && target >= cfg.minFloor ==>
              Adapted(cfg, floor, target) - target == Times(1.0 - cfg.fallAlpha, floor - target)
  {
    TowardIsBetween(floor, cfg.fallAlpha, target);
    TowardIsBetween(floor, cfg.riseAlpha, target);
    Monotone(1.0, cfg.maxRiseFactor, floor);
    One(floor);
  }

  /**
   After convergence the floor stays in its configured range and rises by at most the
   per-frame factor for each background level, whatever was heard, gated or withdrawn.
   */
  lemma {:induction false} RiseIsBounded(cfg: NoiseConfig, s: NoiseState, events: seq<NoiseEvent>)
    requires cfg.Valid() && s.converged && InRange(cfg, s.floor)
    ensures var r := Run(cfg, s, events);
            r.converged && InRange(cfg, r.floor)
            && r.floor <= Times(s.floor, Power(cfg.maxRiseFactor, Background(events)))
  {
    if events != [] {
      var before := events[..|events| - 1];
      RiseIsBounded(cfg, s, before);
      var mid, e := Run(cfg, s, before), events[|events| - 1];
      if e.Hear? && !e.speechActive && !e.f.synthesised {
        AdaptedIsBounded(cfg, mid.floor, e.f.rms);
        RaiseBound(mid.floor, s.floor, Power(cfg.maxRiseFactor, Background(before)), cfg.maxRiseFactor);
      }
    }
  }

  lemma RaiseBound(now: real, start: real, p: real, factor: real)
    requires now <= Times(start, p) && factor > 1.0
    ensures Times(now, factor) <= Times(start, Times(factor, p))
  {
  }

  /** Speech, synthesised frames and withdrawals leave the floor exactly where it was. */
  lemma {:induction false} GatedFramesNeverMoveTheFloor(cfg: NoiseConfig, s: NoiseState, events: seq<NoiseEvent>)
    requires s.converged && Background(events) == 0
    ensures Run(cfg, s, events).converged && Run(cfg, s, events).floor == s.floor
  {
    if events != [] {
      GatedFramesNeverMoveTheFloor(cfg, s, events[..|events| - 1]);
    }
  }

  ghost predicate AllBackgroundAt(events: seq<NoiseEvent>, level: real)
  {
    forall i :: 0 <= i < |events| ==>
      events[i].Hear? && !events[i].speechActive && !events[i].f.synthesised && events[i].f.rms == level
  }

  /** A steady lower background shrinks the excess by exactly 1 - FallAlpha a frame. */
  lemma {:induction false} FallIsGeometric(cfg: NoiseConfig, s: NoiseState, events: seq<NoiseEvent>, level: real)
    requires cfg.Valid() && s.converged && InRange(cfg, s.floor)
    requires cfg.minFloor <= level < s.floor && AllBackgroundAt(events, level)
    ensures var r := Run(cfg, s, events);
            r.converged && InRange(cfg, r.floor) && r.floor > level
            && r.floor - level == Times(s.floor - level, Power(1.0 - cfg.fallAlpha, |events|))
  {
    if events != [] {
      var before := events[..|events| - 1];
      FallIsGeometric(cfg, s, before, level);
      var mid := Run(cfg, s, before);
      AdaptedIsBounded(cfg, mid.floor, level);
      FallStep(1.0 - cfg.fallAlpha, mid.floor - level, s.floor - level, Power(1.0 - cfg.fallAlpha, |before|));
    }
  }

  lemma FallStep(a: real, now: real, start: real, p: real)
    requires a > 0.0 && now > 0.0 && now == Times(start, p)
    ensures Times(a, now) > 0.0 && Times(a, now) == Times(start, Times(a, p))
  {
  }

  /**
   Any contamination the gate let through is erased: after |loud| arbitrary events from a
   floor settled at level, |quiet| frames of the true background leave at most a
   geometrically shrinking share of a geometrically bounded rise.
   */
  lemma ContaminationIsErased(
    cfg: NoiseConfig, s: NoiseState, loud: seq<NoiseEvent>, quiet: seq<NoiseEvent>, level: real)
    requires cfg.Valid() && s.converged && InRange(cfg, s.floor) && s.floor == level
    requires AllBackgroundAt(quiet, level)
    ensures var risen := Power(cfg.maxRiseFactor, Background(loud)) - 1.0;
            Run(cfg, Run(cfg, s, loud), quiet).floor - level
            <= Times(Times(level, risen), Power(1.0 - cfg.fallAlpha, |quiet|))
  {
    RiseIsBounded(cfg, s, loud);
    PowerBounds(cfg.maxRiseFactor, Background(loud));
    ExcessIsErased(cfg, Run(cfg, s, loud), quiet, level, Power(cfg.maxRiseFactor, Background(loud)));
  }

  lemma ExcessIsErased(cfg: NoiseConfig, s: NoiseState, quiet: seq<NoiseEvent>, level: real, rise: real)
    requires cfg.Valid() && s.converged && InRange(cfg, s.floor) && InRange(cfg, level)
    requires 1.0 <= rise && s.floor <= Times(level, rise) && AllBackgroundAt(quiet, level)
    ensures Run(cfg, s, quiet).floor - level <= Times(Times(level, rise - 1.0), Power(1.0 - cfg.fallAlpha, |quiet|))
  {
    PowerBounds(1.0 - cfg.fallAlpha, |quiet|);
    ExcessShare(level, s.floor, rise, Power(1.0 - cfg.fallAlpha, |quiet|));
    SettlesWithin(cfg, s, quiet, level, Times(Times(level, rise - 1.0), Power(1.0 - cfg.fallAlpha, |quiet|)));
  }

  lemma SettlesWithin(cfg: NoiseConfig, s: NoiseState, quiet: seq<NoiseEvent>, level: real, bound: real)
    requires cfg.Valid() && s.converged && InRange(cfg, s.floor) && InRange(cfg, level)
    requires AllBackgroundAt(quiet, level)
    requires 0.0 <= bound && Times(s.floor - level, Power(1.0 - cfg.fallAlpha, |quiet|)) <= bound
    ensures Run(cfg, s, quiet).floor - level <= bound
  {
    if s.floor > level {
      FallIsGeometric(cfg, s, quiet, level);
    } else {
      StaysAtOrBelow(cfg, s, quiet, level);
    }
  }

  lemma ExcessShare(level: real, risen: real, rise: real, shrink: real)
    requires 0.0 < level && 1.0 <= rise && 0.0 < shrink && risen <= Times(level, rise)
    ensures Times(risen - level, shrink) <= Times(Times(level, rise - 1.0), shrink)
    ensures 0.0 <= Times(Times(level, rise - 1.0), shrink)
  {
  }

  lemma {:induction false} StaysAtOrBelow(cfg: NoiseConfig, s: NoiseState, events: seq<NoiseEvent>, level: real)
    requires cfg.Valid() && s.converged && InRange(cfg, s.floor)
    requires s.floor <= level && AllBackgroundAt(events, level)
    ensures var r := Run(cfg, s, events);
            r.converged && InRange(cfg, r.floor) && r.floor <= level
  {
    if events != [] {
      StaysAtOrBelow(cfg, s, events[..|events| - 1], level);
      AdaptedIsBounded(cfg, Run(cfg, s, events[..|events| - 1]).floor, level);
    }
  }

  // ---- A higher background is learnt ----

  /**
   A level above the floor raises it: by RiseAlpha of the difference, or to the rise factor's
   ceiling where that is lower, and in either case not past the maximum.
   */
  lemma RiseIsExact(cfg: NoiseConfig, floor: real, target: real)
    requires cfg.Valid() && InRange(cfg, floor) && target > floor
    ensures var share := floor + Times(cfg.riseAlpha, target - floor);
            var ceiling := Times(floor, cfg.maxRiseFactor);
            var lower := if share < ceiling then share else ceiling;
            && lower > floor
            && Adapted(cfg, floor, target) == if lower < cfg.maxFloor then lower else cfg.maxFloor
    ensures floor < cfg.maxFloor ==> Adapted(cfg, floor, target) > floor
  {
    TowardIsBetween(floor, cfg.riseAlpha, target);
    Monotone(1.0, cfg.maxRiseFactor, floor);
    One(floor);
    Signs(floor, cfg.maxRiseFactor - 1.0);
    Distribute(floor, cfg.maxRiseFactor, 1.0);
  }

  /** A level no higher than the floor lowers it by FallAlpha of the difference, and not past the minimum. */
  lemma FallIsExact(cfg: NoiseConfig, floor: real, target: real)
    requires cfg.Valid() && InRange(cfg, floor) && target <= floor
    ensures var share := floor - Times(cfg.fallAlpha, floor - target);
            Adapted(cfg, floor, target) == if share > cfg.minFloor then share else cfg.minFloor
  {
    TowardIsBetween(floor, cfg.fallAlpha, target);
    assert Times(cfg.fallAlpha, floor - target) == -Times(cfg.fallAlpha, target - floor);
    assert Times(cfg.fallAlpha, 0.0) == 0.0;
  }

  /** The ceiling does not bind: RiseAlpha of the difference is within the factor's rise. */
  ghost predicate Near(cfg: NoiseConfig, floor: real, level: real)
  {
    Times(cfg.riseAlpha, level - floor) <= Times(floor, cfg.maxRiseFactor - 1.0)
  }

  lemma NearStaysNear(cfg: NoiseConfig, floor: real, higher: real, level: real)
    requires cfg.Valid() && Near(cfg, floor, level) && floor <= higher
    ensures Near(cfg, higher, level)
  {
    Monotone(level - higher, level - floor, cfg.riseAlpha);
    Monotone(floor, higher, cfg.maxRiseFactor - 1.0);
  }

  lemma NearStep(cfg: NoiseConfig, floor: real, level: real)
    requires cfg.Valid() && InRange(cfg, floor) && floor < level <= cfg.maxFloor && Near(cfg, floor, level)
    ensures floor < Adapted(cfg, floor, level) < level
    ensures level - Adapted(cfg, floor, level) == Times(1.0 - cfg.riseAlpha, level - floor)
  {
    RiseIsExact(cfg, floor, level);
    TowardIsBetween(floor, cfg.riseAlpha, level);
    Distribute(floor, cfg.maxRiseFactor, 1.0);
    One(floor);
    Share(cfg.riseAlpha, level - floor);
    Distribute(level - floor, 1.0, cfg.riseAlpha);
    One(level - floor);
  }

  /** A steady background near above the floor closes the gap by exactly 1 - RiseAlpha a frame. */
  lemma {:induction false} RiseIsGeometric(cfg: NoiseConfig, s: NoiseState, events: seq<NoiseEvent>, level: real)
    requires cfg.Valid() && s.converged && InRange(cfg, s.floor)
    requires s.floor < level <= cfg.maxFloor && Near(cfg, s.floor, level) && AllBackgroundAt(events, level)
    ensures var r := Run(cfg, s, events);
            && r.converged && InRange(cfg, r.floor) && s.floor <= r.floor < level
            && level - r.floor == Times(level - s.floor, Power(1.0 - cfg.riseAlpha, |events|))
  {
    if events == [] {
      One(level - s.floor);
    } else {
      var before := events[..|events| - 1];
      RiseIsGeometric(cfg, s, before, level);
      var mid := Run(cfg, s, before);
      NearStaysNear(cfg, s.floor, mid.floor, level);
      NearStep(cfg, mid.floor, level);
      FallStep(1.0 - cfg.riseAlpha, level - mid.floor, level - s.floor, Power(1.0 - cfg.riseAlpha, |before|));
    }
  }

  lemma FarStep(cfg: NoiseConfig, floor: real, level: real)
    requires cfg.Valid() && InRange(cfg, floor) && floor < level && Times(floor, cfg.maxRiseFactor) <= cfg.maxFloor
    requires Times(cfg.riseAlpha, level - floor) >= Times(floor, cfg.maxRiseFactor - 1.0)
    ensures Adapted(cfg, floor, level) == Times(floor, cfg.maxRiseFactor)
  {
    RiseIsExact(cfg, floor, level);
    Distribute(floor, cfg.maxRiseFactor, 1.0);
    One(floor);
  }

  /**
   Far below a steady background the floor climbs by exactly the rise factor a frame, as long as
   even its last step is one that the ceiling cuts short.
   */
  lemma {:induction false} ClimbIsGeometric(
    cfg: NoiseConfig, s: NoiseState, events: seq<NoiseEvent>, level: real, top: real)
    requires cfg.Valid() && s.converged && InRange(cfg, s.floor) && AllBackgroundAt(events, level)
    requires Times(s.floor, Power(cfg.maxRiseFactor, |events|)) <= top <= cfg.maxFloor && top < level
    requires Times(cfg.riseAlpha, level - top) >= Times(top, cfg.maxRiseFactor - 1.0)
    ensures var r := Run(cfg, s, events);
            r.converged && InRange(cfg, r.floor) && r.floor == Times(s.floor, Power(cfg.maxRiseFactor, |events|))
  {
    if events == [] {
      One(s.floor);
    } else {
      var before := events[..|events| - 1];
      var p := Power(cfg.maxRiseFactor, |before|);
      PowerBounds(cfg.maxRiseFactor, |before|);
      Climbs(s.floor, p, cfg.maxRiseFactor);
      ClimbIsGeometric(cfg, s, before, level, top);
      var mid := Run(cfg, s, before);
      Monotone(level - top, level - mid.floor, cfg.riseAlpha);
      Monotone(mid.floor, top, cfg.maxRiseFactor - 1.0);
      FarStep(cfg, mid.floor, level);
    }
  }

  lemma Climbs(floor: real, p: real, factor: real)
    requires floor > 0.0 && p >= 1.0 && factor > 1.0
    ensures Times(Times(floor, p), factor) == Times(floor, Times(factor, p))
    ensures floor <= Times(floor, p) <= Times(floor, Times(factor, p))
  {
    Monotone(1.0, p, floor);
    One(floor);
    Monotone(1.0, factor, p);
    One(p);
    Monotone(p, Times(factor, p), floor);
  }

  // ---- The levels kept ----

  /** The background levels the events let through, in order. */
  function LevelsOf(events: seq<NoiseEvent>): seq<real>
  {
    if events == [] then []
    else
      var e := events[|events| - 1];
      LevelsOf(events[..|events| - 1])
      + if e.Hear? && !e.speechActive && !e.f.synthesised then [e.f.rms] else []
  }

  /** What is kept is the newest levels of the background, whatever was gated between them. */
  lemma {:induction false} LevelsAreTheNewestBackground(cfg: NoiseConfig, s: NoiseState, events: seq<NoiseEvent>)
    requires cfg.Valid() && s.converged && |s.levels| <= cfg.windowFrames
    requires forall i :: 0 <= i < |events| ==> events[i].Hear?
    ensures var r := Run(cfg, s, events);
            && r.converged && r.levels == Ring.Last(s.levels + LevelsOf(events), cfg.windowFrames)
            && r.total == s.total + |LevelsOf(events)|
  {
    if events == [] {
      assert s.levels + [] == s.levels;
    } else {
      var before, e := events[..|events| - 1], events[|events| - 1];
      LevelsAreTheNewestBackground(cfg, s, before);
      Ring.LastOfLast(s.levels + LevelsOf(before), e.f.rms, cfg.windowFrames);
      assert s.levels + (LevelsOf(before) + [e.f.rms]) == s.levels + LevelsOf(before) + [e.f.rms];
      assert LevelsOf(before) + [] == LevelsOf(before);
    }
  }

  /** A withdrawal takes away that many of the newest, or all there are, and nothing else. */
  lemma WithdrawalForgets(cfg: NoiseConfig, s: NoiseState, count: int)
    requires |s.levels| <= s.total
    ensures var r := Step(cfg, s, Withdraw(count));
            var gone := if count < 0 then 0 else if count > |s.levels| then |s.levels| else count;
            && r.levels == s.levels[..|s.levels| - gone] && r.total == s.total - gone
            && r == s.(levels := r.levels, total := r.total)
  {
    assert s.levels[..|s.levels|] == s.levels;
  }

  // ---- Warm-up ----

  /** m is the quietest real level of the frames, or MAX_FLOAT64 when there is none. */
  ghost predicate IsQuietest(frames: seq<Frame<real>>, m: real)
  {
    && (m == MAX_FLOAT64 || exists i :: 0 <= i < |frames| && !frames[i].synthesised && frames[i].rms == m)
    && forall i :: 0 <= i < |frames| && !frames[i].synthesised ==> m <= frames[i].rms
  }

  /** One more frame lowers the quietest level, unless it was made up. */
  lemma QuietestNext(frames: seq<Frame<real>>, m: real)
    requires frames != [] && IsQuietest(frames[..|frames| - 1], m)
    ensures var f := frames[|frames| - 1];
            IsQuietest(frames, if !f.synthesised && f.rms < m then f.rms else m)
  {
    var n := |frames| - 1;
    assert forall i :: 0 <= i < n ==> frames[..n][i] == frames[i];
    if m != MAX_FLOAT64 {
      var i :| 0 <= i < n && !frames[..n][i].synthesised && frames[..n][i].rms == m;
      assert !frames[i].synthesised && frames[i].rms == m;
    }
  }

  function Warm(cfg: NoiseConfig, frames: seq<Frame<real>>, gates: seq<bool>): NoiseState
    requires |frames| == |gates|
  {
    if frames == [] then Initial(cfg)
    else
      var n := |frames| - 1;
      Observed(cfg, Warm(cfg, frames[..n], gates[..n]), frames[n], gates[n])
  }

  /**
   Convergence comes exactly with the last warm-up frame, and the floor it starts from is the
   quietest real level, not the mean: whatever the gate says, speech in the warm-up only adds energy.
   */
  lemma {:induction false} WarmupFindsTheQuietest(cfg: NoiseConfig, frames: seq<Frame<real>>, gates: seq<bool>)
    requires cfg.Valid() && |frames| == |gates| <= cfg.warmupFrames
    requires forall i :: 0 <= i < |frames| ==> frames[i].rms < MAX_FLOAT64
    ensures var s := Warm(cfg, frames, gates);
            && s.warmupSeen == |frames| && IsQuietest(frames, s.warmupMin)
            && (s.converged <==> |frames| == cfg.warmupFrames)
            && (s.converged ==>
                  s.floor == if forall i :: 0 <= i < |frames| ==> frames[i].synthesised then cfg.minFloor
                             else cfg.Clamp(s.warmupMin))
  {
    if frames != [] {
      var n := |frames| - 1;
      WarmupFindsTheQuietest(cfg, frames[..n], gates[..n]);
      QuietestNext(frames, Warm(cfg, frames[..n], gates[..n]).warmupMin);
    }
  }

  /** The real levels among the frames, in order. */
  function RealLevels(frames: seq<Frame<real>>): seq<real>
  {
    if frames == [] then []
    else
      var f := frames[|frames| - 1];
      RealLevels(frames[..|frames| - 1]) + if f.synthesised then [] else [f.rms]
  }

  /** The warm-up keeps and counts every real level, speech or not, before it settles on the quietest. */
  lemma {:induction false} WarmupKeepsRealLevels(cfg: NoiseConfig, frames: seq<Frame<real>>, gates: seq<bool>)
    requires cfg.Valid() && |frames| == |gates| <= cfg.warmupFrames
    requires forall i :: 0 <= i < |frames| ==> frames[i].rms < MAX_FLOAT64
    ensures var s := Warm(cfg, frames, gates);
            s.levels == RealLevels(frames) && s.total == |s.levels| <= |frames|
  {
    if frames != [] {
      var n := |frames| - 1;
      WarmupKeepsRealLevels(cfg, frames[..n], gates[..n]);
      WarmupFindsTheQuietest(cfg, frames[..n], gates[..n]);
      assert RealLevels(frames[..n]) + [] == RealLevels(frames[..n]);
    }
  }

  /** No more levels are ever kept than were counted. */
  lemma {:induction false} LevelsAreCounted(cfg: NoiseConfig, s: NoiseState, events: seq<NoiseEvent>)
    requires |s.levels| <= s.total
    ensures |Run(cfg, s, events).levels| <= Run(cfg, s, events).total
  {
    if events != [] {
      LevelsAreCounted(cfg, s, events[..|events| - 1]);
    }
  }
}
