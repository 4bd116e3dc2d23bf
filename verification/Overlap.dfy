/** Double talk: the caller speaking while the agent holds the floor. */
module Overlap {
  import opened Frames
  import opened RealFacts
  import opened VoiceActivity
  import opened Correlation
  import Ring

  datatype OverlapStage = NoOverlap | Possible | Confirmed | Resolved

  predicate CanMove(from: OverlapStage, to: OverlapStage)
  {
    match from
    case NoOverlap => to == Possible
    case Possible => to == Confirmed || to == NoOverlap
    case Confirmed => to == Resolved
    case Resolved => to == NoOverlap || to == Possible
  }

  datatype OverlapPolicy = OverlapPolicy(
    enabled: bool,
    minDuration: int,
    resolveAfter: int,
    echoCorrelationPenalty: real,
    minConfidence: real)
  {
    ghost predicate Valid()
    {
      enabled ==>
        && 0 < minDuration && 0 < resolveAfter
        && 0.0 <= echoCorrelationPenalty <= 1.0 && 0.0 <= minConfidence <= 1.0
    }
  }

  const ECHO_WINDOW_FRAMES: nat := 16

  // ---- Scoring ----

  function Score(p: OverlapPolicy, base: real, duration: int, correlation: real, measured: bool): real
  {
    var sustained :=
      if p.minDuration > 0 && duration < p.minDuration then duration as real / p.minDuration as real else 1.0;
    var s := Times(base, Clamp01(sustained));
    Clamp01(if measured && correlation > 0.0 then Times(s, 1.0 - Times(p.echoCorrelationPenalty, correlation)) else s)
  }

  // ---- The machine ----

  datatype OverlapState = OverlapState(
    stage: OverlapStage,
    startedAt: int,
    open: bool,
    quietSince: int,
    quiet: bool)

  const NONE: OverlapState := OverlapState(NoOverlap, 0, false, 0, false)

  /** One frame as the machine reads it. */
  datatype Evidence = Evidence(
    timestamp: int, end: int, overlapping: bool, base: real, correlation: real, measured: bool)

  function Held(s: OverlapState, end: int): int { if s.open then end - s.startedAt else 0 }

  function ScoreOf(p: OverlapPolicy, s: OverlapState, e: Evidence): real
  {
    Score(p, e.base, Held(s, e.end), e.correlation, e.measured)
  }

  function NextStage(p: OverlapPolicy, s: OverlapState, e: Evidence): OverlapStage
  {
    match s.stage
    case NoOverlap => if e.overlapping then Possible else NoOverlap
    case Possible =>
      if !e.overlapping then NoOverlap
      else if e.end - s.startedAt >= p.minDuration && ScoreOf(p, s, e) >= p.minConfidence then Confirmed
      else Possible
    case Confirmed =>
      var since := if s.quiet then s.quietSince else e.timestamp;
      if !e.overlapping && e.end - since >= p.resolveAfter then Resolved else Confirmed
    case Resolved => if e.overlapping then Possible else NoOverlap
  }

  function OverlapAfter(p: OverlapPolicy, s: OverlapState, e: Evidence): OverlapState
  {
    var next := NextStage(p, s, e);
    var opens := next == Possible && s.stage != Possible;
    var confirmed := s.stage == Confirmed;
    OverlapState(
      next,
      if opens then e.timestamp else s.startedAt,
      opens || (s.open && !(next == NoOverlap && s.stage != NoOverlap)),
      if confirmed && !e.overlapping && !s.quiet then e.timestamp else s.quietSince,
      if confirmed then !e.overlapping else s.quiet && !opens)
  }

  datatype OverlapDecision = OverlapDecision(
    stage: OverlapStage,
    previous: OverlapStage,
    refused: bool,
    confidence: real,
    duration: int,
    correlation: real,
    measured: bool)

  function OverlapDecided(p: OverlapPolicy, s: OverlapState, e: Evidence): OverlapDecision
  {
    var s' := OverlapAfter(p, s, e);
    OverlapDecision(
      s'.stage, s.stage, false,
      if s'.stage == NoOverlap || s'.stage == Resolved then 0.0 else ScoreOf(p, s', e),
      Held(s', e.end), e.correlation, e.measured)
  }

  /** The pairs the window still holds, in the order they came. */
  function Newest(levels: seq<real>): (r: seq<real>)
    ensures |levels| >= ECHO_WINDOW_FRAMES ==> |r| == ECHO_WINDOW_FRAMES
  {
    Ring.Last(levels, ECHO_WINDOW_FRAMES)
  }

  lemma InOrder(buf: seq<real>, next: nat, held: seq<real>)
    requires Ring.Holds(buf, next, |buf|, held)
    ensures buf == buf[..next] + buf[next..] && held == buf[next..] + buf[..next]
  {
    var turned := buf[next..] + buf[..next];
    forall k | 0 <= k < |buf| ensures held[k] == turned[k] {
      assert held[k] == buf[Ring.Slot(|buf|, next, |buf|, k)];
    }
  }

  class OverlapDetector {
    const policy: OverlapPolicy
    const sqrt: real -> real
    const inbound: array<real>
    const outbound: array<real>
    var stage: OverlapStage
    var startedAt: int
    var open: bool
    var quietSince: int
    var quiet: bool
    var next: nat
    var filled: nat

    /** The level pairs recorded since the last reset: the caller's, and the agent's own. */
    ghost var heard: seq<real>
    ghost var said: seq<real>

    ghost predicate Valid()
      reads this, inbound, outbound
    {
      && policy.Valid() && IsSquareRoot(sqrt) && inbound != outbound
      && inbound.Length == outbound.Length == ECHO_WINDOW_FRAMES
      && |heard| == |said|
      && Ring.Holds(inbound[..], next, filled, Newest(heard))
      && Ring.Holds(outbound[..], next, filled, Newest(said))
    }

    function State(): OverlapState
      reads this
    {
      OverlapState(stage, startedAt, open, quietSince, quiet)
    }

    constructor (policy: OverlapPolicy, sqrt: real -> real)
      requires policy.Valid() && IsSquareRoot(sqrt)
      ensures Valid() && State() == NONE && heard == said == [] && fresh(inbound) && fresh(outbound)
      ensures this.policy == policy && this.sqrt == sqrt
    {
      this.policy, this.sqrt := policy, sqrt;
      inbound := new real[ECHO_WINDOW_FRAMES](_ => 0.0);
      outbound := new real[ECHO_WINDOW_FRAMES](_ => 0.0);
      stage, startedAt, open, quietSince, quiet := NoOverlap, 0, false, 0, false;
      next, filled := 0, 0;
      heard, said := [], [];
    }

    /** Writes one pair over the oldest. */
    method Store(rms: real, level: real)
      requires Valid()
      modifies this`next, this`filled, this`heard, this`said, inbound, outbound
      ensures Valid() && heard == old(heard) + [rms] && said == old(said) + [level]
    {
      var next' := Ring.Step(ECHO_WINDOW_FRAMES, next);
      Ring.Push(inbound[..], next, next', filled, Newest(heard), rms);
      Ring.Push(outbound[..], next, next', filled, Newest(said), level);
      Ring.LastOfLast(heard, rms, ECHO_WINDOW_FRAMES);
      Ring.LastOfLast(said, level, ECHO_WINDOW_FRAMES);
      ghost var in', out' := inbound[..][next := rms], outbound[..][next := level];
      inbound[next] := rms;
      outbound[next] := level;
      assert inbound[..] == in' && outbound[..] == out';
      next := next';
      if filled < ECHO_WINDOW_FRAMES {
        filled := filled + 1;
      }
      heard, said := heard + [rms], said + [level];
    }

    /**
     Records the level pair, never from an unknown level; a correlation is measured only once the
     window is full, and is that of its pairs in the order they came.
     */
    method ObserveEcho(rms: real, agentSpeaking: bool, level: Option<real>) returns (r: real, measured: bool)
      requires Valid()
      modifies this`next, this`filled, this`heard, this`said, inbound, outbound
      ensures Valid()
      ensures var known := agentSpeaking && level.Some?;
              && heard == old(heard) + (if known then [rms] else [])
              && said == old(said) + (if known then [level.value] else [])
              && measured == (known && |heard| >= ECHO_WINDOW_FRAMES)
      ensures r == if measured then Pearson(sqrt, Newest(heard), Newest(said)) else 0.0
    {
      if !agentSpeaking || level == None {
        return 0.0, false;
      }
      Store(rms, level.value);
      if filled < ECHO_WINDOW_FRAMES {
        return 0.0, false;
      }
      r := Correlate();
      measured := true;
      InOrder(inbound[..], next, Newest(heard));
      InOrder(outbound[..], next, Newest(said));
      PearsonIgnoresRotation(sqrt, inbound[..next], inbound[next..], outbound[..next], outbound[next..]);
    }

    /** Means first, deviations second. */
    method Correlate() returns (r: real)
      requires Valid()
      ensures r == Pearson(sqrt, inbound[..], outbound[..])
    {
      ghost var a, b := inbound[..], outbound[..];
      var n := inbound.Length as real;
      var sumA, sumB := 0.0, 0.0;
      for i := 0 to inbound.Length
        invariant sumA == RealSum(a, i) && sumB == RealSum(b, i)
      {
        sumA := sumA + inbound[i];
        sumB := sumB + outbound[i];
      }
      var ma, mb := sumA / n, sumB / n;
      var cov, varA, varB := Deviations(ma, mb);
      return Coefficient(sqrt, cov, varA, varB);
    }

    method Deviations(ma: real, mb: real) returns (cov: real, varA: real, varB: real)
      requires Valid()
      ensures var a, b := inbound[..], outbound[..];
              && cov == Covariation(a, b, ma, mb, |a|)
              && varA == Covariation(a, a, ma, ma, |a|) && varB == Covariation(b, b, mb, mb, |a|)
    {
      ghost var a, b := inbound[..], outbound[..];
      cov, varA, varB := 0.0, 0.0, 0.0;
      for i := 0 to inbound.Length
        invariant cov == Covariation(a, b, ma, mb, i)
        invariant varA == Covariation(a, a, ma, ma, i) && varB == Covariation(b, b, mb, mb, i)
      {
        var da, db := inbound[i] - ma, outbound[i] - mb;
        cov := cov + Times(da, db);
        varA := varA + Times(da, da);
        varB := varB + Times(db, db);
      }
    }

    method Observe(f: Frame<real>, d: Decision, agentSpeaking: bool, level: Option<real>)
      returns (out: OverlapDecision)
      requires Valid()
      modifies this, inbound, outbound
      ensures Valid()
      ensures var e := Evidence(f.timestamp, f.End(), policy.enabled && agentSpeaking && d.state.Active(),
                                d.confidence, out.correlation, out.measured);
              State() == OverlapAfter(policy, old(State()), e) && out == OverlapDecided(policy, old(State()), e)
      ensures var known := agentSpeaking && level.Some?;
              && heard == old(heard) + (if known then [f.rms] else [])
              && said == old(said) + (if known then [level.value] else [])
              && out.measured == (known && |heard| >= ECHO_WINDOW_FRAMES)
      ensures out.correlation == if out.measured then Pearson(sqrt, Newest(heard), Newest(said)) else 0.0
    {
      var overlapping := policy.enabled && agentSpeaking && d.state.Active();
      var correlation, measured := ObserveEcho(f.rms, agentSpeaking, level);
      out := Advance(Evidence(f.timestamp, f.End(), overlapping, d.confidence, correlation, measured));
    }

    method Advance(e: Evidence) returns (out: OverlapDecision)
      modifies this`stage, this`startedAt, this`open, this`quietSince, this`quiet
      ensures State() == OverlapAfter(policy, old(State()), e) && out == OverlapDecided(policy, old(State()), e)
    {
      var prev, to := stage, stage;
      var duration := if open then e.end - startedAt else 0;
      var confidence := Score(policy, e.base, duration, e.correlation, e.measured);
      match prev {
        case NoOverlap =>
          if e.overlapping {
            to, startedAt, open, quiet := Possible, e.timestamp, true, false;
          }
        case Possible =>
          if !e.overlapping {
            to, open := NoOverlap, false;
          } else if e.end - startedAt >= policy.minDuration && confidence >= policy.minConfidence {
            to := Confirmed;
          }
        case Confirmed =>
          if !e.overlapping {
            if !quiet {
              quiet, quietSince := true, e.timestamp;
            }
            if e.end - quietSince >= policy.resolveAfter {
              to := Resolved;
            }
          } else {
            quiet := false;
          }
        case Resolved =>
          if e.overlapping {
            to, startedAt, open, quiet := Possible, e.timestamp, true, false;
          } else {
            to, open := NoOverlap, false;
          }
      }
      var refused := to != prev && !CanMove(prev, to);
      if refused {
        to := prev;
      }
      stage := to;
      duration := if open then e.end - startedAt else 0;
      confidence := 0.0;
      if to != NoOverlap && to != Resolved {
        confidence := Score(policy, e.base, duration, e.correlation, e.measured);
      }
      return OverlapDecision(to, prev, refused, confidence, duration, e.correlation, e.measured);
    }

    method Reset()
      requires Valid()
      modifies this, inbound, outbound
      ensures Valid() && State() == NONE && heard == said == []
    {
      stage, startedAt, open, quietSince, quiet := NoOverlap, 0, false, 0, false;
      next, filled := 0, 0;
      heard, said := [], [];
      for i := 0 to inbound.Length
        modifies inbound, outbound
      {
        inbound[i], outbound[i] := 0.0, 0.0;
      }
    }
  }
}
