/** What the double-talk detector may be relied on for. */
module OverlapTheorems {
  import opened RealFacts
  import opened VoiceActivity
  import opened Overlap
  import opened Correlation

  // ---- The score ----

  /** The score is a probability, and a measured correlation only ever lowers it. */
  lemma CorrelationOnlyLowers(p: OverlapPolicy, base: real, duration: int, correlation: real)
    requires 0.0 <= p.echoCorrelationPenalty <= 1.0 && -1.0 <= correlation <= 1.0 && 0.0 <= base <= 1.0
    ensures 0.0 <= Score(p, base, duration, correlation, true) <= Score(p, base, duration, 0.0, false) <= base
    ensures correlation <= 0.0 ==>
              Score(p, base, duration, correlation, true) == Score(p, base, duration, 0.0, false)
  {
    var sustained :=
      if p.minDuration > 0 && duration < p.minDuration then duration as real / p.minDuration as real else 1.0;
    var s := Times(base, Clamp01(sustained));
    Signs(base, Clamp01(sustained));
    Monotone(Clamp01(sustained), 1.0, base);
    One(base);
    if correlation > 0.0 {
      var cut := Times(p.echoCorrelationPenalty, correlation);
      Signs(p.echoCorrelationPenalty, correlation);
      Monotone(p.echoCorrelationPenalty, 1.0, correlation);
      One(correlation);
      Monotone(1.0 - cut, 1.0, s);
      Signs(s, 1.0 - cut);
      One(s);
    }
  }

  /** What the same frame comes to when no echo is measured. */
  function Unmeasured(e: Evidence): Evidence
  {
    e.(correlation := 0.0, measured := false)
  }

  /** Of the detector's own full rings: an echo never raises the confidence reported, and never confirms an overlap. */
  lemma EchoOnlyDoubts(p: OverlapPolicy, s: OverlapState, e: Evidence, sqrt: real -> real, a: seq<real>, b: seq<real>)
    requires 0.0 <= p.echoCorrelationPenalty <= 1.0 && 0.0 <= e.base <= 1.0
    requires IsSquareRoot(sqrt) && |a| == |b| == ECHO_WINDOW_FRAMES
    requires e.measured && e.correlation == Pearson(sqrt, a, b)
    ensures 0.0 <= OverlapDecided(p, s, e).confidence <= OverlapDecided(p, s, Unmeasured(e)).confidence <= e.base
    ensures OverlapDecided(p, s, e).stage == Confirmed ==> OverlapDecided(p, s, Unmeasured(e)).stage == Confirmed
  {
    PearsonIsBounded(sqrt, a, b);
    var after := OverlapAfter(p, s, e);
    CorrelationOnlyLowers(p, e.base, Held(s, e.end), e.correlation);
    CorrelationOnlyLowers(p, e.base, Held(after, e.end), e.correlation);
  }

  /** An echo scales the confidence reported by exactly what its correlation takes away. */
  lemma EchoScales(p: OverlapPolicy, s: OverlapState, e: Evidence)
    requires 0.0 <= p.echoCorrelationPenalty <= 1.0 && 0.0 <= e.base <= 1.0
    requires e.measured && -1.0 <= e.correlation <= 1.0
    ensures var echo := if e.correlation > 0.0 then e.correlation else 0.0;
            OverlapDecided(p, s, e).confidence
            == Times(OverlapDecided(p, s, Unmeasured(e)).confidence, 1.0 - Times(p.echoCorrelationPenalty, echo))
  {
    var after := OverlapAfter(p, s, e);
    assert Held(after, e.end) == Held(OverlapAfter(p, s, Unmeasured(e)), e.end);
    CorrelationOnlyLowers(p, e.base, Held(after, e.end), e.correlation);
    if e.correlation > 0.0 {
      ScoreScales(p, e.base, Held(after, e.end), e.correlation);
    }
    assert Times(p.echoCorrelationPenalty, 0.0) == 0.0;
    One(OverlapDecided(p, s, Unmeasured(e)).confidence);
  }

  lemma ScoreScales(p: OverlapPolicy, base: real, duration: int, correlation: real)
    requires 0.0 <= p.echoCorrelationPenalty <= 1.0 && 0.0 <= base <= 1.0 && 0.0 < correlation <= 1.0
    ensures Score(p, base, duration, correlation, true)
            == Times(Score(p, base, duration, 0.0, false), 1.0 - Times(p.echoCorrelationPenalty, correlation))
  {
    var sustained :=
      if p.minDuration > 0 && duration < p.minDuration then duration as real / p.minDuration as real else 1.0;
    var share, cut := Clamp01(sustained), Times(p.echoCorrelationPenalty, correlation);
    InUnit(base, share);
    InUnit(p.echoCorrelationPenalty, correlation);
    InUnit(Times(base, share), 1.0 - cut);
  }

  lemma InUnit(a: real, b: real)
    requires 0.0 <= a <= 1.0 && 0.0 <= b <= 1.0
    ensures 0.0 <= Times(a, b) <= a
    ensures Clamp01(Times(a, b)) == Times(a, b)
  {
    Signs(a, b);
    Monotone(b, 1.0, a);
    One(a);
  }

  /**
   A perfect echo: the levels heard are those said, at some positive gain and any offset. Then the
   confidence is exactly one minus the penalty of what it would be unmeasured.
   */
  lemma PerfectEchoIsCut(
    p: OverlapPolicy, s: OverlapState, e: Evidence,
    sqrt: real -> real, heard: seq<real>, said: seq<real>, gain: real, offset: real)
    requires 0.0 <= p.echoCorrelationPenalty <= 1.0 && 0.0 <= e.base <= 1.0
    requires IsSquareRoot(sqrt) && |said| == ECHO_WINDOW_FRAMES && !Constant(said)
    requires Affine(said, heard, gain, offset) && gain > 0.0
    requires e.measured && e.correlation == Pearson(sqrt, heard, said)
    ensures OverlapDecided(p, s, e).confidence
            == Times(OverlapDecided(p, s, Unmeasured(e)).confidence, 1.0 - p.echoCorrelationPenalty)
  {
    EchoesCorrelatePerfectly(sqrt, said, heard, gain, offset);
    EchoScales(p, s, e);
    One(p.echoCorrelationPenalty);
  }

  /** Unmeasured, the speech's confidence counts in proportion to how much of MinDuration has passed. */
  lemma ScoreIsSustained(p: OverlapPolicy, base: real, duration: int)
    requires 0.0 <= base <= 1.0 && 0 < p.minDuration
    ensures var lasted := if duration < 0 then 0 else if duration > p.minDuration then p.minDuration else duration;
            Times(Score(p, base, duration, 0.0, false), p.minDuration as real) == Times(base, lasted as real)
  {
    var n := p.minDuration as real;
    var share := if duration < p.minDuration then duration as real / n else 1.0;
    CorrelationOnlyLowers(p.(echoCorrelationPenalty := 0.0), base, duration, 0.0);
    Clamped(duration as real, n);
    assert Times(Times(base, Clamp01(share)), n) == Times(base, Times(Clamp01(share), n));
    Signs(base, Clamp01(share));
    Monotone(Clamp01(share), 1.0, base);
    One(base);
    One(n);
  }

  lemma Clamped(d: real, n: real)
    requires n > 0.0
    ensures d < n ==> Times(Clamp01(d / n), n) == if d < 0.0 then 0.0 else d
  {
    var q := d / n;
    assert Times(q, n) == d;
    if q < 0.0 { Signs(-q, n); } else { Signs(q, n); }
    if q > 1.0 { Monotone(1.0, q, n); One(n); }
  }

  // ---- Whole runs of the machine ----

  /** talk: the frames since the overlap opened; lull: those since it fell quiet. */
  datatype Trace = Trace(state: OverlapState, talk: seq<Evidence>, lull: seq<Evidence>)

  function Next(p: OverlapPolicy, t: Trace, e: Evidence): Trace
  {
    var s := OverlapAfter(p, t.state, e);
    Trace(
      s,
      if s.stage == Possible && t.state.stage != Possible then [e] else t.talk + [e],
      if t.state.stage == Confirmed && !e.overlapping then
        if t.state.quiet then t.lull + [e] else [e]
      else [])
  }

  function Run(p: OverlapPolicy, frames: seq<Evidence>): Trace
  {
    if frames == [] then Trace(NONE, [], [])
    else Next(p, Run(p, frames[..|frames| - 1]), frames[|frames| - 1])
  }

  ghost predicate Tracked(t: Trace)
  {
    var s := t.state;
    && (s.open <==> s.stage != NoOverlap)
    && (s.open ==> t.talk != [] && s.startedAt == t.talk[0].timestamp)
    && (s.stage == Possible ==> forall e :: e in t.talk ==> e.overlapping)
    && (s.stage == Possible ==> !s.quiet)
    && (s.stage == Confirmed && s.quiet ==> t.lull != [] && s.quietSince == t.lull[0].timestamp)
    && (forall e :: e in t.lull ==> !e.overlapping)
  }

  lemma {:induction false} RunIsTracked(p: OverlapPolicy, frames: seq<Evidence>)
    ensures Tracked(Run(p, frames))
  {
    if frames != [] {
      RunIsTracked(p, frames[..|frames| - 1]);
    }
  }

  /** How long the overlap had lasted by the end of this frame, from its first one. */
  function Lasted(t: Trace, e: Evidence): int
    requires t.talk != []
  {
    e.end - t.talk[0].timestamp
  }

  /**
   An overlap opens exactly on an overlapping frame. It is confirmed exactly when every frame since
   overlapped, for at least MinDuration, with the confidence asked for; the first that does not ends
   it. A confirmed one is resolved exactly when every frame since it fell quiet was quiet, for at
   least ResolveAfter. No move is ever refused.
   */
  lemma ConfirmationIsSustained(p: OverlapPolicy, frames: seq<Evidence>, e: Evidence)
    ensures var t := Run(p, frames);
            var after, d := Next(p, t, e), OverlapDecided(p, t.state, e);
            && d.stage == after.state.stage && d.previous == t.state.stage && !d.refused
            && (d.stage != d.previous ==> CanMove(d.previous, d.stage))
            && (t.state.stage in {NoOverlap, Resolved} ==> d.stage == if e.overlapping then Possible else NoOverlap)
            && (t.state.stage == Possible ==>
                  && (forall f :: f in t.talk ==> f.overlapping)
                  && (d.stage == NoOverlap <==> !e.overlapping)
                  && (d.stage == Confirmed <==>
                        e.overlapping && Lasted(t, e) >= p.minDuration && d.confidence >= p.minConfidence))
            && (t.state.stage == Confirmed ==>
                  && (d.stage == Confirmed || d.stage == Resolved)
                  && (forall f :: f in after.lull ==> !f.overlapping)
                  && (d.stage == Resolved <==>
                        after.lull != [] && e.end - after.lull[0].timestamp >= p.resolveAfter))
  {
    RunIsTracked(p, frames);
  }

  /**
   What is reported: the length from the first frame, and, while the overlap is open or confirmed,
   the speech's own confidence in proportion to that length, less what the echo takes.
   */
  lemma ConfidenceIsExplained(p: OverlapPolicy, frames: seq<Evidence>, e: Evidence)
    requires 0.0 <= p.echoCorrelationPenalty <= 1.0 && 0 < p.minDuration && 0.0 <= e.base <= 1.0
    requires -1.0 <= e.correlation <= 1.0
    ensures var t := Run(p, frames);
            var after, d := Next(p, t, e), OverlapDecided(p, t.state, e);
            && (d.stage == NoOverlap ==> d.duration == 0 && d.confidence == 0.0)
            && (d.stage == Resolved ==> d.duration == Lasted(after, e) && d.confidence == 0.0)
            && (d.stage in {Possible, Confirmed} ==>
                  var n := Lasted(after, e);
                  var lasted := if n < 0 then 0 else if n > p.minDuration then p.minDuration else n;
                  var echo := if e.measured && e.correlation > 0.0 then e.correlation else 0.0;
                  && d.duration == n
                  && Times(d.confidence, p.minDuration as real)
                     == Times(Times(e.base, lasted as real), 1.0 - Times(p.echoCorrelationPenalty, echo)))
  {
    RunIsTracked(p, frames);
    RunIsTracked(p, frames + [e]);
    assert (frames + [e])[..|frames|] == frames;
    var t := Run(p, frames);
    var d := OverlapDecided(p, t.state, e);
    if d.stage in {Possible, Confirmed} {
      var n := Lasted(Next(p, t, e), e);
      ScoreIsSustained(p, e.base, n);
      if e.measured && e.correlation > 0.0 {
        ScoreScales(p, e.base, n, e.correlation);
        Reorder(Score(p, e.base, n, 0.0, false), 1.0 - Times(p.echoCorrelationPenalty, e.correlation),
                p.minDuration as real);
      } else {
        assert Times(p.echoCorrelationPenalty, 0.0) == 0.0;
        One(Times(d.confidence, p.minDuration as real));
      }
    }
  }

  lemma Reorder(a: real, b: real, c: real)
    ensures Times(Times(a, b), c) == Times(Times(a, c), b)
  {
  }

  ghost predicate Takes(p: OverlapPolicy, from: OverlapStage, to: OverlapStage)
  {
    exists s: OverlapState, e: Evidence :: s.stage == from && OverlapAfter(p, s, e).stage == to
  }

  /** The declared moves are exactly those the machine makes. */
  lemma DeclaredExactlyIfTaken(p: OverlapPolicy, from: OverlapStage, to: OverlapStage)
    requires p.Valid() && p.enabled && from != to
    ensures CanMove(from, to) <==> Takes(p, from, to)
  {
    if CanMove(from, to) {
      var s := OverlapState(from, 0, from != NoOverlap, 0, false);
      var e := Evidence(0, p.minDuration + p.resolveAfter, to in {Possible, Confirmed}, 1.0, 0.0, false);
      One(1.0);
      assert OverlapAfter(p, s, e).stage == to;
    }
  }
}
