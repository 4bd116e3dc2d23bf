/**
 What moves the voice activity machine, on the frames themselves: the hysteresis of its two
 thresholds, how an onset is gathered, how a pause ends a run, and when a sound turns out to be noise.
 */
module VoiceActivityRuns {
  import opened Frames
  import opened RealFacts
  import opened VoiceActivity
  import opened VoiceActivityTheorems

  // ---- The kinds of real frame ----

  predicate Real(v: SignalView) { !v.frame.synthesised }

  /** Speech by every measure. */
  predicate Supports(cfg: VadConfig, v: SignalView)
  {
    && Real(v) && v.frame.rms >= cfg.absoluteSilenceRms && v.excessDb >= cfg.onsetThresholdDb
    && cfg.zcrMin <= v.frame.zcr <= cfg.zcrMax && v.modulation >= cfg.minEnergyModulation
  }

  predicate Quiet(cfg: VadConfig, v: SignalView)
  {
    Real(v) && (v.frame.rms < cfg.absoluteSilenceRms || v.excessDb < cfg.releaseThresholdDb)
  }

  /** Loud enough to stay in speech, and not shaped like it. */
  predicate Hums(cfg: VadConfig, v: SignalView)
  {
    && Real(v) && v.frame.rms >= cfg.absoluteSilenceRms && v.excessDb >= cfg.releaseThresholdDb
    && (v.frame.zcr < cfg.zcrMin || v.frame.zcr > cfg.zcrMax || v.modulation < cfg.minEnergyModulation)
  }

  /** Shaped like speech, loud enough to stay in it and not to enter it. */
  predicate Lingers(cfg: VadConfig, v: SignalView)
  {
    && Real(v) && v.frame.rms >= cfg.absoluteSilenceRms
    && cfg.releaseThresholdDb <= v.excessDb < cfg.onsetThresholdDb
    && cfg.zcrMin <= v.frame.zcr <= cfg.zcrMax && v.modulation >= cfg.minEnergyModulation
  }

  lemma FourKinds(cfg: VadConfig, v: SignalView)
    requires cfg.Valid() && Real(v)
    ensures Supports(cfg, v) || Quiet(cfg, v) || Hums(cfg, v) || Lingers(cfg, v)
    ensures !(Supports(cfg, v) && (Quiet(cfg, v) || Hums(cfg, v) || Lingers(cfg, v)))
    ensures !(Quiet(cfg, v) && (Hums(cfg, v) || Lingers(cfg, v))) && !(Hums(cfg, v) && Lingers(cfg, v))
  {
  }

  predicate Idle(s: VadState) { s.state == Silence || s.state == Noise }

  // ---- One frame after any run ----

  lemma Extends(cfg: VadConfig, views: seq<SignalView>, v: SignalView)
    requires cfg.Valid()
    ensures Listen(cfg, views + [v]) == Heard(cfg, Listen(cfg, views), v)
  {
    assert (views + [v])[..|views|] == views;
  }

  /**
   The hysteresis. A candidate opens or gains a supporting frame exactly on a frame that is
   speech by every measure; an open run starts its hangover exactly on a quiet one and resumes
   exactly on any other; a frame between the thresholds does neither.
   */
  lemma TwoThresholds(cfg: VadConfig, views: seq<SignalView>, v: SignalView)
    requires cfg.Valid()
    ensures var s, s' := Listen(cfg, views).vad, Listen(cfg, views + [v]).vad;
            && (s.state != CandidateSpeech && s'.state == CandidateSpeech <==> Idle(s) && Supports(cfg, v))
            && (s.state == CandidateSpeech ==> (s'.onsetFrames == s.onsetFrames + 1 <==> Supports(cfg, v)))
            && (s.state == Speech && s'.state == CandidateSilence <==> s.state == Speech && Quiet(cfg, v))
            && (s.state == CandidateSilence && s'.state == Speech
                <==> s.state == CandidateSilence && Real(v) && !Quiet(cfg, v))
            && (v.excessDb < cfg.onsetThresholdDb && v.excessDb >= cfg.releaseThresholdDb
                && v.frame.rms >= cfg.absoluteSilenceRms ==>
                  && (s'.state == CandidateSpeech ==> s.state == CandidateSpeech && s'.onsetFrames == s.onsetFrames)
                  && (s'.state == CandidateSilence ==> s.state == CandidateSilence && !Real(v)))
  {
    Extends(cfg, views, v);
    OnsetsAndOffsetsAlternate(cfg, views);
  }

  /** Where else one real frame leads, from every state. */
  lemma EveryOtherMove(cfg: VadConfig, views: seq<SignalView>, v: SignalView)
    requires cfg.Valid() && Real(v)
    ensures var s, s' := Listen(cfg, views).vad, Listen(cfg, views + [v]).vad;
            && (s.state == Uncertain ==> s'.state == if v.ready then Silence else Uncertain)
            && (s.state == Silence && !Supports(cfg, v) ==>
                  var sounds := Hums(cfg, v) && v.excessDb >= cfg.onsetThresholdDb;
                  && s'.noiseFrames == (if sounds then s.noiseFrames + 1 else 0)
                  && s'.state == (if sounds && s.noiseFrames + 1 >= cfg.noiseHoldFrames then Noise else Silence))
            && (s.state == Noise && !Supports(cfg, v) ==>
                  && s'.state == (if Quiet(cfg, v) then Silence else Noise)
                  && s'.noiseFrames == (if Quiet(cfg, v) then 0 else s.noiseFrames))
            && (s.state == CandidateSpeech && (Quiet(cfg, v) || Lingers(cfg, v)) ==>
                  s'.state == Silence && s'.noiseFrames == s.noiseFrames)
            && (s.state == Speech && (Supports(cfg, v) || Lingers(cfg, v)) ==>
                  s'.state == Speech && s'.profileFailFrames == 0)
            && (s.state != Speech && s'.state == Speech ==> s'.profileFailFrames == 0)
            && (s.state !in {Silence, CandidateSpeech, Noise} ==> s'.noiseFrames == s.noiseFrames)
            && (s.state == CandidateSpeech && s'.state in {Silence, Noise} ==> s'.onsetFrames == 0 && s'.runStart == 0)
            && (s.state != CandidateSpeech && s'.state != CandidateSpeech ==>
                  s'.onsetFrames == s.onsetFrames && s'.runStart == s.runStart)
  {
    Extends(cfg, views, v);
    OnsetsAndOffsetsAlternate(cfg, views);
  }

  /** The silence timer starts with the first frame of the silence and runs until speech is entered. */
  lemma SilenceIsTimed(cfg: VadConfig, views: seq<SignalView>, v: SignalView)
    requires cfg.Valid()
    ensures var s, s' := Listen(cfg, views).vad, Listen(cfg, views + [v]).vad;
            var d := Decide(cfg, s, v);
            && (s'.inSilence <==> s'.state in {Silence, CandidateSilence} || (s.inSilence && s'.state != Speech))
            && (s'.inSilence ==>
                  && s'.silenceStart == (if s.inSilence then s.silenceStart else v.frame.timestamp)
                  && d.silenceStart == s'.silenceStart && d.silenceDuration == v.frame.End() - s'.silenceStart)
            && (!s'.inSilence ==> d.silenceStart == 0 && d.silenceDuration == 0)
            && d.state == s'.state && d.previous == s.state && !d.refused
  {
    Extends(cfg, views, v);
    OnsetsAndOffsetsAlternate(cfg, views);
  }

  /** While a run is open its backdated start stays, and is what the decision reports. */
  lemma SpeechIsTimed(cfg: VadConfig, views: seq<SignalView>, v: SignalView)
    requires cfg.Valid()
    ensures var s, s' := Listen(cfg, views).vad, Listen(cfg, views + [v]).vad;
            var d := Decide(cfg, s, v);
            && (s.state.Active() && s'.state.Active() ==> s'.speechStart == s.speechStart)
            && (s'.state.Active() ==>
                  d.speechStart == s'.speechStart && d.speechDuration == v.frame.End() - s'.speechStart)
            && (!s'.state.Active() ==> d.speechStart == 0 && d.speechDuration == 0)
            && (d.onsetConfirmed || d.offsetConfirmed ==> s.state.Active() != s'.state.Active())
  {
    Extends(cfg, views, v);
    OnsetsAndOffsetsAlternate(cfg, views);
    OnsetsAndOffsetsAlternate(cfg, views + [v]);
  }

  /** A frame at a level, an excess and a shape, ready and unremarkable otherwise. */
  function Framed(rms: real, excessDb: real, zcr: real, modulation: real, timestamp: int, duration: int): SignalView
  {
    SignalView(Frame(0, timestamp, duration, None, rms, rms, zcr, 0.0, false), excessDb, modulation, 0.0, 1.0, true)
  }

  /** Some state the machine may be in, and some frame, take it from one state to the other. */
  ghost predicate Takes(cfg: VadConfig, from: Activity, to: Activity)
  {
    exists s, v :: Consistent(s) && s.state == from && Real(v) && After(cfg, s, v).state == to
  }

  /** The declared edges are exactly the moves the machine makes, under any valid configuration. */
  lemma DeclaredExactlyIfTaken(cfg: VadConfig, from: Activity, to: Activity)
    requires cfg.Valid() && from != to
    ensures CanTransition(from, to) <==> Takes(cfg, from, to)
  {
    forall s, v | Consistent(s) && s.state == from && Real(v) && After(cfg, s, v).state == to
      ensures CanTransition(from, to)
    {
      StaysConsistent(cfg, s, v);
    }
    if CanTransition(from, to) {
      EdgeIsTaken(cfg, from, to);
    }
  }

  lemma EdgeIsTaken(cfg: VadConfig, from: Activity, to: Activity)
    requires cfg.Valid() && CanTransition(from, to)
    ensures Takes(cfg, from, to)
  {
    var loud, flat := cfg.absoluteSilenceRms, cfg.zcrMin - 1.0;
    var enough: nat := cfg.minOnsetFrames + cfg.noiseHoldFrames + cfg.profileGraceFrames;
    var s := VadState(from, enough, enough, enough, 0, 0, from.Active(), 0, from in {Silence, CandidateSilence});
    var voiced := Framed(loud, cfg.onsetThresholdDb, cfg.zcrMin, cfg.minEnergyModulation, 0, cfg.minSilence);
    var hum := Framed(loud, cfg.onsetThresholdDb, flat, cfg.minEnergyModulation, 0, cfg.minSilence);
    var quiet := Framed(loud, 0.0, cfg.zcrMin, cfg.minEnergyModulation, 0, cfg.minSilence);
    var v := if to in {CandidateSpeech, Speech} then voiced else if to == Noise then hum else quiet;
    assert Consistent(s) && Real(v) && After(cfg, s, v).state == to;
  }

  // ---- How an onset is gathered ----

  function Supporting(cfg: VadConfig, views: seq<SignalView>): nat
  {
    if views == [] then 0
    else Supporting(cfg, views[..|views| - 1]) + if Supports(cfg, views[|views| - 1]) then 1 else 0
  }

  function Humming(cfg: VadConfig, views: seq<SignalView>): nat
  {
    if views == [] then 0
    else Humming(cfg, views[..|views| - 1]) + if Hums(cfg, views[|views| - 1]) then 1 else 0
  }

  /**
   The candidate that frame k opened is still open: each real frame since supports it or hums,
   too few support it to confirm it, and too few hum to make it noise.
   */
  ghost predicate OpenSince(cfg: VadConfig, views: seq<SignalView>, k: nat)
    requires cfg.Valid()
  {
    && k < |views| && Idle(Listen(cfg, views[..k]).vad) && Supports(cfg, views[k])
    && (forall i :: k < i < |views| && Real(views[i]) ==> Supports(cfg, views[i]) || Hums(cfg, views[i]))
    && (Supporting(cfg, views[k + 1..]) > 0 ==> 1 + Supporting(cfg, views[k + 1..]) < cfg.minOnsetFrames)
    && (Humming(cfg, views[k + 1..]) > 0 ==> Humming(cfg, views[k + 1..]) < cfg.noiseHoldFrames)
  }

  lemma OneMoreOfTheCandidate(cfg: VadConfig, s: VadState, v: SignalView)
    requires cfg.Valid() && s.state == CandidateSpeech && (Real(v) ==> Supports(cfg, v) || Hums(cfg, v))
    requires Supports(cfg, v) ==> s.onsetFrames + 1 < cfg.minOnsetFrames
    requires Hums(cfg, v) ==> s.noiseFrames + 1 < cfg.noiseHoldFrames
    ensures var s' := After(cfg, s, v);
            && s'.state == CandidateSpeech && s'.runStart == s.runStart
            && s'.onsetFrames == s.onsetFrames + (if Supports(cfg, v) then 1 else 0)
            && s'.noiseFrames == s.noiseFrames + (if Hums(cfg, v) then 1 else 0)
  {
  }

  lemma FirstOfTheCandidate(cfg: VadConfig, s: VadState, v: SignalView)
    requires cfg.Valid() && Idle(s) && Supports(cfg, v)
    ensures var s' := After(cfg, s, v);
            && s'.state == CandidateSpeech && s'.runStart == v.frame.timestamp
            && s'.onsetFrames == 1 && s'.noiseFrames == 0
  {
  }

  /** Exactly then is the machine in the candidate state, with these counts and this start. */
  lemma {:induction false} OpenedIsCandidate(cfg: VadConfig, views: seq<SignalView>, k: nat)
    requires cfg.Valid() && OpenSince(cfg, views, k)
    ensures var s := Listen(cfg, views).vad;
            && s.state == CandidateSpeech && s.runStart == views[k].frame.timestamp
            && s.onsetFrames == 1 + Supporting(cfg, views[k + 1..])
            && s.noiseFrames == Humming(cfg, views[k + 1..])
  {
    var n := |views| - 1;
    if k < n {
      assert views[k + 1..][..n - k - 1] == views[..n][k + 1..];
      assert views[..n][..k] == views[..k];
      OpenedIsCandidate(cfg, views[..n], k);
      OneMoreOfTheCandidate(cfg, Listen(cfg, views[..n]).vad, views[n]);
    } else {
      FirstOfTheCandidate(cfg, Listen(cfg, views[..n]).vad, views[n]);
    }
  }

  /** One more frame that supports it or hums, and decides nothing, leaves the candidate open. */
  lemma OpenedStays(cfg: VadConfig, views: seq<SignalView>, k: nat)
    requires cfg.Valid() && views != [] && OpenSince(cfg, views[..|views| - 1], k)
    requires var v, before := views[|views| - 1], views[..|views| - 1][k + 1..];
             && (Real(v) ==> Supports(cfg, v) || Hums(cfg, v))
             && (Supports(cfg, v) ==> 2 + Supporting(cfg, before) < cfg.minOnsetFrames)
             && (Hums(cfg, v) ==> Humming(cfg, before) + 1 < cfg.noiseHoldFrames)
    ensures OpenSince(cfg, views, k)
  {
    var n := |views| - 1;
    assert views[k + 1..][..n - k - 1] == views[..n][k + 1..];
    assert views[..n][..k] == views[..k];
  }

  lemma FourKindsOfCandidate(cfg: VadConfig, s: VadState, v: SignalView)
    requires cfg.Valid() && s.state == CandidateSpeech && After(cfg, s, v).state == CandidateSpeech
    ensures Real(v) ==> Supports(cfg, v) || Hums(cfg, v)
    ensures Supports(cfg, v) ==> s.onsetFrames + 1 < cfg.minOnsetFrames
    ensures Hums(cfg, v) ==> s.noiseFrames + 1 < cfg.noiseHoldFrames
  {
  }

  lemma {:induction false} CandidateWasOpened(cfg: VadConfig, views: seq<SignalView>) returns (k: nat)
    requires cfg.Valid() && Listen(cfg, views).vad.state == CandidateSpeech
    ensures OpenSince(cfg, views, k)
  {
    var n := |views| - 1;
    if Listen(cfg, views[..n]).vad.state == CandidateSpeech {
      k := CandidateWasOpened(cfg, views[..n]);
      OpenedIsCandidate(cfg, views[..n], k);
      FourKindsOfCandidate(cfg, Listen(cfg, views[..n]).vad, views[n]);
      OpenedStays(cfg, views, k);
    } else {
      k := n;
      assert views[n + 1..] == [];
    }
  }

  /** Some candidate is open that one more supporting frame confirms. */
  ghost predicate AlmostGathered(cfg: VadConfig, views: seq<SignalView>)
    requires cfg.Valid()
  {
    exists k: nat :: OpenSince(cfg, views, k) && Supporting(cfg, views[k + 1..]) + 2 >= cfg.minOnsetFrames
  }

  lemma OnsetOfState(cfg: VadConfig, s: VadState, v: SignalView)
    requires cfg.Valid()
    ensures var d := Decide(cfg, s, v);
            && (d.onsetConfirmed <==>
                  s.state == CandidateSpeech && Supports(cfg, v) && s.onsetFrames + 1 >= cfg.minOnsetFrames)
            && (d.onsetConfirmed ==> d.speechStart == s.runStart && d.speechDuration == v.frame.End() - s.runStart)
  {
  }

  /**
   An onset is confirmed exactly by a supporting frame that brings an open candidate to
   MinOnsetFrames, of which there are never fewer than two.
   */
  lemma OnsetsAreGathered(cfg: VadConfig, views: seq<SignalView>, v: SignalView)
    requires cfg.Valid()
    ensures Decide(cfg, Listen(cfg, views).vad, v).onsetConfirmed <==> Supports(cfg, v) && AlmostGathered(cfg, views)
  {
    var s := Listen(cfg, views).vad;
    OnsetOfState(cfg, s, v);
    if s.state == CandidateSpeech {
      var k := CandidateWasOpened(cfg, views);
      OpenedIsCandidate(cfg, views, k);
    }
    if AlmostGathered(cfg, views) {
      var k: nat :| OpenSince(cfg, views, k) && Supporting(cfg, views[k + 1..]) + 2 >= cfg.minOnsetFrames;
      OpenedIsCandidate(cfg, views, k);
    }
  }

  /** The run is then said to have begun with the frame that opened the candidate. */
  lemma OnsetsAreBackdated(cfg: VadConfig, views: seq<SignalView>, v: SignalView, k: nat)
    requires cfg.Valid() && OpenSince(cfg, views, k) && Decide(cfg, Listen(cfg, views).vad, v).onsetConfirmed
    ensures var d, at := Decide(cfg, Listen(cfg, views).vad, v), views[k].frame.timestamp;
            && d.speechStart == at && d.speechDuration == v.frame.End() - at
            && Listen(cfg, views + [v]).vad.speechStart == at
  {
    OpenedIsCandidate(cfg, views, k);
    OnsetOfState(cfg, Listen(cfg, views).vad, v);
    Extends(cfg, views, v);
  }

  /** A candidate turns to noise exactly at its NoiseHoldFrames-th humming frame. */
  lemma CandidatesTurnToNoise(cfg: VadConfig, views: seq<SignalView>, v: SignalView, k: nat)
    requires cfg.Valid() && OpenSince(cfg, views, k)
    ensures Listen(cfg, views + [v]).vad.state == Noise <==>
              Hums(cfg, v) && Humming(cfg, views[k + 1..]) + 1 >= cfg.noiseHoldFrames
  {
    OpenedIsCandidate(cfg, views, k);
    Extends(cfg, views, v);
  }

  // ---- Noise is not always consecutive ----

  /** The last n frames all hum. */
  ghost predicate EndsHumming(cfg: VadConfig, views: seq<SignalView>, n: nat)
  {
    n <= |views| && forall i :: |views| - n <= i < |views| ==> Hums(cfg, views[i])
  }

  ghost predicate EntersNoise(cfg: VadConfig, views: seq<SignalView>, v: SignalView)
    requires cfg.Valid()
  {
    Listen(cfg, views).vad.state in {Silence, CandidateSpeech} && Listen(cfg, views + [v]).vad.state == Noise
  }

  /** Before speech, noise is declared only after NoiseHoldFrames consecutive humming frames. */
  ghost predicate NoiseIsConsecutive(cfg: VadConfig)
    requires cfg.Valid()
  {
    forall views, v :: EntersNoise(cfg, views, v) ==> EndsHumming(cfg, views + [v], cfg.noiseHoldFrames)
  }

  /**
   So it is documented, and so it is exactly when a single frame is enough. Otherwise the hums of a
   candidate that came to nothing still count, however quiet it has been since.
   */
  lemma NoiseIsConsecutiveExactly(cfg: VadConfig)
    requires cfg.Valid()
    ensures NoiseIsConsecutive(cfg) <==> cfg.noiseHoldFrames == 1
  {
    if cfg.noiseHoldFrames == 1 {
      forall views, v | EntersNoise(cfg, views, v) ensures EndsHumming(cfg, views + [v], 1) {
        Extends(cfg, views, v);
        OnlyHumsAreNoise(cfg, Listen(cfg, views).vad, v);
      }
    } else {
      var views, v := HumsAcrossAPause(cfg);
      assert !EndsHumming(cfg, views + [v], cfg.noiseHoldFrames) by {
        assert (views + [v])[|views| - 1] == views[|views| - 1];
      }
    }
  }

  lemma OnlyHumsAreNoise(cfg: VadConfig, s: VadState, v: SignalView)
    requires cfg.Valid() && s.state in {Silence, CandidateSpeech} && After(cfg, s, v).state == Noise
    ensures Hums(cfg, v)
  {
  }

  lemma {:induction false} AllHum(cfg: VadConfig, hum: SignalView, n: nat)
    requires Hums(cfg, hum) && !Supports(cfg, hum)
    ensures Humming(cfg, seq(n, _ => hum)) == n && Supporting(cfg, seq(n, _ => hum)) == 0
  {
    if n > 0 {
      AllHum(cfg, hum, n - 1);
      assert seq(n, _ => hum)[..n - 1] == seq(n - 1, _ => hum);
    }
  }

  /** A shaped frame, hums one short of noise, a quiet frame, and one more hum. */
  lemma HumsAcrossAPause(cfg: VadConfig) returns (views: seq<SignalView>, v: SignalView)
    requires cfg.Valid() && cfg.noiseHoldFrames >= 2
    ensures views != [] && EntersNoise(cfg, views, v) && Quiet(cfg, views[|views| - 1])
  {
    var loud := cfg.absoluteSilenceRms;
    var voiced := Framed(loud, cfg.onsetThresholdDb, cfg.zcrMin, cfg.minEnergyModulation, 0, 1);
    var hum := Framed(loud, cfg.onsetThresholdDb, cfg.zcrMin - 1.0, cfg.minEnergyModulation, 0, 1);
    var quiet := Framed(loud, 0.0, cfg.zcrMin, cfg.minEnergyModulation, 0, 1);
    var hums := seq(cfg.noiseHoldFrames - 1, _ => hum);
    var candidate := [quiet, voiced] + hums;
    AllHum(cfg, hum, cfg.noiseHoldFrames - 1);
    assert candidate[..1] == [quiet] && candidate[2..] == hums && [quiet][..0] == [];
    assert OpenSince(cfg, candidate, 1);
    OpenedIsCandidate(cfg, candidate, 1);
    EveryOtherMove(cfg, candidate, quiet);
    views, v := candidate + [quiet], hum;
    EveryOtherMove(cfg, views, v);
  }

  // ---- How a run ends ----

  /** The pause that frame k began in an open run: every real frame since is quiet, and none came late enough. */
  ghost predicate PausedSince(cfg: VadConfig, views: seq<SignalView>, k: nat)
    requires cfg.Valid()
  {
    && k < |views| && Listen(cfg, views[..k]).vad.state == Speech && Quiet(cfg, views[k])
    && forall i :: k < i < |views| && Real(views[i]) ==>
         Quiet(cfg, views[i]) && views[i].frame.End() - views[k].frame.timestamp < cfg.minSilence
  }

  lemma {:induction false} PausedIsHangover(cfg: VadConfig, views: seq<SignalView>, k: nat)
    requires cfg.Valid() && PausedSince(cfg, views, k)
    ensures var s := Listen(cfg, views).vad;
            && s.state == CandidateSilence && s.inSilence && s.silenceStart == views[k].frame.timestamp
            && s.inSpeech && s.speechStart == Listen(cfg, views[..k]).vad.speechStart
  {
    var n := |views| - 1;
    assert views[..n][..k] == views[..k];
    if k < n {
      PausedIsHangover(cfg, views[..n], k);
    } else {
      OnsetsAndOffsetsAlternate(cfg, views[..k]);
    }
  }

  lemma {:induction false} HangoverWasAPause(cfg: VadConfig, views: seq<SignalView>) returns (k: nat)
    requires cfg.Valid() && Listen(cfg, views).vad.state == CandidateSilence
    ensures PausedSince(cfg, views, k)
  {
    var n := |views| - 1;
    if Listen(cfg, views[..n]).vad.state == CandidateSilence {
      k := HangoverWasAPause(cfg, views[..n]);
      PausedIsHangover(cfg, views[..n], k);
      assert views[..n][..k] == views[..k];
    } else {
      k := n;
    }
  }

  /** So many humming frames have been let pass in an open run, none of which was followed by speech. */
  ghost predicate HummingSince(cfg: VadConfig, views: seq<SignalView>, k: nat)
    requires cfg.Valid()
  {
    && k <= |views| && Listen(cfg, views[..k]).vad.state == Speech && Listen(cfg, views[..k]).vad.profileFailFrames == 0
    && (forall i :: k <= i < |views| && Real(views[i]) ==> Hums(cfg, views[i]))
    && (Humming(cfg, views[k..]) > 0 ==> Humming(cfg, views[k..]) < cfg.profileGraceFrames)
  }

  lemma {:induction false} HummingIsCounted(cfg: VadConfig, views: seq<SignalView>, k: nat)
    requires cfg.Valid() && HummingSince(cfg, views, k)
    ensures var s := Listen(cfg, views).vad;
            && s.state == Speech && s.profileFailFrames == Humming(cfg, views[k..])
            && s.speechStart == Listen(cfg, views[..k]).vad.speechStart
  {
    var n := |views| - 1;
    if k <= n {
      assert views[k..][..n - k] == views[..n][k..];
      assert views[..n][..k] == views[..k];
      HummingIsCounted(cfg, views[..n], k);
    } else {
      assert views[..k] == views && views[k..] == [];
    }
  }

  lemma HumsOrForgets(cfg: VadConfig, s: VadState, v: SignalView)
    requires cfg.Valid() && After(cfg, s, v).state == Speech && After(cfg, s, v).profileFailFrames != 0
    ensures s.state == Speech && (Real(v) ==> Hums(cfg, v))
    ensures Hums(cfg, v) ==> s.profileFailFrames + 1 < cfg.profileGraceFrames
  {
  }

  lemma HummingStays(cfg: VadConfig, views: seq<SignalView>, k: nat)
    requires cfg.Valid() && views != [] && HummingSince(cfg, views[..|views| - 1], k)
    requires var v, before := views[|views| - 1], views[..|views| - 1][k..];
             && (Real(v) ==> Hums(cfg, v))
             && (Hums(cfg, v) ==> Humming(cfg, before) + 1 < cfg.profileGraceFrames)
    ensures HummingSince(cfg, views, k)
  {
    var n := |views| - 1;
    assert views[k..][..n - k] == views[..n][k..];
    assert views[..n][..k] == views[..k];
  }

  lemma {:induction false} SpeechWasHumming(cfg: VadConfig, views: seq<SignalView>) returns (k: nat)
    requires cfg.Valid() && Listen(cfg, views).vad.state == Speech
    ensures HummingSince(cfg, views, k)
  {
    if Listen(cfg, views).vad.profileFailFrames == 0 {
      k := |views|;
      assert views[..k] == views && views[k..] == [];
    } else {
      var n := |views| - 1;
      HumsOrForgets(cfg, Listen(cfg, views[..n]).vad, views[n]);
      k := SpeechWasHumming(cfg, views[..n]);
      HummingIsCounted(cfg, views[..n], k);
      HummingStays(cfg, views, k);
    }
  }

  /** The caller has paused, and this quiet frame ends MinSilence after the pause began. */
  ghost predicate PausedLong(cfg: VadConfig, views: seq<SignalView>, v: SignalView)
    requires cfg.Valid()
  {
    && Quiet(cfg, v)
    && exists k: nat :: PausedSince(cfg, views, k) && v.frame.End() - views[k].frame.timestamp >= cfg.minSilence
  }

  /** The run has been humming, and this frame is the ProfileGraceFrames-th to do so. */
  ghost predicate HummedLong(cfg: VadConfig, views: seq<SignalView>, v: SignalView)
    requires cfg.Valid()
  {
    && Hums(cfg, v)
    && exists k: nat :: HummingSince(cfg, views, k) && Humming(cfg, views[k..]) + 1 >= cfg.profileGraceFrames
  }

  lemma OffsetOfState(cfg: VadConfig, s: VadState, v: SignalView)
    requires cfg.Valid()
    ensures var d := Decide(cfg, s, v);
            var held := v.frame.End() - s.silenceStart;
            var paused := s.state == CandidateSilence && Quiet(cfg, v) && held >= cfg.minSilence;
            var hummed := s.state == Speech && Hums(cfg, v) && s.profileFailFrames + 1 >= cfg.profileGraceFrames;
            && (d.offsetConfirmed <==> paused || hummed)
            && (paused ==> d.state == Silence && d.runDuration == s.silenceStart - s.speechStart)
            && (hummed ==> d.state == Noise && d.runDuration == v.frame.timestamp - s.speechStart)
            && (!d.offsetConfirmed ==> d.runDuration == 0)
  {
  }

  /**
   A run ends exactly in one of two ways: a pause of MinSilence with no loud frame in it, or
   ProfileGraceFrames humming frames with no shaped one between them.
   */
  lemma RunsEndExactly(cfg: VadConfig, views: seq<SignalView>, v: SignalView)
    requires cfg.Valid()
    ensures var d := Decide(cfg, Listen(cfg, views).vad, v);
            && (d.offsetConfirmed <==> PausedLong(cfg, views, v) || HummedLong(cfg, views, v))
            && (!d.offsetConfirmed ==> d.runDuration == 0)
  {
    var s := Listen(cfg, views).vad;
    OffsetOfState(cfg, s, v);
    if s.state == CandidateSilence {
      var k := HangoverWasAPause(cfg, views);
      PausedIsHangover(cfg, views, k);
    } else if s.state == Speech {
      var k := SpeechWasHumming(cfg, views);
      HummingIsCounted(cfg, views, k);
    }
    if PausedLong(cfg, views, v) {
      var k: nat :| PausedSince(cfg, views, k) && v.frame.End() - views[k].frame.timestamp >= cfg.minSilence;
      PausedIsHangover(cfg, views, k);
    }
    if HummedLong(cfg, views, v) {
      var k: nat :| HummingSince(cfg, views, k) && Humming(cfg, views[k..]) + 1 >= cfg.profileGraceFrames;
      HummingIsCounted(cfg, views, k);
    }
  }

  /** It lasted from its backdated start to the first frame of the pause, which is not counted as speech. */
  lemma PausesAreNotSpeech(cfg: VadConfig, views: seq<SignalView>, v: SignalView, k: nat)
    requires cfg.Valid() && PausedSince(cfg, views, k) && PausedLong(cfg, views, v)
    ensures var d := Decide(cfg, Listen(cfg, views).vad, v);
            && d.offsetConfirmed && d.state == Silence
            && d.runDuration == views[k].frame.timestamp - Listen(cfg, views[..k]).vad.speechStart
            && d.silenceDuration == v.frame.End() - views[k].frame.timestamp
  {
    PausedIsHangover(cfg, views, k);
    RunsEndExactly(cfg, views, v);
    OffsetOfState(cfg, Listen(cfg, views).vad, v);
  }

  /** Or to the frame that was one hum too many. */
  lemma HummingIsNotSpeech(cfg: VadConfig, views: seq<SignalView>, v: SignalView, k: nat)
    requires cfg.Valid() && HummingSince(cfg, views, k) && HummedLong(cfg, views, v)
    ensures var d := Decide(cfg, Listen(cfg, views).vad, v);
            && d.offsetConfirmed && d.state == Noise
            && d.runDuration == v.frame.timestamp - Listen(cfg, views[..k]).vad.speechStart
  {
    HummingIsCounted(cfg, views, k);
    RunsEndExactly(cfg, views, v);
    OffsetOfState(cfg, Listen(cfg, views).vad, v);
  }

  // ---- The confidence reported ----

  /**
   The confidence of an active state is proportional to the excess over the floor: nothing at the
   floor, half the floor's own at the onset threshold, all of it at twice that. That of a quiet
   state falls as it rises, and nothing is claimed before the floor is known.
   */
  lemma ConfidenceIsProportional(cfg: VadConfig, views: seq<SignalView>, v: SignalView)
    requires cfg.Valid()
    ensures var d, onset, c := Decide(cfg, Listen(cfg, views).vad, v), cfg.onsetThresholdDb, v.floorConfidence;
            var top := 2.0 * onset;
            var excess := if v.excessDb < 0.0 then 0.0 else if v.excessDb > top then top else v.excessDb;
            && (d.state in {Speech, CandidateSpeech, Noise} ==> Times(d.confidence, 2.0 * onset) == Times(excess, c))
            && (d.state in {Silence, CandidateSilence} ==>
                  Times(d.confidence, 2.0 * onset) == Times(2.0 * onset - excess, c))
            && (d.state == Uncertain ==> d.confidence == 0.0)
  {
    var onset := cfg.onsetThresholdDb;
    EvidenceIsShare(cfg, v.excessDb);
    var e := Evidence(cfg, v.excessDb);
    Swap(e, v.floorConfidence, 2.0 * onset);
    Swap(1.0 - e, v.floorConfidence, 2.0 * onset);
    Distribute(2.0 * onset, 1.0, e);
    Distribute(1.0 - e, 2.0 * onset, 0.0);
    Distribute(e, 2.0 * onset, 0.0);
    One(2.0 * onset);
  }

  lemma Swap(a: real, b: real, c: real)
    ensures Times(Times(a, b), c) == Times(Times(a, c), b)
  {
  }

  lemma EvidenceIsShare(cfg: VadConfig, excessDb: real)
    requires cfg.Valid()
    ensures var onset := cfg.onsetThresholdDb;
            Times(Evidence(cfg, excessDb), 2.0 * onset)
            == if excessDb < 0.0 then 0.0 else if excessDb > 2.0 * onset then 2.0 * onset else excessDb
  {
    var onset := cfg.onsetThresholdDb;
    var share := 0.5 + (excessDb - onset) / (2.0 * onset);
    assert Times(share, 2.0 * onset) == excessDb by { ShareOf(excessDb, onset); }
    One(2.0 * onset);
    ShareInRange(share, onset);
  }

  lemma ShareInRange(share: real, onset: real)
    requires onset > 0.0
    ensures Times(share, 2.0 * onset) < 0.0 <==> share < 0.0
    ensures Times(share, 2.0 * onset) > 2.0 * onset <==> share > 1.0
    ensures Times(0.0, 2.0 * onset) == 0.0
  {
    Signs(share, 2.0 * onset);
    Signs(-share, 2.0 * onset);
    Signs(share - 1.0, 2.0 * onset);
    Signs(1.0 - share, 2.0 * onset);
  }

  lemma ShareOf(excessDb: real, onset: real)
    requires onset > 0.0
    ensures Times(0.5 + (excessDb - onset) / (2.0 * onset), 2.0 * onset) == excessDb
  {
    assert ((excessDb - onset) / (2.0 * onset)) * (2.0 * onset) == excessDb - onset;
  }
}
