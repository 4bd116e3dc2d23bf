/** The six-state voice activity machine. */
module VoiceActivity {
  import opened Frames
  import opened RealFacts

  datatype Activity = Uncertain | Silence | CandidateSpeech | Speech | CandidateSilence | Noise
  {
    /** A run of speech is open. */
    predicate Active() { Speech? || CandidateSilence? }
  }

  /** The declared edges; the runtime's state machine refuses every other move. */
  predicate CanTransition(from: Activity, to: Activity)
  {
    match from
    case Uncertain => to == Silence
    case Silence => to == CandidateSpeech || to == Noise
    case CandidateSpeech => to == Speech || to == Silence || to == Noise
    case Speech => to == CandidateSilence || to == Noise
    case CandidateSilence => to == Speech || to == Silence
    case Noise => to == Silence || to == CandidateSpeech
  }

  datatype VadConfig = VadConfig(
    onsetThresholdDb: real,
    releaseThresholdDb: real,
    minOnsetFrames: int,
    minSilence: int,
    zcrMin: real,
    zcrMax: real,
    minEnergyModulation: real,
    profileGraceFrames: int,
    noiseHoldFrames: int,
    absoluteSilenceRms: real)
  {
    predicate Valid()
    {
      && 0.0 < releaseThresholdDb < onsetThresholdDb
      && 1 <= minOnsetFrames && 0 < minSilence
      && 1 <= profileGraceFrames && 1 <= noiseHoldFrames
      && 0.0 <= zcrMin < zcrMax <= 1.0
      && 0.0 <= minEnergyModulation && 0.0 < absoluteSilenceRms
    }
  }

  /** A frame with its level above the floor and the window's measurements. */
  datatype SignalView = SignalView(
    frame: Frame<real>,
    excessDb: real,
    modulation: real,
    trend: real,
    floorConfidence: real,
    ready: bool)

  /** One frame measured against every threshold. */
  datatype Explanation = Explanation(audible: bool, aboveOnset: bool, aboveRelease: bool, speechProfile: bool)
  {
    /** All three features: what it takes to enter speech. */
    predicate Speechlike() { audible && aboveOnset && speechProfile }
    /** Energy alone: what it takes to stay in it. */
    predicate Loud() { audible && aboveRelease }
  }

  function Explain(cfg: VadConfig, v: SignalView): Explanation
  {
    Explanation(
      v.frame.rms >= cfg.absoluteSilenceRms,
      v.excessDb >= cfg.onsetThresholdDb,
      v.excessDb >= cfg.releaseThresholdDb,
      cfg.zcrMin <= v.frame.zcr <= cfg.zcrMax && v.modulation >= cfg.minEnergyModulation)
  }

  function Clamp01(v: real): real
  {
    if v < 0.0 then 0.0 else if v > 1.0 then 1.0 else v
  }

  function Evidence(cfg: VadConfig, excessDb: real): real
    requires cfg.onsetThresholdDb != 0.0
  {
    Clamp01(0.5 + (excessDb - cfg.onsetThresholdDb) / (2.0 * cfg.onsetThresholdDb))
  }

  function Confidence(cfg: VadConfig, state: Activity, v: SignalView): real
    requires cfg.onsetThresholdDb != 0.0
  {
    match state
    case Uncertain => 0.0
    case Speech | CandidateSpeech | Noise => Times(Evidence(cfg, v.excessDb), v.floorConfidence)
    case Silence | CandidateSilence => Times(1.0 - Evidence(cfg, v.excessDb), v.floorConfidence)
  }

  /** A state's confidence never exceeds the floor's, and speech and silence split it between them. */
  lemma ConfidenceIsShared(cfg: VadConfig, v: SignalView, state: Activity)
    requires cfg.Valid() && 0.0 <= v.floorConfidence <= 1.0
    ensures 0.0 <= Confidence(cfg, state, v) <= v.floorConfidence
    ensures Confidence(cfg, Speech, v) + Confidence(cfg, Silence, v) == v.floorConfidence
  {
    var e, c := Evidence(cfg, v.excessDb), v.floorConfidence;
    Signs(e, c);
    Signs(1.0 - e, c);
    Distribute(c, e, 1.0 - e);
    Distribute(e, c, 0.0);
    Distribute(1.0 - e, c, 0.0);
    One(c);
  }

  datatype VadState = VadState(
    state: Activity,
    onsetFrames: nat,
    noiseFrames: nat,
    profileFailFrames: nat,
    runStart: int,
    speechStart: int,
    inSpeech: bool,
    silenceStart: int,
    inSilence: bool)
  {
    function SpeechHeld(frameEnd: int): int { if inSpeech then frameEnd - speechStart else 0 }
    function SilenceHeld(frameEnd: int): int { if inSilence then frameEnd - silenceStart else 0 }
  }

  const INITIAL: VadState := VadState(Uncertain, 0, 0, 0, 0, 0, false, 0, false)

  /** What holds between frames. */
  ghost predicate Consistent(s: VadState)
  {
    && (s.inSpeech <==> s.state.Active())
    && (s.state == Speech || s.state == Uncertain ==> !s.inSilence)
    && (s.state == Silence || s.state == CandidateSilence ==> s.inSilence)
    && (s.state == CandidateSpeech ==> s.onsetFrames >= 1)
  }

  datatype Decision = Decision(
    state: Activity,
    previous: Activity,
    refused: bool,
    onsetConfirmed: bool,
    offsetConfirmed: bool,
    runDuration: int,
    confidence: real,
    speechStart: int,
    speechDuration: int,
    silenceStart: int,
    silenceDuration: int)

  // ---- The machine, said once more as edges and what each edge does ----

  /** Where a real frame takes the machine. */
  function NextState(cfg: VadConfig, s: VadState, v: SignalView): Activity
  {
    var ex := Explain(cfg, v);
    match s.state
    case Uncertain => if v.ready then Silence else Uncertain
    case Silence =>
      if ex.Speechlike() then CandidateSpeech
      else if ex.audible && ex.aboveOnset && s.noiseFrames + 1 >= cfg.noiseHoldFrames then Noise
      else Silence
    case CandidateSpeech =>
      if ex.Speechlike() then
        if s.onsetFrames + 1 >= cfg.minOnsetFrames then Speech else CandidateSpeech
      else if ex.Loud() && !ex.speechProfile then
        if s.noiseFrames + 1 >= cfg.noiseHoldFrames then Noise else CandidateSpeech
      else Silence
    case Speech =>
      if !ex.Loud() then CandidateSilence
      else if !ex.speechProfile && s.profileFailFrames + 1 >= cfg.profileGraceFrames then Noise
      else Speech
    case CandidateSilence =>
      if ex.Loud() then Speech
      else if v.frame.End() - s.silenceStart >= cfg.minSilence then Silence
      else CandidateSilence
    case Noise =>
      if ex.Speechlike() then CandidateSpeech else if ex.Loud() then Noise else Silence
  }

  predicate Onset(s: VadState, next: Activity) { s.state == CandidateSpeech && next == Speech }

  predicate Offset(s: VadState, next: Activity)
  {
    (s.state == Speech && next == Noise) || (s.state == CandidateSilence && next == Silence)
  }

  /** The effect of moving, or staying, along one edge on a real frame. */
  function Moved(cfg: VadConfig, s: VadState, v: SignalView): VadState
  {
    var ex, next, at := Explain(cfg, v), NextState(cfg, s, v), v.frame.timestamp;
    var opens := s.state != CandidateSpeech && next == CandidateSpeech;
    var abandons := s.state == CandidateSpeech && (next == Silence || next == Noise);
    var quiets := next != s.state && (next == Silence || next == CandidateSilence);
    var voiced := next != s.state && next == Speech;
    VadState(
      next,
      if opens then 1 else if abandons then 0
      else if s.state == CandidateSpeech && ex.Speechlike() then s.onsetFrames + 1 else s.onsetFrames,
      if opens then 0
      else if s.state == Silence then if ex.audible && ex.aboveOnset then s.noiseFrames + 1 else 0
      else if s.state == CandidateSpeech && ex.Loud() && !ex.speechProfile then s.noiseFrames + 1
      else if s.state == Noise && next == Silence then 0 else s.noiseFrames,
      if voiced then 0
      else if s.state == Speech then
        if next == Speech && !ex.speechProfile then s.profileFailFrames + 1 else 0
      else s.profileFailFrames,
      if opens then at else if abandons then 0 else s.runStart,
      if Onset(s, next) then s.runStart else s.speechStart,
      (s.inSpeech || Onset(s, next)) && !Offset(s, next),
      if quiets && !s.inSilence then at else s.silenceStart,
      (s.inSilence || quiets) && !voiced)
  }

  /** A synthesised frame is no evidence: the machine holds. */
  function After(cfg: VadConfig, s: VadState, v: SignalView): VadState
  {
    if v.frame.synthesised then s else Moved(cfg, s, v)
  }

  function Decide(cfg: VadConfig, s: VadState, v: SignalView): Decision
    requires cfg.onsetThresholdDb != 0.0
  {
    var s', end := After(cfg, s, v), v.frame.End();
    Decision(
      s'.state,
      s.state,
      false,
      Onset(s, s'.state),
      Offset(s, s'.state),
      if !Offset(s, s'.state) then 0
      else if s.state == Speech then v.frame.timestamp - s.speechStart
      else s.silenceStart - s.speechStart,
      Confidence(cfg, s'.state, v),
      if s'.inSpeech then s'.speechStart else 0,
      s'.SpeechHeld(end),
      if s'.inSilence then s'.silenceStart else 0,
      s'.SilenceHeld(end))
  }

  lemma StaysConsistent(cfg: VadConfig, s: VadState, v: SignalView)
    requires cfg.Valid() && Consistent(s)
    ensures Consistent(After(cfg, s, v))
    ensures !v.frame.synthesised && NextState(cfg, s, v) != s.state ==>
              CanTransition(s.state, NextState(cfg, s, v))
  {
  }

  class SpeechDetector {
    const cfg: VadConfig
    var state: Activity
    var onsetFrames: nat
    var noiseFrames: nat
    var profileFailFrames: nat
    var runStart: int
    var speechStart: int
    var inSpeech: bool
    var silenceStart: int
    var inSilence: bool

    ghost predicate Valid()
      reads this
    {
      cfg.Valid() && Consistent(State())
    }

    function State(): VadState
      reads this
    {
      VadState(state, onsetFrames, noiseFrames, profileFailFrames, runStart, speechStart, inSpeech, silenceStart,
               inSilence)
    }

    constructor (cfg: VadConfig)
      requires cfg.Valid()
      ensures Valid() && State() == INITIAL && this.cfg == cfg
    {
      this.cfg := cfg;
      state, onsetFrames, noiseFrames, profileFailFrames, runStart := Uncertain, 0, 0, 0, 0;
      speechStart, inSpeech, silenceStart, inSilence := 0, false, 0, false;
    }

    method Reset()
      requires Valid()
      modifies this
      ensures Valid() && State() == INITIAL
    {
      state, onsetFrames, noiseFrames, profileFailFrames, runStart := Uncertain, 0, 0, 0, 0;
      speechStart, inSpeech, silenceStart, inSilence := 0, false, 0, false;
    }

    method BeginSilence(at: int)
      modifies this`silenceStart, this`inSilence
      ensures inSilence && silenceStart == if old(inSilence) then old(silenceStart) else at
    {
      if !inSilence {
        silenceStart := at;
        inSilence := true;
      }
    }

    method AbandonOnset()
      modifies this`onsetFrames, this`runStart
      ensures onsetFrames == 0 && runStart == 0
    {
      onsetFrames := 0;
      runStart := 0;
    }

    function Report(v: SignalView, prev: Activity, refused: bool, onset: bool, offset: bool, run: int): Decision
      requires cfg.Valid()
      reads this
    {
      var end := v.frame.End();
      Decision(state, prev, refused, onset, offset, run, Confidence(cfg, state, v),
               if inSpeech then speechStart else 0, State().SpeechHeld(end),
               if inSilence then silenceStart else 0, State().SilenceHeld(end))
    }

    /** Takes the edge if it is declared; otherwise the decision is that nothing changed. */
    method Conclude(v: SignalView, next: Activity, onset: bool, offset: bool, run: int) returns (d: Decision)
      requires cfg.Valid()
      modifies this`state
      ensures state == if CanTransition(old(state), next) then next else old(state)
      ensures var changed := state != old(state);
              d == Report(v, old(state), next != old(state) && !changed, onset && changed, offset && changed, run)
    {
      var prev, refused, changed := state, false, next != state;
      if changed {
        if CanTransition(prev, next) {
          state := next;
        } else {
          refused, changed := true, false;
        }
      }
      return Report(v, prev, refused, onset && changed, offset && changed, run);
    }

    // The arms of the source's one switch, grouped by whether a run is open. Each changes every
    // field but the state itself, which only Conclude moves.

    method ObserveIdle(v: SignalView, ex: Explanation) returns (next: Activity)
      requires Valid() && ex == Explain(cfg, v) && (state == Uncertain || state == Silence || state == Noise)
      modifies this
      ensures state == old(state) && next == NextState(cfg, old(State()), v)
      ensures State().(state := next) == Moved(cfg, old(State()), v)
    {
      next := state;
      if state == Uncertain {
        if v.ready {
          next := Silence;
          BeginSilence(v.frame.timestamp);
        }
      } else if ex.audible && ex.aboveOnset && ex.speechProfile {
        next := CandidateSpeech;
        runStart, onsetFrames, noiseFrames := v.frame.timestamp, 1, 0;
      } else if state == Silence {
        if ex.audible && ex.aboveOnset {
          noiseFrames := noiseFrames + 1;
          if noiseFrames >= cfg.noiseHoldFrames {
            next := Noise;
          }
        } else {
          noiseFrames := 0;
        }
      } else if !(ex.audible && ex.aboveRelease) {
        next := Silence;
        noiseFrames := 0;
        BeginSilence(v.frame.timestamp);
      }
    }

    method ObserveCandidate(v: SignalView, ex: Explanation) returns (next: Activity, onset: bool)
      requires Valid() && ex == Explain(cfg, v) && state == CandidateSpeech
      modifies this
      ensures state == old(state) && next == NextState(cfg, old(State()), v) && (onset <==> next == Speech)
      ensures State().(state := next) == Moved(cfg, old(State()), v)
    {
      next, onset := state, false;
      if ex.audible && ex.aboveOnset && ex.speechProfile {
        onsetFrames := onsetFrames + 1;
        if onsetFrames >= cfg.minOnsetFrames {
          next := Speech;
          speechStart, inSpeech, inSilence, profileFailFrames := runStart, true, false, 0;
          onset := true;
        }
      } else if ex.audible && ex.aboveRelease && !ex.speechProfile {
        noiseFrames := noiseFrames + 1;
        if noiseFrames >= cfg.noiseHoldFrames {
          next := Noise;
          AbandonOnset();
        }
      } else {
        next := Silence;
        AbandonOnset();
        BeginSilence(v.frame.timestamp);
      }
    }

    method ObserveRun(v: SignalView, ex: Explanation) returns (next: Activity, offset: bool, run: int)
      requires Valid() && ex == Explain(cfg, v) && state.Active() && !v.frame.synthesised
      modifies this
      ensures state == old(state) && next == NextState(cfg, old(State()), v)
      ensures State().(state := next) == Moved(cfg, old(State()), v)
      ensures offset == Offset(old(State()), next) && run == Decide(cfg, old(State()), v).runDuration
    {
      next, offset, run := state, false, 0;
      if state == Speech {
        if !ex.audible || !ex.aboveRelease {
          next := CandidateSilence;
          BeginSilence(v.frame.timestamp);
          profileFailFrames := 0;
        } else if ex.speechProfile {
          profileFailFrames := 0;
        } else {
          profileFailFrames := profileFailFrames + 1;
          if profileFailFrames >= cfg.profileGraceFrames {
            next := Noise;
            run := v.frame.timestamp - speechStart;
            offset := true;
            inSpeech, profileFailFrames := false, 0;
          }
        }
      } else if ex.audible && ex.aboveRelease {
        next := Speech;
        inSilence, profileFailFrames := false, 0;
      } else if v.frame.End() - silenceStart >= cfg.minSilence {
        next := Silence;
        run := silenceStart - speechStart;
        offset := true;
        inSpeech := false;
      }
    }

    method Observe(v: SignalView) returns (d: Decision)
      requires Valid()
      modifies this
      ensures Valid()
      ensures State() == After(cfg, old(State()), v)
      ensures d == Decide(cfg, old(State()), v)
    {
      StaysConsistent(cfg, State(), v);
      var ex := Explain(cfg, v);
      if v.frame.synthesised {
        return Report(v, state, false, false, false, 0);
      }
      var next, onset, offset, run := state, false, false, 0;
      match state {
        case Uncertain | Silence | Noise => next := ObserveIdle(v, ex);
        case CandidateSpeech => next, onset := ObserveCandidate(v, ex);
        case Speech | CandidateSilence => next, offset, run := ObserveRun(v, ex);
      }
      d := Conclude(v, next, onset, offset, run);
    }
  }
}
