/** The detectors in the order one frame passes through them. */
module AudioChain {
  import opened Frames
  import opened NoiseFloor
  import opened VoiceActivity
  import opened Endpoint
  import opened BargeIn

  datatype ChainConfig = ChainConfig(
    frameInterval: int,
    noise: NoiseConfig,
    vad: VadConfig,
    endpoint: EndpointPolicy,
    bargeIn: BargeInPolicy)
  {
    /** Each section's own checks, and those that tie the sections together. */
    ghost predicate Valid()
    {
      && noise.Valid() && vad.Valid() && endpoint.Valid() && bargeIn.Valid()
      && 0 < frameInterval <= vad.minSilence <= endpoint.silenceWindow
      && noise.minFloor <= vad.absoluteSilenceRms
    }
  }

  /**
   One frame with what surrounds it: the level ratio and window statistics it measures, which
   may be anything here, and the conversation's side.
   */
  datatype Input = Input(
    frame: Frame<real>,
    excessDb: real,
    modulation: real,
    trend: real,
    floorConfidence: real,
    windowReady: bool,
    agentSpeaking: bool,
    now: int,
    controller: Controller)
  {
    function View(converged: bool): SignalView
    {
      SignalView(frame, excessDb, modulation, trend, floorConfidence, converged && windowReady)
    }
  }

  datatype Analysis = Analysis(vad: Decision, endpoint: EndpointDecision, bargeIn: Outcome)

  /** lastActive: whether the last verdict was active; the gate still goes by it. */
  datatype ChainState = ChainState(
    noise: NoiseState,
    vad: VadState,
    lastActive: bool,
    endpoint: EndpointState,
    bargeIn: BargeInState)

  function Fresh(cfg: ChainConfig, delivered: Option<int>): ChainState
  {
    ChainState(Initial(cfg.noise), INITIAL, false, CLOSED, QUIET.(lastDelivered := delivered))
  }

  /** The levels as the estimator sees this frame, before any retraction. */
  function NoiseHeard(cfg: ChainConfig, s: ChainState, i: Input): NoiseState
  {
    Observed(cfg.noise, s.noise, i.frame, s.lastActive)
  }

  function Decided(cfg: ChainConfig, s: ChainState, i: Input): Decision
    requires cfg.vad.onsetThresholdDb != 0.0
  {
    Decide(cfg.vad, s.vad, i.View(NoiseHeard(cfg, s, i).converged))
  }

  function ChainAfter(cfg: ChainConfig, s: ChainState, i: Input): (ChainState, Analysis)
    requires cfg.vad.onsetThresholdDb != 0.0
  {
    var heard := NoiseHeard(cfg, s, i);
    var v := i.View(heard.converged);
    var d := Decide(cfg.vad, s.vad, v);
    var (e, ended) := EndpointAfter(cfg.endpoint, s.endpoint, v, d, Gates(i.agentSpeaking, s.bargeIn.active));
    var (b, outcome) := BargeInAfter(cfg.bargeIn, s.bargeIn, v, d, i.agentSpeaking, i.now, i.controller);
    (ChainState(
       if d.onsetConfirmed then Retracted(heard, cfg.vad.minOnsetFrames) else heard,
       After(cfg.vad, s.vad, v),
       d.state.Active(),
       e,
       b),
     Analysis(d, ended, outcome))
  }

  class AudioAnalyzer {
    const cfg: ChainConfig
    const noise: NoiseAnalyzer
    const vad: SpeechDetector
    const endpoint: EndpointDetector
    const bargeIn: BargeInDetector
    var lastActive: bool

    ghost predicate Valid()
      reads this, noise, noise.ring, vad, endpoint
    {
      && cfg.Valid()
      && noise.cfg == cfg.noise && vad.cfg == cfg.vad
      && endpoint.policy == cfg.endpoint && bargeIn.policy == cfg.bargeIn
      && noise.Valid() && vad.Valid() && endpoint.Valid()
    }

    ghost function State(): ChainState
      reads this, noise, vad, endpoint, bargeIn
    {
      ChainState(noise.State(), vad.State(), lastActive, endpoint.State(), bargeIn.State())
    }

    constructor (cfg: ChainConfig)
      requires cfg.Valid()
      ensures Valid() && State() == Fresh(cfg, None) && this.cfg == cfg
    {
      this.cfg := cfg;
      noise := new NoiseAnalyzer(cfg.noise);
      vad := new SpeechDetector(cfg.vad);
      endpoint := new EndpointDetector(cfg.endpoint);
      bargeIn := new BargeInDetector(cfg.bargeIn);
      lastActive := false;
    }

    /** The stateful front of the chain: the floor, then the verdict, then the correction of the floor. */
    method Hear(i: Input) returns (v: SignalView, d: Decision)
      requires Valid()
      modifies this, noise, noise.ring, vad
      ensures Valid()
      ensures v == i.View(NoiseHeard(cfg, old(State()), i).converged) && d == Decided(cfg, old(State()), i)
      ensures vad.State() == After(cfg.vad, old(vad.State()), v) && lastActive == d.state.Active()
      ensures noise.State() == var heard := NoiseHeard(cfg, old(State()), i);
                               if d.onsetConfirmed then Retracted(heard, cfg.vad.minOnsetFrames) else heard
    {
      noise.Observe(i.frame, lastActive);
      v := i.View(noise.converged);
      d := vad.Observe(v);
      if d.onsetConfirmed {
        noise.Retract(cfg.vad.minOnsetFrames);
      }
      lastActive := d.state.Active();
    }

    method Analyze(i: Input) returns (out: Analysis)
      requires Valid()
      modifies this, noise, noise.ring, vad, endpoint, bargeIn
      ensures Valid()
      ensures (State(), out) == ChainAfter(cfg, old(State()), i)
    {
      var v, d := Hear(i);
      var ended := endpoint.Observe(v, d, Gates(i.agentSpeaking, bargeIn.active));
      var outcome := bargeIn.Observe(v, d, i.agentSpeaking, i.now, i.controller);
      return Analysis(d, ended, outcome);
    }

    method Reset()
      requires Valid()
      modifies this, noise, noise.ring, vad, endpoint, bargeIn
      ensures Valid() && State() == Fresh(cfg, old(State()).bargeIn.lastDelivered)
    {
      noise.Reset();
      vad.Reset();
      endpoint.Reset();
      bargeIn.Reset();
      lastActive := false;
    }
  }
}
