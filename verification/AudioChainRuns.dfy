/** What the detectors do for each other in a run: how a turn ends, what the floor learns, what interrupts. */
module AudioChainRuns {
  import opened Frames
  import opened VoiceActivity
  import opened Endpoint
  import E = EndpointTheorems
  import opened BargeIn
  import opened AudioChain
  import opened AudioChainTheorems
  import Ring
  import V = VoiceActivityTheorems

  // ---- The chain hears what the voice activity machine alone would ----

  function Heard(cfg: ChainConfig, delivered: Option<int>, inputs: seq<Input>): ChainState
    requires cfg.Valid()
  {
    Run(cfg, delivered, inputs).chain
  }

  lemma HearsNext(cfg: ChainConfig, delivered: Option<int>, inputs: seq<Input>, i: Input)
    requires cfg.Valid()
    ensures Heard(cfg, delivered, inputs + [i]) == ChainAfter(cfg, Heard(cfg, delivered, inputs), i).0
  {
    assert (inputs + [i])[..|inputs|] == inputs;
  }

  /** One input as that machine sees it: its own measurements, ready once the floor and the window are. */
  function Seen(i: Input, settled: bool): SignalView
  {
    SignalView(i.frame, i.excessDb, i.modulation, i.trend, i.floorConfidence, settled && i.windowReady)
  }

  function AllSeen(cfg: ChainConfig, delivered: Option<int>, inputs: seq<Input>): (views: seq<SignalView>)
    requires cfg.Valid()
    ensures |views| == |inputs|
  {
    if inputs == [] then []
    else
      AllSeen(cfg, delivered, inputs[..|inputs| - 1])
      + [Seen(inputs[|inputs| - 1], Heard(cfg, delivered, inputs).noise.converged)]
  }

  lemma NextIsHeard(cfg: ChainConfig, t: Trace, i: Input)
    requires cfg.Valid()
    ensures var t' := Next(cfg, t, i); t'.log == V.Heard(cfg.vad, t.log, Seen(i, t'.chain.noise.converged))
  {
  }

  /** So what every run of that machine does, every run of the chain does. */
  lemma {:induction false} TheChainListens(cfg: ChainConfig, delivered: Option<int>, inputs: seq<Input>)
    requires cfg.Valid()
    ensures var log := V.Listen(cfg.vad, AllSeen(cfg, delivered, inputs));
            Run(cfg, delivered, inputs).log == log && Heard(cfg, delivered, inputs).vad == log.vad
  {
    RunStaysLinked(cfg, delivered, inputs);
    if inputs != [] {
      var n := |inputs| - 1;
      TheChainListens(cfg, delivered, inputs[..n]);
      var views := AllSeen(cfg, delivered, inputs);
      assert views[..n] == AllSeen(cfg, delivered, inputs[..n]);
      NextIsHeard(cfg, Run(cfg, delivered, inputs[..n]), inputs[n]);
    }
  }

  // ---- A silence ends the turn ----

  /** A real frame below the thresholds an open run is held to. */
  predicate Quiet(cfg: ChainConfig, i: Input)
  {
    !i.frame.synthesised && (i.frame.rms < cfg.vad.absoluteSilenceRms || i.excessDb < cfg.vad.releaseThresholdDb)
  }

  /** A silence: a quiet frame, then nothing but quiet or synthesised ones. */
  predicate Hush(cfg: ChainConfig, hush: seq<Input>)
  {
    && hush != [] && Quiet(cfg, hush[0])
    && forall k :: 0 < k < |hush| ==> hush[k].frame.synthesised || Quiet(cfg, hush[k])
  }

  /** The state a silence that began at the given time has led to, in a run that began at spoke. */
  ghost predicate Hushed(s: ChainState, began: int, spoke: int)
  {
    && s.vad.state in {CandidateSilence, Silence} && s.vad.inSilence && s.vad.silenceStart == began
    && (s.vad.state == CandidateSilence ==> s.vad.inSpeech && s.vad.speechStart == spoke)
    && (s.vad.state == Silence ==> !s.vad.inSpeech)
    && (s.vad.state == Silence && s.endpoint.turnOpen ==> s.endpoint.speechDuration == began - spoke)
  }

  lemma HushDeepens(cfg: ChainConfig, s: ChainState, i: Input, began: int, spoke: int)
    requires cfg.Valid() && Hushed(s, began, spoke) && (i.frame.synthesised || Quiet(cfg, i)) && began >= spoke
    ensures var (s', a) := ChainAfter(cfg, s, i);
            && Hushed(s', began, spoke) && !a.vad.onsetConfirmed
            && a.vad.silenceDuration == i.frame.timestamp + i.frame.duration - began
            && (s.vad.state == CandidateSilence && s'.vad.state == CandidateSilence && a.endpoint != NO_DECISION ==>
                  a.endpoint.speechDuration >= i.frame.timestamp + i.frame.duration - spoke)
            && (s'.vad.state == Silence && a.endpoint != NO_DECISION ==> a.endpoint.speechDuration == began - spoke)
  {
  }

  lemma HushBegins(cfg: ChainConfig, s: ChainState, i: Input)
    requires cfg.Valid() && Consistent(s.vad) && s.vad.state == Speech && Quiet(cfg, i)
    ensures Hushed(ChainAfter(cfg, s, i).0, i.frame.timestamp, s.vad.speechStart)
  {
  }

  /** Wherever the hush has led, it is remembered since its first frame. */
  lemma {:induction false} HushIsRemembered(
    cfg: ChainConfig, delivered: Option<int>, inputs: seq<Input>, hush: seq<Input>, spoke: int)
    requires cfg.Valid() && Hush(cfg, hush)
    requires var s := Heard(cfg, delivered, inputs).vad; s.state == Speech && spoke == s.speechStart
    requires spoke <= hush[0].frame.timestamp
    ensures Hushed(Heard(cfg, delivered, inputs + hush), hush[0].frame.timestamp, spoke)
  {
    var n := |hush| - 1;
    var before := inputs + hush[..n];
    assert inputs + hush == before + [hush[n]];
    HearsNext(cfg, delivered, before, hush[n]);
    if n == 0 {
      assert before == inputs;
      RunStaysLinked(cfg, delivered, inputs);
      HushBegins(cfg, Heard(cfg, delivered, inputs), hush[0]);
    } else {
      HushIsRemembered(cfg, delivered, inputs, hush[..n], spoke);
      HushDeepens(cfg, Heard(cfg, delivered, before), hush[n], hush[0].frame.timestamp, spoke);
    }
  }

  // ---- The frame that ends the turn ----

  /** Neither gate of the policy is shut as this frame arrives, and its energy does not forbid the end. */
  predicate Ungated(cfg: ChainConfig, s: ChainState, i: Input)
  {
    && !(cfg.endpoint.suppressWhileAgentSpeaking && i.agentSpeaking)
    && !(cfg.endpoint.suppressDuringBargeIn && s.bargeIn.active)
    && !(cfg.endpoint.requireFallingEnergy && i.trend > cfg.endpoint.energyTrendTolerance)
  }

  lemma LastOfTheHush(cfg: ChainConfig, s: ChainState, i: Input, began: int, spoke: int)
    requires cfg.Valid() && Hushed(s, began, spoke) && (i.frame.synthesised || Quiet(cfg, i)) && began >= spoke
    requires s.endpoint.turnOpen
    ensures var out, end := ChainAfter(cfg, s, i).1.endpoint, i.frame.timestamp + i.frame.duration;
            && (out.confirmed && out.reason == MaxTurn <==>
                  end - s.endpoint.turnStart >= cfg.endpoint.maxTurnDuration)
            && (out.confirmed && out.reason == SilenceWindow ==>
                  && end - s.endpoint.turnStart < cfg.endpoint.maxTurnDuration
                  && end - began >= cfg.endpoint.silenceWindow && Ungated(cfg, s, i))
            && (end - began >= cfg.endpoint.silenceWindow ==>
                  Ungated(cfg, s, i) && began - spoke >= cfg.endpoint.minSpeechDuration ==> out.confirmed)
  {
    HushDeepens(cfg, s, i, began, spoke);
  }

  /**
   A caller who has said enough and falls silent is answered: by the first ungated frame that ends
   SilenceWindow after the silence began, if not sooner, the turn is over. The silence may be
   interspersed with synthesised frames, and an interruption can hold it up only while its own run is open.
   */
  lemma SilenceEndsTheTurn(
    cfg: ChainConfig, delivered: Option<int>, inputs: seq<Input>, hush: seq<Input>, i: Input)
    requires cfg.Valid() && Hush(cfg, hush) && (i.frame.synthesised || Quiet(cfg, i))
    requires Heard(cfg, delivered, inputs).vad.state == Speech
    requires var said := hush[0].frame.timestamp - Heard(cfg, delivered, inputs).vad.speechStart;
             said >= cfg.endpoint.minSpeechDuration
    requires i.frame.timestamp + i.frame.duration - hush[0].frame.timestamp >= cfg.endpoint.silenceWindow
    requires Ungated(cfg, Heard(cfg, delivered, inputs + hush), i)
    ensures !Heard(cfg, delivered, inputs + hush + [i]).endpoint.turnOpen
    ensures Heard(cfg, delivered, inputs + hush).bargeIn.active ==> Heard(cfg, delivered, inputs + hush).vad.inSpeech
  {
    var s, spoke := Heard(cfg, delivered, inputs + hush), Heard(cfg, delivered, inputs).vad.speechStart;
    HushIsRemembered(cfg, delivered, inputs, hush, spoke);
    HearsNext(cfg, delivered, inputs + hush, i);
    RunStaysLinked(cfg, delivered, inputs + hush);
    HushDeepens(cfg, s, i, hush[0].frame.timestamp, spoke);
    if s.endpoint.turnOpen {
      LastOfTheHush(cfg, s, i, hush[0].frame.timestamp, spoke);
    }
    TurnCloses(cfg, s, i);
  }

  lemma TurnCloses(cfg: ChainConfig, s: ChainState, i: Input)
    requires cfg.Valid()
    ensures var (s', a) := ChainAfter(cfg, s, i);
            s'.endpoint.turnOpen <==> (s.endpoint.turnOpen || a.vad.onsetConfirmed) && !a.endpoint.confirmed
  {
  }

  /** While the agent speaks, or an interruption is under way, a policy that says so ends no turn by silence. */
  lemma GatesHoldTheTurn(cfg: ChainConfig, delivered: Option<int>, inputs: seq<Input>, i: Input)
    requires cfg.Valid()
    requires || (cfg.endpoint.suppressWhileAgentSpeaking && i.agentSpeaking)
             || (cfg.endpoint.suppressDuringBargeIn && Heard(cfg, delivered, inputs).bargeIn.active)
    ensures !EndsBySilence(cfg, Run(cfg, delivered, inputs), i)
  {
    var s := Heard(cfg, delivered, inputs);
    var v := i.View(NoiseHeard(cfg, s, i).converged);
    E.SilenceEndsItExactly(cfg.endpoint, s.endpoint, v, Decided(cfg, s, i), Gates(i.agentSpeaking, s.bargeIn.active));
  }

  // ---- What the floor learns ----

  /**
   Once settled, the floor and its levels are moved by exactly the real frames outside a run of
   speech; a frame of the run, its first quiet one included, leaves both as they were.
   */
  lemma SpeechTeachesTheFloorNothing(cfg: ChainConfig, delivered: Option<int>, inputs: seq<Input>, i: Input)
    requires cfg.Valid() && Heard(cfg, delivered, inputs).noise.converged
    ensures var s, s' := Heard(cfg, delivered, inputs), Heard(cfg, delivered, inputs + [i]);
            && s'.noise.converged
            && (s.vad.state.Active() || i.frame.synthesised ==> s'.noise == s.noise)
            && (!s.vad.state.Active() && !i.frame.synthesised && !s'.vad.state.Active() ==>
                  && s'.noise.levels == Ring.Last(s.noise.levels + [i.frame.rms], cfg.noise.windowFrames)
                  && s'.noise.total == s.noise.total + 1)
  {
    RunStaysLinked(cfg, delivered, inputs);
    HearsNext(cfg, delivered, inputs, i);
  }

  /** Silence is first asserted exactly when the floor has settled and the window is ready. */
  lemma NothingIsAssertedTooSoon(cfg: ChainConfig, delivered: Option<int>, inputs: seq<Input>, i: Input)
    requires cfg.Valid() && Heard(cfg, delivered, inputs).vad.state == Uncertain
    ensures var s' := Heard(cfg, delivered, inputs + [i]);
            && s'.vad.state in {Uncertain, Silence}
            && (s'.vad.state == Silence ==> s'.noise.converged && i.windowReady && !i.frame.synthesised)
            && (s'.noise.converged && i.windowReady && !i.frame.synthesised ==> s'.vad.state == Silence)
  {
    HearsNext(cfg, delivered, inputs, i);
  }

  // ---- What interrupts ----

  /** Without further frames to wait for, an onset is delivered on its own frame or not at all. */
  lemma OnsetsInterrupt(cfg: ChainConfig, delivered: Option<int>, inputs: seq<Input>, i: Input)
    requires cfg.Valid() && cfg.bargeIn.confirmFrames == 0
    ensures var s, out := Heard(cfg, delivered, inputs), ChainAfter(cfg, Heard(cfg, delivered, inputs), i).1;
            out.bargeIn == Delivered <==>
              && out.vad.onsetConfirmed && cfg.bargeIn.enabled && i.controller == Accepts
              && (cfg.bargeIn.requireAgentSpeaking ==> i.agentSpeaking)
              && (s.bargeIn.lastDelivered != None ==>
                    i.now - s.bargeIn.lastDelivered.value >= cfg.bargeIn.minInterval)
              && (i.frame.arrival != None ==> i.now - i.frame.arrival.value <= cfg.bargeIn.maxAge)
  {
  }
}
