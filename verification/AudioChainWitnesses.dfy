/** Runs in which the documented behaviour of the chain is not what happens. */
module AudioChainWitnesses {
  import opened Frames
  import opened NoiseFloor
  import opened VoiceActivity
  import opened Endpoint
  import opened BargeIn
  import opened AudioChain
  import opened AudioChainTheorems

  /** A small configuration: one frame of warm-up, and a hangover as long as the silence window. */
  function Config(minOnsetFrames: int): ChainConfig
  {
    ChainConfig(
      5,
      NoiseConfig(1, 8, 0.1, 0.5, 1.5, 0.001, 0.5),
      VadConfig(6.0, 3.0, minOnsetFrames, 10, 0.0, 0.5, 0.1, 1, 2, 0.002),
      EndpointPolicy(10, 0, 1000, false, 0.0, false, false),
      BargeInPolicy(false, 0, 0, 0, false))
  }

  lemma ConfigIsValid(n: int)
    requires 1 <= n
    ensures Config(n).Valid()
  {
  }

  /** What is measured of one frame: its level, how far that is above the floor, and the modulation up to it. */
  datatype Measure = Measure(rms: real, excessDb: real, modulation: real)
  {
    /** Speech on all three counts. */
    predicate Voice() { 0.002 <= rms && 6.0 <= excessDb && 0.1 <= modulation }

    /** Loud, but too steady for speech. */
    predicate Hum() { 0.002 <= rms && 3.0 <= excessDb && modulation < 0.1 }

    /** Close to the floor. */
    predicate Quiet() { 0.0 <= rms && excessDb < 3.0 }
  }

  /** Frame k, five units long; a gap is filled by a synthesised one. */
  function Hear(k: nat, x: Measure, gap: bool): Input
  {
    Input(Frame(k % (MAX_UINT64 + 1), 5 * k, 5, None, x.rms, x.rms * x.rms, 0.2, 0.0, gap),
          x.excessDb, x.modulation, 0.0, 1.0, true, false, 0, Absent)
  }

  /** The inputs lead from the start to t. */
  predicate Leads(cfg: ChainConfig, inputs: seq<Input>, t: Trace)
    requires cfg.vad.onsetThresholdDb != 0.0
  {
    Run(cfg, None, inputs) == t
  }

  lemma NothingHeard(cfg: ChainConfig)
    requires cfg.vad.onsetThresholdDb != 0.0
    ensures Leads(cfg, [], Begin(cfg, None))
  {
  }

  lemma OneMore(cfg: ChainConfig, inputs: seq<Input>, t: Trace, i: Input)
    requires cfg.vad.onsetThresholdDb != 0.0 && Leads(cfg, inputs, t)
    ensures Leads(cfg, inputs + [i], Next(cfg, t, i))
  {
    assert (inputs + [i])[..|inputs|] == inputs;
  }

  // ---- Until the onset ----

  /** Ready and silent, one level heard. */
  predicate Waiting(t: Trace, q: Measure)
  {
    && t.chain.noise.converged && t.chain.noise.levels == [q.rms] && !t.chain.lastActive
    && t.chain.vad.state == Silence && t.chain.vad.noiseFrames == 0 && t.chain.endpoint == CLOSED
  }

  lemma FirstFrame(n: int, q: Measure)
    requires 1 <= n && q.Quiet()
    ensures Waiting(Next(Config(n), Begin(Config(n), None), Hear(0, q, false)), q)
  {
  }

  /** A candidate that opened at frame 1. */
  predicate Candidate(t: Trace, q: Measure, leak: seq<real>, onsetFrames: nat, doubtful: nat)
  {
    && t.chain.noise.converged && t.chain.noise.levels == [q.rms] + leak && !t.chain.lastActive
    && t.chain.vad.state == CandidateSpeech && t.chain.vad.onsetFrames == onsetFrames
    && t.chain.vad.noiseFrames == doubtful && t.chain.vad.runStart == 5
    && t.older == [q.rms] && t.leak == leak && t.doubtful == doubtful && t.chain.endpoint == CLOSED
  }

  lemma CandidateOpens(n: int, t: Trace, q: Measure, a: Measure)
    requires 1 <= n && a.Voice() && Waiting(t, q)
    ensures Candidate(Next(Config(n), t, Hear(1, a, false)), q, [a.rms], 1, 0)
  {
    assert [q.rms] + [a.rms] == [q.rms, a.rms];
  }

  lemma HumIsDoubtful(n: int, t: Trace, q: Measure, a: Measure, b: Measure)
    requires 1 <= n && b.Hum() && Candidate(t, q, [a.rms], 1, 0)
    ensures Candidate(Next(Config(n), t, Hear(2, b, false)), q, [a.rms, b.rms], 1, 1)
  {
    assert [q.rms] + [a.rms] + [b.rms] == [q.rms] + [a.rms, b.rms] && [a.rms] + [b.rms] == [a.rms, b.rms];
  }

  /** Confirmed at this frame, with what is left of the leak. */
  predicate Onset(cfg: ChainConfig, t: Trace, i: Input, older: seq<real>, leak: seq<real>, left: seq<real>)
    requires cfg.vad.onsetThresholdDb != 0.0
  {
    var t' := Next(cfg, t, i);
    && Decided(cfg, t.chain, i).onsetConfirmed
    && t'.older == older && t'.leak == leak && t'.chain.noise.levels == older + left
  }

  // ---- A leak that is not withdrawn ----

  /** Where one supporting frame is asked for, two have leaked and one is withdrawn. */
  lemma OneOfTwoIsLeft(t: Trace, q: Measure, a: Measure, b: Measure)
    requires b.Voice() && Candidate(t, q, [a.rms], 1, 0)
    ensures Onset(Config(1), t, Hear(2, b, false), [q.rms], [a.rms, b.rms], [a.rms])
  {
    assert [q.rms] + [a.rms] + [b.rms] == [q.rms, a.rms, b.rms];
    assert [q.rms, a.rms, b.rms][..2] == [q.rms] + [a.rms];
    assert [a.rms] + [b.rms] == [a.rms, b.rms];
  }

  /** Where two are asked for, a doubtful frame between them leaks as well, and again one level is left. */
  lemma OneOfThreeIsLeft(t: Trace, q: Measure, a: Measure, b: Measure, c: Measure)
    requires c.Voice() && Candidate(t, q, [a.rms, b.rms], 1, 1)
    ensures Onset(Config(2), t, Hear(3, c, false), [q.rms], [a.rms, b.rms, c.rms], [a.rms])
  {
    assert [q.rms] + [a.rms, b.rms] + [c.rms] == [q.rms, a.rms, b.rms, c.rms];
    assert [q.rms, a.rms, b.rms, c.rms][..2] == [q.rms] + [a.rms];
    assert [a.rms, b.rms] + [c.rms] == [a.rms, b.rms, c.rms];
  }

  /** MinOnsetFrames 1: after two frames heard, the onset at the third leaves a level of its own behind. */
  lemma AShortOnsetLeavesALevel(q: Measure, a: Measure, b: Measure) returns (inputs: seq<Input>, t: Trace)
    requires q.Quiet() && a.Voice() && b.Voice()
    ensures Config(1).Valid() && |inputs| == 2 && Leads(Config(1), inputs, t)
    ensures Onset(Config(1), t, Hear(2, b, false), [q.rms], [a.rms, b.rms], [a.rms])
  {
    ConfigIsValid(1);
    inputs, t := Opened(1, q, a);
    OneOfTwoIsLeft(t, q, a, b);
  }

  /** A doubtful frame: after three frames heard, the onset at the fourth leaves a level of its own behind. */
  lemma ADoubtfulFrameLeavesALevel(q: Measure, a: Measure, b: Measure, c: Measure)
    returns (inputs: seq<Input>, t: Trace)
    requires q.Quiet() && a.Voice() && b.Hum() && c.Voice()
    ensures Config(2).Valid() && |inputs| == 3 && Leads(Config(2), inputs, t)
    ensures Onset(Config(2), t, Hear(3, c, false), [q.rms], [a.rms, b.rms, c.rms], [a.rms])
  {
    ConfigIsValid(2);
    var two, u := Opened(2, q, a);
    inputs, t := Doubted(two, u, q, a, b);
    OneOfThreeIsLeft(t, q, a, b, c);
  }

  lemma Doubted(before: seq<Input>, u: Trace, q: Measure, a: Measure, b: Measure)
    returns (inputs: seq<Input>, t: Trace)
    requires b.Hum() && Leads(Config(2), before, u) && Candidate(u, q, [a.rms], 1, 0)
    ensures |inputs| == |before| + 1 && Leads(Config(2), inputs, t) && Candidate(t, q, [a.rms, b.rms], 1, 1)
  {
    HumIsDoubtful(2, u, q, a, b);
    OneMore(Config(2), before, u, Hear(2, b, false));
    inputs, t := before + [Hear(2, b, false)], Next(Config(2), u, Hear(2, b, false));
  }

  lemma Opened(n: int, q: Measure, a: Measure) returns (inputs: seq<Input>, t: Trace)
    requires 1 <= n && q.Quiet() && a.Voice()
    ensures |inputs| == 2 && Leads(Config(n), inputs, t) && Candidate(t, q, [a.rms], 1, 0)
  {
    var one, u := Settled(n, q);
    OneMore(Config(n), one, u, Hear(1, a, false));
    CandidateOpens(n, u, q, a);
    inputs, t := one + [Hear(1, a, false)], Next(Config(n), u, Hear(1, a, false));
  }

  lemma Settled(n: int, q: Measure) returns (inputs: seq<Input>, t: Trace)
    requires 1 <= n && q.Quiet()
    ensures |inputs| == 1 && Leads(Config(n), inputs, t) && Waiting(t, q)
  {
    var begin := Begin(Config(n), None);
    NothingHeard(Config(n));
    OneMore(Config(n), [], begin, Hear(0, q, false));
    FirstFrame(n, q);
    inputs, t := [] + [Hear(0, q, false)], Next(Config(n), begin, Hear(0, q, false));
  }

  // ---- An endpoint before the offset ----

  predicate Speaking(t: Trace)
  {
    && t.chain.vad.state == Speech && t.chain.vad.inSpeech && t.chain.vad.speechStart == 5 && !t.chain.vad.inSilence
    && t.chain.noise.converged && t.chain.lastActive
    && t.chain.endpoint.turnOpen && t.chain.endpoint.turnStart == 5
  }

  lemma SpeechOpens(t: Trace, q: Measure, a: Measure, b: Measure)
    requires b.Voice() && Candidate(t, q, [a.rms], 1, 0)
    ensures Speaking(Next(Config(1), t, Hear(2, b, false)))
  {
  }

  predicate Hanging(t: Trace)
  {
    && t.chain.vad.state == CandidateSilence && t.chain.vad.inSpeech && t.chain.vad.speechStart == 5
    && t.chain.vad.inSilence && t.chain.vad.silenceStart == 15 && t.chain.noise.converged
    && t.chain.endpoint.turnOpen && t.chain.endpoint.turnStart == 5
  }

  lemma SpeechPauses(t: Trace, c: Measure)
    requires c.Quiet() && Speaking(t)
    ensures Hanging(Next(Config(1), t, Hear(3, c, false)))
  {
  }

  /** The filled gap lets the silence reach the window while the run is still open. */
  lemma GapEndsTheTurn(t: Trace, x: Measure)
    requires Hanging(t)
    ensures EndsBySilence(Config(1), t, Hear(4, x, true))
    ensures Next(Config(1), t, Hear(4, x, true)).chain.vad.inSpeech
  {
  }

  /** After four frames heard the next, a filled gap, ends the turn by silence while its speech run is open. */
  lemma AnEndpointMayPrecedeTheOffset(q: Measure, a: Measure, b: Measure, c: Measure, x: Measure)
    returns (inputs: seq<Input>, t: Trace)
    requires q.Quiet() && a.Voice() && b.Voice() && c.Quiet()
    ensures Config(1).Valid() && |inputs| == 4 && Leads(Config(1), inputs, t)
    ensures EndsBySilence(Config(1), t, Hear(4, x, true))
    ensures Next(Config(1), t, Hear(4, x, true)).chain.vad.inSpeech
  {
    ConfigIsValid(1);
    var two, u := Opened(1, q, a);
    var three, v := Confirmed(two, u, q, a, b);
    inputs, t := Paused(three, v, c);
    GapEndsTheTurn(t, x);
  }

  lemma Confirmed(before: seq<Input>, u: Trace, q: Measure, a: Measure, b: Measure)
    returns (inputs: seq<Input>, t: Trace)
    requires b.Voice() && Leads(Config(1), before, u) && Candidate(u, q, [a.rms], 1, 0)
    ensures |inputs| == |before| + 1 && Leads(Config(1), inputs, t) && Speaking(t)
  {
    SpeechOpens(u, q, a, b);
    OneMore(Config(1), before, u, Hear(2, b, false));
    inputs, t := before + [Hear(2, b, false)], Next(Config(1), u, Hear(2, b, false));
  }

  lemma Paused(before: seq<Input>, u: Trace, c: Measure) returns (inputs: seq<Input>, t: Trace)
    requires c.Quiet() && Leads(Config(1), before, u) && Speaking(u)
    ensures |inputs| == |before| + 1 && Leads(Config(1), inputs, t) && Hanging(t)
  {
    OneMore(Config(1), before, u, Hear(3, c, false));
    SpeechPauses(u, c);
    inputs, t := before + [Hear(3, c, false)], Next(Config(1), u, Hear(3, c, false));
  }
}
