/** What the detectors guarantee together, over every run of frames from a fresh start. */
module AudioChainTheorems {
  import opened Frames
  import opened NoiseFloor
  import opened VoiceActivity
  import opened Endpoint
  import opened AudioChain
  import V = VoiceActivityTheorems
  import Ring

  /**
   The chain with what an observer would note beside it. log: the onsets, offsets and runs.
   older: the levels held when the last candidate opened. leak: the levels recorded since.
   doubtful: how many of its real frames did not support it. marks: true for an onset, false
   for a confirmed endpoint, in order.
   */
  datatype Trace = Trace(
    chain: ChainState,
    log: V.Log,
    older: seq<real>,
    leak: seq<real>,
    doubtful: nat,
    marks: seq<bool>)

  function Begin(cfg: ChainConfig, delivered: Option<int>): Trace
  {
    Trace(Fresh(cfg, delivered), V.Log(INITIAL, [], []), [], [], 0, [])
  }

  function Next(cfg: ChainConfig, t: Trace, i: Input): Trace
    requires cfg.vad.onsetThresholdDb != 0.0
  {
    var (s, a) := ChainAfter(cfg, t.chain, i);
    var heard := NoiseHeard(cfg, t.chain, i);
    var recorded := if heard.total > t.chain.noise.total then [i.frame.rms] else [];
    var open := t.chain.vad.state == CandidateSpeech;
    var opens := !open && s.vad.state == CandidateSpeech;
    Trace(
      s,
      V.Heard(cfg.vad, t.log, i.View(heard.converged)),
      if opens then t.chain.noise.levels else t.older,
      if opens then recorded else if open then t.leak + recorded else t.leak,
      if opens then 0
      else if open && !i.frame.synthesised && !Explain(cfg.vad, i.View(heard.converged)).Speechlike() then
        t.doubtful + 1
      else t.doubtful,
      t.marks + (if a.vad.onsetConfirmed then [true] else []) + (if a.endpoint.confirmed then [false] else []))
  }

  function Run(cfg: ChainConfig, delivered: Option<int>, inputs: seq<Input>): Trace
    requires cfg.vad.onsetThresholdDb != 0.0
  {
    if inputs == [] then Begin(cfg, delivered)
    else Next(cfg, Run(cfg, delivered, inputs[..|inputs| - 1]), inputs[|inputs| - 1])
  }

  /** A single supporting frame opens the candidate and a second one is needed to confirm it. */
  function Needed(cfg: ChainConfig): nat
    requires cfg.Valid()
  {
    if cfg.vad.minOnsetFrames == 1 then 2 else cfg.vad.minOnsetFrames
  }

  // ---- The retraction ----

  ghost predicate Linked(cfg: ChainConfig, t: Trace)
    requires cfg.Valid()
  {
    && Consistent(t.chain.vad)
    && t.log.vad == t.chain.vad
    && (t.chain.lastActive <==> t.chain.vad.state.Active())
    && (t.chain.vad.state != Uncertain ==> t.chain.noise.converged)
    && (t.chain.bargeIn.active ==> t.chain.vad.inSpeech)
    && (t.chain.vad.state == CandidateSpeech ==>
          && t.chain.noise.levels == Ring.Last(t.older + t.leak, cfg.noise.windowFrames)
          && |t.leak| == t.chain.vad.onsetFrames + t.doubtful
          && 1 <= t.chain.vad.onsetFrames < Needed(cfg))
  }

  lemma LastExtends<T>(older: seq<T>, leak: seq<T>, x: T, n: nat)
    requires 0 < n
    ensures Ring.Last(Ring.Last(older + leak, n) + [x], n) == Ring.Last(older + (leak + [x]), n)
  {
  }

  lemma NextStaysLinked(cfg: ChainConfig, t: Trace, i: Input)
    requires cfg.Valid() && Linked(cfg, t)
    ensures Linked(cfg, Next(cfg, t, i))
  {
    var heard := NoiseHeard(cfg, t.chain, i);
    var v := i.View(heard.converged);
    StaysConsistent(cfg.vad, t.chain.vad, v);
    if After(cfg.vad, t.chain.vad, v).state == CandidateSpeech && !i.frame.synthesised {
      if t.chain.vad.state == CandidateSpeech {
        LastExtends(t.older, t.leak, i.frame.rms, cfg.noise.windowFrames);
      } else {
        assert t.chain.noise.levels + [i.frame.rms] == t.chain.noise.levels + ([] + [i.frame.rms]);
      }
    } else {
      assert t.leak + [] == t.leak;
    }
  }

  lemma {:induction false} RunStaysLinked(cfg: ChainConfig, delivered: Option<int>, inputs: seq<Input>)
    requires cfg.Valid()
    ensures Linked(cfg, Run(cfg, delivered, inputs))
  {
    if inputs != [] {
      RunStaysLinked(cfg, delivered, inputs[..|inputs| - 1]);
      NextStaysLinked(cfg, Run(cfg, delivered, inputs[..|inputs| - 1]), inputs[|inputs| - 1]);
    }
  }

  /**
   Retraction by n turned before into after, where leak was recorded on top of older in a ring
   of this capacity: what is gone is the newest part of the leak, and what is left is the
   newest of the older levels with the leak's first |leak| - n.
   */
  ghost predicate WithdrawsFromLeak(
    before: seq<real>, after: seq<real>, older: seq<real>, leak: seq<real>, n: nat, capacity: nat)
  {
    var withdrawn := |before| - |after|;
    && before == Ring.Last(older + leak, capacity)
    && 0 <= withdrawn <= |leak|
    && after == before[..|after|]
    && before[|after|..] == leak[|leak| - withdrawn..]
    && (n <= capacity && n <= |leak| ==>
          withdrawn == n && after == Ring.Last(older + leak[..|leak| - n], capacity - n))
  }

  /** How many of the leak's levels a ring of this capacity still has. */
  function Retained(leak: seq<real>, capacity: nat): nat
  {
    if |leak| <= capacity then |leak| else capacity
  }

  /**
   The retraction at the onset that frame i confirms withdraws only levels recorded since the
   candidate opened; every older level the ring still had stays. Neither way of being complete
   comes without a condition. As many levels as leaked are withdrawn exactly when the ring holds
   MinOnsetFrames, MinOnsetFrames is at least two and every real frame of the candidate
   supported it. None of the leak is left in the ring exactly when the last two of these hold or
   the ring holds no more than MinOnsetFrames.
   */
  ghost predicate RetractsOnlyTheOnset(cfg: ChainConfig, r: Trace, i: Input)
    requires cfg.Valid()
  {
    var n, capacity, t := cfg.vad.minOnsetFrames, cfg.noise.windowFrames, Next(cfg, r, i);
    var before, after := NoiseHeard(cfg, r.chain, i).levels, t.chain.noise.levels;
    && WithdrawsFromLeak(before, after, t.older, t.leak, n, capacity)
    && |t.leak| == Needed(cfg) + t.doubtful
    && (|t.leak| == n <==> n >= 2 && t.doubtful == 0)
    && (|before| - |after| == |t.leak| <==> n <= capacity && n >= 2 && t.doubtful == 0)
    && (|before| - |after| == Retained(t.leak, capacity) <==> n >= capacity || (n >= 2 && t.doubtful == 0))
  }

  lemma OnsetFrameLeaks(cfg: ChainConfig, r: Trace, i: Input)
    requires cfg.Valid() && Linked(cfg, r)
    ensures var t, heard := Next(cfg, r, i), NoiseHeard(cfg, r.chain, i);
            Decided(cfg, r.chain, i).onsetConfirmed ==>
              && |t.leak| == Needed(cfg) + t.doubtful
              && heard.levels == Ring.Last(t.older + t.leak, cfg.noise.windowFrames)
              && t.chain.noise == Retracted(heard, cfg.vad.minOnsetFrames)
  {
    if Decided(cfg, r.chain, i).onsetConfirmed {
      LastExtends(r.older, r.leak, i.frame.rms, cfg.noise.windowFrames);
    }
  }

  lemma RetractedWithdraws(s: NoiseState, older: seq<real>, leak: seq<real>, n: nat, capacity: nat)
    requires 0 < n <= |leak| && 0 < capacity && s.levels == Ring.Last(older + leak, capacity)
    ensures WithdrawsFromLeak(s.levels, Retracted(s, n).levels, older, leak, n, capacity)
  {
    var k := if n > |s.levels| then |s.levels| else n;
    var kept := Retracted(s, n).levels;
    assert kept == s.levels[..|s.levels| - k];
    SuffixOfLast(older, leak, capacity, k);
    if n <= capacity && n <= |leak| {
      assert k == n;
    }
  }

  lemma OnsetRetracts(cfg: ChainConfig, r: Trace, i: Input)
    requires cfg.Valid() && Linked(cfg, r)
    ensures Decided(cfg, r.chain, i).onsetConfirmed ==> RetractsOnlyTheOnset(cfg, r, i)
  {
    if Decided(cfg, r.chain, i).onsetConfirmed {
      OnsetFrameLeaks(cfg, r, i);
      var t := Next(cfg, r, i);
      RetractedWithdraws(NoiseHeard(cfg, r.chain, i), t.older, t.leak, cfg.vad.minOnsetFrames, cfg.noise.windowFrames);
    }
  }

  lemma EveryOnsetRetractsOnlyItself(cfg: ChainConfig, delivered: Option<int>, inputs: seq<Input>, i: Input)
    requires cfg.Valid()
    ensures Decided(cfg, Run(cfg, delivered, inputs).chain, i).onsetConfirmed ==>
              RetractsOnlyTheOnset(cfg, Run(cfg, delivered, inputs), i)
  {
    RunStaysLinked(cfg, delivered, inputs);
    OnsetRetracts(cfg, Run(cfg, delivered, inputs), i);
  }

  /** Dropping count entries off the newest n of a + b drops them off b. */
  lemma SuffixOfLast<T>(a: seq<T>, b: seq<T>, n: nat, count: nat)
    requires count <= |b| && count <= n && count <= |Ring.Last(a + b, n)|
    ensures var s := Ring.Last(a + b, n);
            && s[|s| - count..] == b[|b| - count..]
            && s[..|s| - count] == Ring.Last(a + b[..|b| - count], n - count)
  {
  }

  // ---- Endpoints ----

  ghost predicate Ordered(inputs: seq<Input>)
  {
    && (forall i :: 0 <= i < |inputs| ==> inputs[i].frame.duration > 0)
    && (forall i :: 0 <= i < |inputs| - 1 ==> inputs[i].frame.End() <= inputs[i + 1].frame.timestamp)
  }

  /** Every endpoint directly follows the onset whose turn it ends. */
  ghost predicate OneEndpointPerOnset(marks: seq<bool>)
  {
    forall k :: 0 <= k < |marks| && !marks[k] ==> k > 0 && marks[k - 1]
  }

  function LastRun(log: V.Log): int
  {
    if log.runs == [] then 0 else log.runs[|log.runs| - 1].end - log.runs[|log.runs| - 1].start
  }

  ghost predicate Turned(cfg: ChainConfig, t: Trace, start: int, clock: int)
    requires cfg.Valid()
  {
    var e := t.chain.endpoint;
    && Linked(cfg, t) && V.Timely(t.log, start, clock)
    && V.RunsInOrder(t.log.runs) && V.Total(t.log.runs) <= V.Since(t.log.runs, start) - start
    && Marked(t)
    && (e.turnOpen ==> clock - e.turnStart < cfg.endpoint.maxTurnDuration)
    && (e.turnOpen && !t.chain.vad.inSpeech ==> t.log.runs != [] && e.speechDuration == LastRun(t.log))
  }

  lemma NextStaysTurned(cfg: ChainConfig, t: Trace, i: Input, start: int, clock: int)
    requires cfg.Valid() && Turned(cfg, t, start, clock)
    requires clock <= i.frame.timestamp && i.frame.duration > 0
    ensures Turned(cfg, Next(cfg, t, i), start, i.frame.End())
  {
    NextStaysLinked(cfg, t, i);
    V.HeardStaysTimely(cfg.vad, t.log, i.View(NoiseHeard(cfg, t.chain, i).converged), start, clock);
    TurnStep(cfg, t, i);
    MarksStep(cfg, t, i);
  }

  /** A turn is open exactly when the last mark is an onset. */
  ghost predicate Marked(t: Trace)
  {
    && OneEndpointPerOnset(t.marks)
    && (t.chain.endpoint.turnOpen <==> LastIsOnset(t.marks))
  }

  lemma MarksStep(cfg: ChainConfig, t: Trace, i: Input)
    requires cfg.Valid() && Marked(t)
    ensures Marked(Next(cfg, t, i))
  {
    var d := Decided(cfg, t.chain, i);
    var v := i.View(NoiseHeard(cfg, t.chain, i).converged);
    TurnOpens(cfg.endpoint, t.chain.endpoint, v, d, Gates(i.agentSpeaking, t.chain.bargeIn.active));
    MarksAppend(t.marks, d.onsetConfirmed, ChainAfter(cfg, t.chain, i).1.endpoint.confirmed);
  }

  predicate LastIsOnset(marks: seq<bool>)
  {
    marks != [] && marks[|marks| - 1]
  }

  lemma MarksAppend(marks: seq<bool>, onset: bool, ended: bool)
    requires OneEndpointPerOnset(marks) && (ended ==> LastIsOnset(marks) || onset)
    ensures var after := marks + (if onset then [true] else []) + (if ended then [false] else []);
            OneEndpointPerOnset(after) && (LastIsOnset(after) <==> (LastIsOnset(marks) || onset) && !ended)
  {
  }

  /** An endpoint ends an open turn, and nothing else does. */
  lemma TurnOpens(p: EndpointPolicy, e: EndpointState, v: SignalView, d: Decision, gates: Gates)
    ensures var (e', out) := EndpointAfter(p, e, v, d, gates);
            && (out.confirmed ==> e.turnOpen || d.onsetConfirmed)
            && (e'.turnOpen <==> (e.turnOpen || d.onsetConfirmed) && !out.confirmed)
  {
  }

  /** What one frame does to the turn: the endpointer's own part of the step. */
  lemma TurnStep(cfg: ChainConfig, t: Trace, i: Input)
    requires cfg.Valid() && Consistent(t.chain.vad) && t.log.vad == t.chain.vad
    requires t.chain.vad.inSpeech || LastRun(t.log) >= 0
    ensures var e, e' := t.chain.endpoint, Next(cfg, t, i).chain.endpoint;
            var log' := Next(cfg, t, i).log;
            && (e'.turnOpen ==> i.frame.End() - e'.turnStart < cfg.endpoint.maxTurnDuration)
            && (e'.turnOpen && !log'.vad.inSpeech ==>
                  e'.speechDuration == if t.chain.vad.inSpeech then LastRun(log')
                                       else if e.speechDuration < 0 then 0 else e.speechDuration)
            && (e'.turnOpen && !log'.vad.inSpeech && !t.chain.vad.inSpeech ==> log'.runs == t.log.runs && e.turnOpen)
  {
  }

  /**
   Each onset yields at most one confirmed endpoint, a turn is open exactly between the two,
   and no open turn has lasted MaxTurnDuration.
   */
  lemma {:induction false} TurnsAreBounded(cfg: ChainConfig, delivered: Option<int>, inputs: seq<Input>)
    requires cfg.Valid() && Ordered(inputs) && inputs != []
    ensures var t, start, clock :=
              Run(cfg, delivered, inputs), inputs[0].frame.timestamp, inputs[|inputs| - 1].frame.End();
            Turned(cfg, t, start, clock)
  {
    var n := |inputs| - 1;
    if n == 0 {
      assert Run(cfg, delivered, inputs[..0]) == Begin(cfg, delivered);
      NextStaysTurned(cfg, Begin(cfg, delivered), inputs[0], inputs[0].frame.timestamp, inputs[0].frame.timestamp);
    } else {
      TurnsAreBounded(cfg, delivered, inputs[..n]);
      NextStaysTurned(cfg, Run(cfg, delivered, inputs[..n]), inputs[n], inputs[0].frame.timestamp,
                      inputs[n - 1].frame.End());
    }
  }

  /**
   A silence-window endpoint finds the speech run still open if and only if it fires on a
   synthesised frame inside the hangover; on every other frame it comes after the offset and
   carries exactly the duration the run was reported with.
   */
  ghost predicate FollowsTheOffset(cfg: ChainConfig, before: Trace, i: Input)
    requires cfg.Valid()
  {
    var after, a := Next(cfg, before, i), ChainAfter(cfg, before.chain, i).1;
    && (after.chain.vad.inSpeech <==> i.frame.synthesised && before.chain.vad.state == CandidateSilence)
    && (!after.chain.vad.inSpeech ==>
          after.log.runs != [] && a.endpoint.speechDuration == LastRun(after.log))
  }

  predicate EndsBySilence(cfg: ChainConfig, before: Trace, i: Input)
    requires cfg.vad.onsetThresholdDb != 0.0
  {
    var a := ChainAfter(cfg, before.chain, i).1;
    a.endpoint.confirmed && a.endpoint.reason == SilenceWindow
  }

  lemma SilenceEndpointStep(cfg: ChainConfig, t: Trace, i: Input, start: int, clock: int)
    requires cfg.Valid() && Turned(cfg, t, start, clock)
    requires clock <= i.frame.timestamp && 0 < i.frame.duration < cfg.endpoint.silenceWindow
    requires EndsBySilence(cfg, t, i)
    ensures FollowsTheOffset(cfg, t, i)
  {
  }

  lemma SilenceEndpointFollowsTheOffset(
    cfg: ChainConfig, delivered: Option<int>, inputs: seq<Input>, i: Input)
    requires cfg.Valid() && Ordered(inputs) && 0 < i.frame.duration < cfg.endpoint.silenceWindow
    requires inputs == [] || inputs[|inputs| - 1].frame.End() <= i.frame.timestamp
    requires EndsBySilence(cfg, Run(cfg, delivered, inputs), i)
    ensures FollowsTheOffset(cfg, Run(cfg, delivered, inputs), i)
  {
    if inputs == [] {
      SilenceEndpointStep(cfg, Begin(cfg, delivered), i, i.frame.timestamp, i.frame.timestamp);
    } else {
      TurnsAreBounded(cfg, delivered, inputs);
      SilenceEndpointStep(cfg, Run(cfg, delivered, inputs), i, inputs[0].frame.timestamp,
                          inputs[|inputs| - 1].frame.End());
    }
  }
}
