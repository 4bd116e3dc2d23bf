/** Whole runs of the voice activity machine. */
module VoiceActivityTheorems {
  import opened VoiceActivity

  datatype Interval = Interval(start: int, end: int)

  /** What a consumer of the decisions has seen: true for an onset, false for an offset. */
  datatype Log = Log(vad: VadState, boundaries: seq<bool>, runs: seq<Interval>)

  function Heard(cfg: VadConfig, log: Log, v: SignalView): Log
    requires cfg.onsetThresholdDb != 0.0
  {
    var d := Decide(cfg, log.vad, v);
    Log(
      After(cfg, log.vad, v),
      log.boundaries + (if d.onsetConfirmed then [true] else []) + (if d.offsetConfirmed then [false] else []),
      if d.offsetConfirmed then log.runs + [Interval(log.vad.speechStart, log.vad.speechStart + d.runDuration)]
      else log.runs)
  }

  function Listen(cfg: VadConfig, views: seq<SignalView>): Log
    requires cfg.onsetThresholdDb != 0.0
  {
    if views == [] then Log(INITIAL, [], [])
    else Heard(cfg, Listen(cfg, views[..|views| - 1]), views[|views| - 1])
  }

  /** Frames of positive length that do not overlap, in order. */
  ghost predicate Ordered(views: seq<SignalView>)
  {
    && (forall i :: 0 <= i < |views| ==> views[i].frame.duration > 0)
    && (forall i :: 0 <= i < |views| - 1 ==> views[i].frame.End() <= views[i + 1].frame.timestamp)
  }

  ghost predicate Alternates(boundaries: seq<bool>)
  {
    forall i :: 0 <= i < |boundaries| ==> (boundaries[i] <==> i % 2 == 0)
  }

  /**
   Onsets and offsets strictly alternate, starting with an onset; a run is open exactly when
   the last one was an onset, which is when the machine is active.
   */
  lemma {:induction false} OnsetsAndOffsetsAlternate(cfg: VadConfig, views: seq<SignalView>)
    requires cfg.Valid()
    ensures var log := Listen(cfg, views);
            Consistent(log.vad) && Alternates(log.boundaries)
            && (log.vad.state.Active() <==> |log.boundaries| % 2 == 1)
  {
    if views != [] {
      var before := views[..|views| - 1];
      OnsetsAndOffsetsAlternate(cfg, before);
      StaysConsistent(cfg, Listen(cfg, before).vad, views[|views| - 1]);
    }
  }

  // ---- Runs in media time ----

  ghost predicate RunsInOrder(runs: seq<Interval>)
  {
    && (forall i :: 0 <= i < |runs| ==> runs[i].start < runs[i].end)
    && (forall i :: 0 <= i < |runs| - 1 ==> runs[i].end <= runs[i + 1].start)
  }

  function Total(runs: seq<Interval>): int
  {
    if runs == [] then 0 else Total(runs[..|runs| - 1]) + runs[|runs| - 1].end - runs[|runs| - 1].start
  }

  /** Where the last run ended, or the media time everything began. */
  function Since(runs: seq<Interval>, start: int): int
  {
    if runs == [] then start else runs[|runs| - 1].end
  }

  /** What the machine remembers lies after the last run and before the media clock. */
  ghost predicate Timely(log: Log, start: int, clock: int)
  {
    var s, since := log.vad, Since(log.runs, start);
    && start <= since <= clock
    && (s.state == CandidateSpeech ==> since <= s.runStart < clock)
    && (s.inSpeech ==> since <= s.speechStart < clock)
    && (s.inSilence ==> s.silenceStart < clock)
    && (s.state == CandidateSilence ==> s.speechStart < s.silenceStart)
  }

  lemma HeardStaysTimely(cfg: VadConfig, log: Log, v: SignalView, start: int, clock: int)
    requires cfg.Valid() && Consistent(log.vad) && Timely(log, start, clock)
    requires clock <= v.frame.timestamp && v.frame.duration > 0
    requires RunsInOrder(log.runs) && Total(log.runs) <= Since(log.runs, start) - start
    ensures var next := Heard(cfg, log, v);
            && Timely(next, start, v.frame.End()) && RunsInOrder(next.runs)
            && Total(next.runs) <= Since(next.runs, start) - start
  {
  }

  /**
   For ordered frames the reported runs are non-empty, disjoint and in order, none starts
   before the first frame or ends after the last, and so together they last no longer than
   the media time that has passed.
   */
  lemma {:induction false} RunsPartitionTheMedia(cfg: VadConfig, views: seq<SignalView>)
    requires cfg.Valid() && Ordered(views) && views != []
    ensures var log, start, clock := Listen(cfg, views), views[0].frame.timestamp, views[|views| - 1].frame.End();
            && Consistent(log.vad) && Timely(log, start, clock) && RunsInOrder(log.runs)
            && Total(log.runs) <= Since(log.runs, start) - start <= clock - start
  {
    var n := |views| - 1;
    var v := views[n];
    OnsetsAndOffsetsAlternate(cfg, views);
    if n == 0 {
      assert Listen(cfg, views[..0]) == Log(INITIAL, [], []);
      HeardStaysTimely(cfg, Log(INITIAL, [], []), v, v.frame.timestamp, v.frame.timestamp);
    } else {
      OnsetsAndOffsetsAlternate(cfg, views[..n]);
      RunsPartitionTheMedia(cfg, views[..n]);
      HeardStaysTimely(cfg, Listen(cfg, views[..n]), v, views[0].frame.timestamp, views[n - 1].frame.End());
    }
  }

  /** Lost packets neither open, close nor move a run: synthesised frames change nothing. */
  lemma {:induction false} SynthesisedFramesChangeNothing(
    cfg: VadConfig, views: seq<SignalView>, gap: seq<SignalView>)
    requires cfg.Valid() && forall i :: 0 <= i < |gap| ==> gap[i].frame.synthesised
    ensures Listen(cfg, views + gap) == Listen(cfg, views)
  {
    if gap == [] {
      assert views + gap == views;
    } else {
      var rest := gap[..|gap| - 1];
      assert (views + gap)[..|views + gap| - 1] == views + rest;
      SynthesisedFramesChangeNothing(cfg, views, rest);
    }
  }
}
