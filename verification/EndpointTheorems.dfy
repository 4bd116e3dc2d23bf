/** When a turn ends, when it is held open and why, and what speech it is credited with. */
module EndpointTheorems {
  import opened VoiceActivity
  import opened Endpoint

  // ---- One frame, on the policy's own terms ----

  /** A turn is open for this frame: it was, or its onset is confirmed now. */
  predicate InTurn(e: EndpointState, d: Decision) { e.turnOpen || d.onsetConfirmed }

  function Began(e: EndpointState, d: Decision): int
  {
    if d.onsetConfirmed then d.speechStart else e.turnStart
  }

  predicate Overlong(p: EndpointPolicy, e: EndpointState, v: SignalView, d: Decision)
  {
    v.frame.timestamp + v.frame.duration - Began(e, d) >= p.maxTurnDuration
  }

  /** The silence is due to end the turn, if nothing holds it back. */
  predicate Due(p: EndpointPolicy, e: EndpointState, v: SignalView, d: Decision)
  {
    InTurn(e, d) && !Overlong(p, e, v, d) && d.silenceDuration >= p.silenceWindow
  }

  /** A turn past its limit ends for that reason, whatever the gates say. */
  lemma TurnLimitEndsIt(p: EndpointPolicy, e: EndpointState, v: SignalView, d: Decision, gates: Gates)
    ensures var out := EndpointAfter(p, e, v, d, gates).1;
            && (out.confirmed && out.reason == MaxTurn <==> InTurn(e, d) && Overlong(p, e, v, d))
            && (out.confirmed && out.reason == MaxTurn ==> !out.candidate)
  {
  }

  /**
   A turn ends by silence exactly when it is short of its limit, the silence is as long as the
   window, neither gate of the policy is shut, the caller has said enough, and the energy is not
   rising where it has to fall. out.speechDuration is the speech the turn is credited with.
   */
  lemma SilenceEndsItExactly(p: EndpointPolicy, e: EndpointState, v: SignalView, d: Decision, gates: Gates)
    ensures var out := EndpointAfter(p, e, v, d, gates).1;
            out.confirmed && out.reason == SilenceWindow <==>
              && Due(p, e, v, d)
              && !(p.suppressWhileAgentSpeaking && gates.agentSpeaking)
              && !(p.suppressDuringBargeIn && gates.bargeInActive)
              && out.speechDuration >= p.minSpeechDuration
              && !(p.requireFallingEnergy && v.trend > p.energyTrendTolerance)
  {
  }

  /** A due endpoint that is withheld names the first thing in its way; nothing else is ever withheld. */
  lemma WithheldForTheFirstReason(p: EndpointPolicy, e: EndpointState, v: SignalView, d: Decision, gates: Gates)
    ensures var out := EndpointAfter(p, e, v, d, gates).1;
            var agent := p.suppressWhileAgentSpeaking && gates.agentSpeaking;
            var bargeIn := p.suppressDuringBargeIn && gates.bargeInActive;
            var short := out.speechDuration < p.minSpeechDuration;
            && (out.suppressed <==> Due(p, e, v, d) && !out.confirmed)
            && (out.reason == AgentSpeaking <==> Due(p, e, v, d) && agent)
            && (out.reason == BargeInActive <==> Due(p, e, v, d) && !agent && bargeIn)
            && (out.reason == SpeechTooShort <==> Due(p, e, v, d) && !agent && !bargeIn && short)
            && (out.reason == EnergyRising <==>
                  && Due(p, e, v, d) && !agent && !bargeIn && !short
                  && p.requireFallingEnergy && v.trend > p.energyTrendTolerance)
            && (out.reason == NoReason <==> !out.confirmed && !out.suppressed)
            && (out.confirmed ==> out.reason in {MaxTurn, SilenceWindow})
  {
  }

  /** A turn is open from its onset to its endpoint, and its length is measured from the backdated onset. */
  lemma OpenUntilItEnds(p: EndpointPolicy, e: EndpointState, v: SignalView, d: Decision, gates: Gates)
    ensures var (e', out) := EndpointAfter(p, e, v, d, gates);
            && (e'.turnOpen <==> InTurn(e, d) && !out.confirmed)
            && (out.confirmed ==> out.reason in {MaxTurn, SilenceWindow})
            && (InTurn(e, d) ==>
                  && e'.turnStart == Began(e, d) && out.speechDuration == e'.speechDuration
                  && out.turnDuration == v.frame.timestamp + v.frame.duration - Began(e, d)
                  && out.silenceHeld == d.silenceDuration)
            && (!InTurn(e, d) ==> e' == e && out == NO_DECISION)
  {
  }

  // ---- Whole turns ----

  datatype Moment = Moment(view: SignalView, decision: Decision, gates: Gates)

  function Run(p: EndpointPolicy, e: EndpointState, moments: seq<Moment>): EndpointState
  {
    if moments == [] then e
    else
      var m := moments[|moments| - 1];
      EndpointAfter(p, Run(p, e, moments[..|moments| - 1]), m.view, m.decision, m.gates).0
  }

  /** A turn that its first moment opened, and in which the caller has not yet stopped. */
  ghost predicate Unbroken(moments: seq<Moment>)
  {
    && moments != [] && moments[0].decision.onsetConfirmed
    && (forall i :: 0 < i < |moments| ==> !moments[i].decision.onsetConfirmed)
    && forall i :: 0 <= i < |moments| ==> !moments[i].decision.offsetConfirmed
  }

  /** Until the caller stops, the turn is credited with the longest speech reported in it. */
  lemma {:induction false} CreditedWithTheLongest(p: EndpointPolicy, e: EndpointState, moments: seq<Moment>)
    requires Unbroken(moments) && Run(p, e, moments).turnOpen
    ensures var kept := Run(p, e, moments).speechDuration;
            && kept >= 0 && (forall m :: m in moments ==> m.decision.speechDuration <= kept)
            && (kept == 0 || exists m :: m in moments && m.decision.speechDuration == kept)
  {
    var n := |moments| - 1;
    var before := moments[..n];
    assert moments == before + [moments[n]];
    if n > 0 {
      CreditedWithTheLongest(p, e, before);
      var kept := Run(p, e, before).speechDuration;
      assert forall m :: m in before ==> m in moments;
      assert moments[n] in moments;
    }
  }

  /** When the caller stops, it is credited with exactly the run that ended. */
  lemma CreditedWithTheRun(p: EndpointPolicy, e: EndpointState, v: SignalView, d: Decision, gates: Gates)
    requires InTurn(e, d) && d.offsetConfirmed
    ensures var (e', out) := EndpointAfter(p, e, v, d, gates);
            e'.speechDuration == out.speechDuration == d.runDuration
  {
  }

  /** Every candidate is announced once: the first quiet frame of each pause, and not again until speech returns. */
  ghost predicate Hushed(moments: seq<Moment>)
  {
    forall i :: 0 <= i < |moments| ==>
      && moments[i].decision.silenceDuration > 0 && moments[i].decision.state != Speech
      && !moments[i].decision.onsetConfirmed
  }

  lemma CandidateAnnounced(p: EndpointPolicy, e: EndpointState, v: SignalView, d: Decision, gates: Gates)
    requires InTurn(e, d) && !Overlong(p, e, v, d)
    ensures var (e', out) := EndpointAfter(p, e, v, d, gates);
            && (out.candidate <==>
                  d.silenceDuration > 0 && (d.state == Speech || d.onsetConfirmed || !e.candidateEmitted))
            && (d.state == Speech && d.silenceDuration <= 0 ==> !e'.candidateEmitted)
            && (out.candidate ==> e'.candidateEmitted)
  {
  }

  lemma {:induction false} AnnouncedOnce(p: EndpointPolicy, e: EndpointState, moments: seq<Moment>, m: Moment)
    requires e.turnOpen && moments != [] && Hushed(moments) && Hushed([m]) && Run(p, e, moments).turnOpen
    ensures Run(p, e, moments).candidateEmitted
    ensures !EndpointAfter(p, Run(p, e, moments), m.view, m.decision, m.gates).1.candidate
  {
    assert [m][0] == m;
    var n := |moments| - 1;
    if n > 0 {
      AnnouncedOnce(p, e, moments[..n], moments[n]);
    }
  }
}
