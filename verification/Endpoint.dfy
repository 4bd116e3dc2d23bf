/** Ending the caller's turn. */
module Endpoint {
  import opened Frames
  import opened VoiceActivity

  datatype EndpointPolicy = EndpointPolicy(
    silenceWindow: int,
    minSpeechDuration: int,
    maxTurnDuration: int,
    requireFallingEnergy: bool,
    energyTrendTolerance: real,
    suppressWhileAgentSpeaking: bool,
    suppressDuringBargeIn: bool)
  {
    ghost predicate Valid()
    {
      0 < silenceWindow && 0 <= minSpeechDuration < maxTurnDuration && 0.0 <= energyTrendTolerance
    }
  }

  datatype Gates = Gates(agentSpeaking: bool, bargeInActive: bool)

  datatype Reason =
    | NoReason | MaxTurn | SilenceWindow
    | AgentSpeaking | BargeInActive | SpeechTooShort | EnergyRising

  datatype EndpointDecision = EndpointDecision(
    candidate: bool,
    confirmed: bool,
    suppressed: bool,
    reason: Reason,
    silenceHeld: int,
    speechDuration: int,
    turnDuration: int)

  const NO_DECISION: EndpointDecision := EndpointDecision(false, false, false, NoReason, 0, 0, 0)

  datatype EndpointState = EndpointState(
    turnOpen: bool,
    turnStart: int,
    speechDuration: int,
    candidateEmitted: bool,
    confirmed: bool)

  const CLOSED: EndpointState := EndpointState(false, 0, 0, false, false)

  /** What holds a due endpoint back. */
  function Suppressor(p: EndpointPolicy, speechDuration: int, v: SignalView, gates: Gates): Option<Reason>
  {
    if p.suppressWhileAgentSpeaking && gates.agentSpeaking then Some(AgentSpeaking)
    else if p.suppressDuringBargeIn && gates.bargeInActive then Some(BargeInActive)
    else if speechDuration < p.minSpeechDuration then Some(SpeechTooShort)
    else if p.requireFallingEnergy && v.trend > p.energyTrendTolerance then Some(EnergyRising)
    else None
  }

  // ---- The endpointer as one decision: turn, then duration, then verdict ----

  function Turn(e: EndpointState, d: Decision): EndpointState
  {
    if d.onsetConfirmed then EndpointState(true, d.speechStart, 0, false, false) else e
  }

  function Spoken(e: EndpointState, d: Decision): int
  {
    if d.offsetConfirmed then d.runDuration
    else if d.speechDuration > e.speechDuration then d.speechDuration else e.speechDuration
  }

  /** Why the turn ends on this frame, or Suppressed's reason, or neither. */
  datatype Verdict = Ends(reason: Reason) | Withheld(why: Reason) | Open

  function Judge(p: EndpointPolicy, turnStart: int, spoken: int, v: SignalView, d: Decision, gates: Gates): Verdict
  {
    if v.frame.End() - turnStart >= p.maxTurnDuration then Ends(MaxTurn)
    else if d.silenceDuration < p.silenceWindow then Open
    else
      match Suppressor(p, spoken, v, gates)
      case Some(why) => Withheld(why)
      case None => Ends(SilenceWindow)
  }

  function EndpointAfter(p: EndpointPolicy, e: EndpointState, v: SignalView, d: Decision, gates: Gates)
    : (EndpointState, EndpointDecision)
  {
    var t := Turn(e, d);
    if !t.turnOpen then (t, NO_DECISION)
    else
      var spoken := Spoken(t, d);
      var verdict := Judge(p, t.turnStart, spoken, v, d, gates);
      var emitted := t.candidateEmitted && d.state != Speech;
      var candidate := verdict != Ends(MaxTurn) && d.silenceDuration > 0 && !emitted;
      (EndpointState(!verdict.Ends?, t.turnStart, spoken, emitted || candidate, verdict.Ends?),
       EndpointDecision(
         candidate, verdict.Ends?, verdict.Withheld?,
         if verdict.Ends? then verdict.reason else if verdict.Withheld? then verdict.why else NoReason,
         d.silenceDuration, spoken, v.frame.End() - t.turnStart))
  }

  class EndpointDetector {
    const policy: EndpointPolicy
    var turnOpen: bool
    var turnStart: int
    var speechDuration: int
    var candidateEmitted: bool
    var confirmed: bool

    /** An open turn is an unconfirmed one. */
    ghost predicate Valid()
      reads this
    {
      policy.Valid() && (turnOpen ==> !confirmed)
    }

    ghost function State(): EndpointState
      reads this
    {
      EndpointState(turnOpen, turnStart, speechDuration, candidateEmitted, confirmed)
    }

    constructor (policy: EndpointPolicy)
      requires policy.Valid()
      ensures Valid() && State() == CLOSED && this.policy == policy
    {
      this.policy := policy;
      turnOpen, turnStart, speechDuration, candidateEmitted, confirmed := false, 0, 0, false, false;
    }

    method Reset()
      requires Valid()
      modifies this
      ensures Valid() && State() == CLOSED
    {
      turnOpen, turnStart, speechDuration, candidateEmitted, confirmed := false, 0, 0, false, false;
    }

    /** Opens the turn at an onset and keeps how long the caller has spoken in it. */
    method Track(d: Decision)
      modifies this
      ensures var t := Turn(old(State()), d);
              State() == if t.turnOpen then t.(speechDuration := Spoken(t, d)) else t
    {
      if d.onsetConfirmed {
        turnOpen, turnStart, speechDuration, candidateEmitted, confirmed := true, d.speechStart, 0, false, false;
      }
      if !turnOpen {
        return;
      }
      if d.speechDuration > speechDuration {
        speechDuration := d.speechDuration;
      }
      if d.offsetConfirmed {
        speechDuration := d.runDuration;
      }
    }

    method Observe(v: SignalView, d: Decision, gates: Gates) returns (out: EndpointDecision)
      requires Valid()
      modifies this
      ensures Valid()
      ensures (State(), out) == EndpointAfter(policy, old(State()), v, d, gates)
    {
      out := NO_DECISION;
      Track(d);
      if !turnOpen {
        return;
      }
      var turnDuration := v.frame.End() - turnStart;
      out := out.(silenceHeld := d.silenceDuration, speechDuration := speechDuration, turnDuration := turnDuration);
      if d.state.Active() && d.state == Speech {
        candidateEmitted := false;
      }
      if !confirmed && turnDuration >= policy.maxTurnDuration {
        confirmed, turnOpen := true, false;
        out := out.(confirmed := true, reason := MaxTurn);
        return;
      }
      if confirmed {
        return;
      }
      if d.silenceDuration > 0 && !candidateEmitted {
        candidateEmitted := true;
        out := out.(candidate := true);
      }
      if d.silenceDuration < policy.silenceWindow {
        return;
      }
      match Suppressor(policy, speechDuration, v, gates) {
        case Some(why) =>
          out := out.(suppressed := true, reason := why);
        case None =>
          confirmed, turnOpen := true, false;
          out := out.(confirmed := true, reason := SilenceWindow);
      }
    }
  }
}
