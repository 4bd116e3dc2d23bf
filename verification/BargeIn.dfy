/** When an interruption is delivered, and what becomes of one that is not. */
module BargeIn {
  import opened Frames
  import opened VoiceActivity

  /** Times are wall-clock. */
  datatype BargeInPolicy = BargeInPolicy(
    enabled: bool,
    minInterval: int,
    maxAge: int,
    confirmFrames: int,
    requireAgentSpeaking: bool)
  {
    ghost predicate Valid()
    {
      enabled ==> 0 < minInterval && 0 < maxAge && 0 <= confirmFrames
    }
  }

  datatype Outcome =
    | Undetected | Disabled | NotSpeaking | Debounced | Stale | NoController | Refused | Delivered

  /** The port the interruption goes to, and whether it takes it. */
  datatype Controller = Absent | Refuses | Accepts

  datatype BargeInState = BargeInState(
    lastDelivered: Option<int>,
    pending: bool,
    pendingFrames: nat,
    active: bool)

  const QUIET: BargeInState := BargeInState(None, false, 0, false)

  /** What becomes of a detection at the instant now. */
  function Fate(
    p: BargeInPolicy, last: Option<int>, f: Frame<real>, agentSpeaking: bool, now: int, controller: Controller): Outcome
  {
    if !p.enabled then Disabled
    else if p.requireAgentSpeaking && !agentSpeaking then NotSpeaking
    else if last.Some? && now - last.value < p.minInterval then Debounced
    else if f.arrival.Some? && now - f.arrival.value > p.maxAge then Stale
    else match controller
      case Absent => NoController
      case Refuses => Refused
      case Accepts => Delivered
  }

  /** The detection is complete with this decision. */
  predicate Completes(p: BargeInPolicy, b: BargeInState, d: Decision)
  {
    if p.confirmFrames <= 0 then d.onsetConfirmed
    else !d.onsetConfirmed && b.pending && d.state.Active() && b.pendingFrames + 1 >= p.confirmFrames
  }

  function BargeInAfter(
    p: BargeInPolicy, b: BargeInState, v: SignalView, d: Decision,
    agentSpeaking: bool, now: int, controller: Controller)
    : (BargeInState, Outcome)
  {
    var completes := Completes(p, b, d);
    var outcome := if completes then Fate(p, b.lastDelivered, v.frame, agentSpeaking, now, controller) else Undetected;
    var waits := 0 < p.confirmFrames;
    (BargeInState(
       if outcome == Delivered then Some(now) else b.lastDelivered,
       if !waits then b.pending
       else d.onsetConfirmed || (b.pending && d.state.Active() && !completes),
       if !waits then b.pendingFrames
       else if d.onsetConfirmed then 0
       else if b.pending && d.state.Active() then b.pendingFrames + 1 else b.pendingFrames,
       outcome == Delivered || (b.active && !d.offsetConfirmed)),
     outcome)
  }

  class BargeInDetector {
    const policy: BargeInPolicy
    var lastDelivered: int
    var haveDelivered: bool
    var pending: bool
    var pendingFrames: nat
    var active: bool

    ghost function State(): BargeInState
      reads this
    {
      BargeInState(if haveDelivered then Some(lastDelivered) else None, pending, pendingFrames, active)
    }

    constructor (policy: BargeInPolicy)
      requires policy.Valid()
      ensures State() == QUIET && this.policy == policy
    {
      this.policy := policy;
      lastDelivered, haveDelivered, pending, pendingFrames, active := 0, false, false, 0, false;
    }

    /** Only the instant of the last delivery is kept, so the spacing holds across a reset. */
    method Reset()
      modifies this
      ensures State() == QUIET.(lastDelivered := old(State()).lastDelivered)
    {
      pending, pendingFrames, active := false, 0, false;
    }

    method Armed(d: Decision) returns (armed: bool)
      modifies this`pending, this`pendingFrames
      ensures armed == Completes(policy, old(State()), d)
      ensures policy.confirmFrames <= 0 ==> State() == old(State())
      ensures policy.confirmFrames > 0 ==>
                pending == (d.onsetConfirmed || (old(pending) && d.state.Active() && !armed))
      ensures policy.confirmFrames > 0 ==>
                pendingFrames == if d.onsetConfirmed then 0
                                 else if old(pending) && d.state.Active() then old(pendingFrames) + 1
                                 else old(pendingFrames)
    {
      if policy.confirmFrames <= 0 {
        return d.onsetConfirmed;
      }
      if d.onsetConfirmed {
        pending, pendingFrames := true, 0;
        return false;
      }
      if !pending {
        return false;
      }
      if !d.state.Active() {
        pending := false;
        return false;
      }
      pendingFrames := pendingFrames + 1;
      if pendingFrames >= policy.confirmFrames {
        pending := false;
        return true;
      }
      return false;
    }

    method Observe(v: SignalView, d: Decision, agentSpeaking: bool, now: int, controller: Controller)
      returns (outcome: Outcome)
      modifies this
      ensures (State(), outcome) == BargeInAfter(policy, old(State()), v, d, agentSpeaking, now, controller)
    {
      if d.offsetConfirmed {
        active := false;
      }
      var armed := Armed(d);
      if !armed {
        return Undetected;
      }
      if !policy.enabled {
        return Disabled;
      }
      if policy.requireAgentSpeaking && !agentSpeaking {
        return NotSpeaking;
      }
      if haveDelivered && now - lastDelivered < policy.minInterval {
        return Debounced;
      }
      if v.frame.arrival.Some? && now - v.frame.arrival.value > policy.maxAge {
        return Stale;
      }
      if controller == Absent {
        return NoController;
      }
      if controller == Refuses {
        return Refused;
      }
      lastDelivered, haveDelivered, active := now, true, true;
      return Delivered;
    }
  }
}
