/** What to do next, decided from the facts alone. */
module Planner {
  import opened Frames
  import opened Dialogue
  import opened Policy
  import TurnManager

  datatype PlanInput = PlanInput(
    persona: Persona,
    facts: Facts,
    request: Request,
    allowed: bool,
    denied: set<Action>)

  function Simple(action: Action, reason: string, next: State, confidence: real): Plan
  {
    Plan(action, reason, NO_REQUEST, TurnManager.Nothing, next, "", confidence, "")
  }

  function Escalation(reason: string, confidence: real, escalation: string): Plan
  {
    Simple(Escalate, reason, Escalated, confidence).(escalation := escalation)
  }

  function BoundaryExit(p: Persona, reason: string): Plan
  {
    if p.Allows(EscalateCall) then Escalation(reason, 0.8, reason) else Simple(End, reason, Ended, 0.8)
  }

  function Asking(action: Action, reason: string, x: PlanInput, confidence: real): Plan
  {
    Plan(action, reason, x.request, x.request.kind.Expectation(), Speaking, "", confidence, "")
  }

  /** The question that puts each kind of doubt to the caller. */
  function QuestionFor(k: ClarifyKind): Action
  {
    match k
    case MissingSlot => Ask
    case LowConfidence => Confirm
    case Contradiction => Confirm
    case _ => Clarify
  }

  function ReasonFor(k: ClarifyKind): string
  {
    match k
    case NoClarification => "clarify_none"
    case Ambiguous => "clarify_ambiguous"
    case LowConfidence => "clarify_low_confidence"
    case MissingSlot => "clarify_missing_slot"
    case Contradiction => "clarify_contradiction"
    case NoiseRepeat => "clarify_noise"
    case Incomplete => "clarify_incomplete"
  }

  predicate Uncertain(p: Persona, f: Facts)
  {
    p.escalateOnUncertainty && f.verdict != Accepted
  }

  /** The limit reached, if any. */
  function Limit(p: Persona, f: Facts): Option<string>
  {
    if TurnsSpent(p, f.turnCount) then Some("max_turns_reached")
    else if TimeSpent(p, f.elapsed) then Some("max_duration_reached")
    else if f.interruptionCount >= STORM then Some("interruption_storm")
    else None
  }

  predicate NeedsClarification(x: PlanInput)
  {
    x.request.kind != NoClarification
    && (x.request.kind == Contradiction || x.request.kind == Incomplete || x.facts.verdict != Accepted)
  }

  function Decide(x: PlanInput): Plan
  {
    if x.facts.emergencyRaised then Escalation("emergency_detected", 1.0, "emergency")
    else if Uncertain(x.persona, x.facts) then Escalation("persona_escalates_on_uncertainty", 0.9, "uncertainty")
    else if Limit(x.persona, x.facts).Some? then BoundaryExit(x.persona, Limit(x.persona, x.facts).value)
    else if x.facts.verdict == Noise then OnNoise(x)
    else if NeedsClarification(x) then OnDoubt(x)
    else OnMeaning(x)
  }

  function OnNoise(x: PlanInput): Plan
  {
    if x.request.kind == NoiseRepeat && x.allowed && Clarify !in x.denied then
      Asking(Clarify, "noise_repeat", x, 0.6).(expectation := TurnManager.Nothing)
    else if !x.allowed then Escalation("noise_unrecoverable", 0.7, "noise")
    else Simple(Ignore, "noise", Listening, 0.5)
  }

  function OnDoubt(x: PlanInput): Plan
  {
    if !x.allowed then Escalation("clarification_exhausted", 0.8, "clarification")
    else if QuestionFor(x.request.kind) in x.denied then BoundaryExit(x.persona, "clarification_denied")
    else Asking(QuestionFor(x.request.kind), ReasonFor(x.request.kind), x, 0.75)
  }

  function OnMeaning(x: PlanInput): Plan
  {
    if x.facts.verdict == Rejected then
      if x.persona.Allows(EscalateCall) && Escalate !in x.denied then Escalation("intent_rejected", 0.6, "rejected")
      else Simple(Reject, "intent_rejected", Listening, 0.6)
    else if x.facts.intent.name == DENY && x.facts.expectation == TurnManager.YesNo then
      Simple(Respond, "confirmation_denied", Speaking, 0.9)
    else if x.facts.verdict == Accepted then
      if x.facts.intent.name == FALLBACK then Simple(Respond, "fallback", Speaking, 0.4)
      else if Respond in x.denied then BoundaryExit(x.persona, "respond_denied")
      else Simple(Respond, "intent_accepted", Speaking, x.facts.intent.confidence)
    else Simple(Wait, "no_decision", Waiting, 0.3)
  }

  function Planned(x: PlanInput): Plan
  {
    Decide(x).(intent := x.facts.intent.name)
  }

  /** A question is planned only for a request that was granted, and carries that request. */
  lemma QuestionsAreGranted(x: PlanInput)
    requires Planned(x).action.Asks()
    ensures x.allowed && x.request.kind != NoClarification && Planned(x).clarification == x.request
    ensures Planned(x).action !in x.denied && Planned(x).nextState == Speaking
    ensures x.facts.verdict == Accepted ==> x.request.kind in {Contradiction, Incomplete}
  {
  }

  /** A plan waits to listen exactly when it does nothing about noise or declines, and then expects nothing. */
  lemma ListensExactlyWhenDeclining(x: PlanInput)
    ensures Planned(x).nextState == Listening <==> Planned(x).action in {Ignore, Reject}
    ensures Planned(x).nextState == Listening ==> Planned(x).expectation == TurnManager.Nothing
    ensures Planned(x).nextState != Listening ==> Planned(x).nextState in Edges(Thinking)
  {
  }
}
