/**
 What one utterance comes to under the built-in rules, from its facts to the state that follows:
 each plan in full, and the question each kind of doubt puts to the caller.
 */
module ConversationPlans {
  import opened Dialogue
  import opened Clarification
  import C = ClarificationTheorems
  import opened Policy
  import opened Conversation
  import opened ConversationTheorems
  import opened ConversationRuns
  import Planner
  import T = TurnManager

  predicate May(p: Persona, c: Capability) { c in p.capabilities && c !in p.forbidden }

  // ---- What may be done ----

  function Hands(f: Facts, reason: string, confidence: real, cause: string): Plan
  {
    Plan(Escalate, reason, NO_REQUEST, T.Nothing, Escalated, f.intent.name, confidence, cause)
  }

  /** When nothing was allowed. */
  const LAST_RESORT: Plan := Plan(Escalate, "policy_exhausted", NO_REQUEST, T.Nothing, Escalated, "", 0.5, "policy")

  function HandsIfAllowed(p: Persona, f: Facts, reason: string, confidence: real, cause: string): Plan
  {
    if May(p, EscalateCall) then Hands(f, reason, confidence, cause) else LAST_RESORT
  }

  function Exits(p: Persona, f: Facts, reason: string): Plan
  {
    if May(p, EscalateCall) then Hands(f, reason, 0.8, reason)
    else if May(p, EndCall) then Plan(End, reason, NO_REQUEST, T.Nothing, Ended, f.intent.name, 0.8, "")
    else LAST_RESORT
  }

  function Does(a: Action, reason: string, next: State, f: Facts, confidence: real): Plan
  {
    Plan(a, reason, NO_REQUEST, T.Nothing, next, f.intent.name, confidence, "")
  }

  // ---- What ends the conversation whatever was said ----

  predicate OutOfTurns(p: Persona, t: Talk) { p.maxTurns > 0 && |t.floor.history| >= p.maxTurns }

  predicate OutOfTime(p: Persona, f: Facts) { p.maxDuration > 0 && f.elapsed >= p.maxDuration }

  /** Nothing does: no emergency, no uncertainty the persona will not stand, and no limit reached. */
  predicate Calm(p: Persona, t: Talk, f: Facts)
  {
    && !f.emergencyRaised && (p.escalateOnUncertainty ==> f.verdict == Accepted)
    && !OutOfTurns(p, t) && !OutOfTime(p, f) && f.interruptionCount < 6
  }

  function PlanFor(cfg: ClarificationConfig, t: Talk, p: Persona, f: Facts): Plan
  {
    Thought(cfg, BuiltinRules(), t, p, f).lastPlan
  }

  /** An emergency goes first, then uncertainty, then the limits in this order. */
  lemma UrgencyDecides(cfg: ClarificationConfig, t: Talk, p: Persona, f: Facts)
    requires !Calm(p, t, f)
    ensures PlanFor(cfg, t, p, f) ==
              if f.emergencyRaised then HandsIfAllowed(p, f, "emergency_detected", 1.0, "emergency")
              else if p.escalateOnUncertainty && f.verdict != Accepted then
                HandsIfAllowed(p, f, "persona_escalates_on_uncertainty", 0.9, "uncertainty")
              else if OutOfTurns(p, t) then Exits(p, f, "max_turns_reached")
              else if OutOfTime(p, f) then Exits(p, f, "max_duration_reached")
              else Exits(p, f, "interruption_storm")
  {
    ThoughtIsChosen(cfg, t, p, f);
  }

  // ---- Questions ----

  /** The persona may put one more question; the one being put counts as spent. */
  predicate MayPut(p: Persona, b: Budget)
  {
    May(p, AskClarification) && !p.escalateOnUncertainty && b.total + 1 < p.clarificationBudget
  }

  /** The subject has a round left, and, noise aside, the persona a question. */
  predicate RoundsLeft(cfg: ClarificationConfig, p: Persona, b: Budget, q: Request)
  {
    if q.kind == NoiseRepeat then b.noiseRounds < cfg.repeatOnNoise
    else
      && Rounds(b, Subject(q)) < cfg.maxRoundsPerSubject
      && (p.clarificationBudget > 0 ==> b.total < p.clarificationBudget)
  }

  /** How a kind of doubt is put to the caller: what is done, why, what is expected, and the state that awaits it. */
  datatype Form = Form(action: Action, reason: string, expectation: Expectation, confidence: real, state: State)

  function FormOf(kind: ClarifyKind): Form
    requires kind != NoClarification
  {
    match kind
    case Ambiguous => Form(Clarify, "clarify_ambiguous", T.Disambiguation, 0.75, State.Clarification)
    case MissingSlot => Form(Ask, "clarify_missing_slot", T.SlotValue, 0.75, Question)
    case LowConfidence => Form(Confirm, "clarify_low_confidence", T.YesNo, 0.75, Confirmation)
    case Contradiction => Form(Confirm, "clarify_contradiction", T.YesNo, 0.75, Confirmation)
    case Incomplete => Form(Clarify, "clarify_incomplete", T.Nothing, 0.75, Listening)
    case NoiseRepeat => Form(Clarify, "noise_repeat", T.Nothing, 0.6, Listening)
  }

  lemma RequestIsConsidered(cfg: ClarificationConfig, t: Talk, p: Persona, f: Facts, q: Request)
    requires C.CallsFor(f, q.kind, q.slot) && q.kind != NoClarification
    ensures var c := CaseOf(cfg, t, p, f);
            && c.request.kind == q.kind && c.request.slot == q.slot
            && (c.allowed <==> RoundsLeft(cfg, p, t.budget, q))
            && c.used == t.budget.total + (if c.allowed then 1 else 0)
  {
    C.OneQuestionIsCalledFor(f, q.kind, q.slot);
    assert Subject(Assess(f)) == Subject(q);
  }

  /**
   Nothing urgent, a doubt becomes its question if it has a round left and the persona a question;
   without a round it is escalated; and if only the persona may not ask, noise is ignored and any
   other doubt ends the conversation.
   */
  lemma DoubtDecides(cfg: ClarificationConfig, t: Talk, p: Persona, f: Facts, q: Request)
    requires Calm(p, t, f) && C.CallsFor(f, q.kind, q.slot) && q.kind != NoClarification
    ensures var plan, form := PlanFor(cfg, t, p, f), FormOf(q.kind);
            if !RoundsLeft(cfg, p, t.budget, q) then
              plan == if q.kind == NoiseRepeat then HandsIfAllowed(p, f, "noise_unrecoverable", 0.7, "noise")
                      else HandsIfAllowed(p, f, "clarification_exhausted", 0.8, "clarification")
            else if MayPut(p, t.budget) then
              && plan == Plan(form.action, form.reason, plan.clarification, form.expectation, Speaking, f.intent.name,
                              form.confidence, "")
              && plan.clarification.kind == q.kind && plan.clarification.slot == q.slot
            else
              plan == if q.kind == NoiseRepeat then Does(Ignore, "noise", Listening, f, 0.5)
                      else Exits(p, f, "clarification_denied")
  {
    ThoughtIsChosen(cfg, t, p, f);
    RequestIsConsidered(cfg, t, p, f, q);
    C.KindsOfDoubt(f);
    C.OneQuestionIsCalledFor(f, q.kind, q.slot);
  }

  /** Of two close readings the question names the first two offered. */
  lemma CloseReadingsAreNamed(cfg: ClarificationConfig, t: Talk, p: Persona, f: Facts)
    requires C.InDoubt(f) && C.Ambivalent(f)
    ensures CaseOf(cfg, t, p, f).request.candidates == [f.intent.alternatives[0].name, f.intent.alternatives[1].name]
  {
    C.SubjectOfDoubt(f);
  }

  // ---- Meaning ----

  /** Nothing urgent and nothing in doubt, the utterance is acted on. */
  lemma MeaningDecides(cfg: ClarificationConfig, t: Talk, p: Persona, f: Facts)
    requires Calm(p, t, f) && C.CallsFor(f, NoClarification, "")
    ensures PlanFor(cfg, t, p, f) ==
              if f.verdict == Rejected then
                if May(p, EscalateCall) then Hands(f, "intent_rejected", 0.6, "rejected")
                else Does(Reject, "intent_rejected", Listening, f, 0.6)
              else if f.intent.name == "deny" && T.LastExpectationOf(t.floor.history) == T.YesNo then
                if May(p, AnswerQuestion) then Does(Respond, "confirmation_denied", Speaking, f, 0.9) else LAST_RESORT
              else if f.intent.name == "fallback" then
                if May(p, AnswerQuestion) then Does(Respond, "fallback", Speaking, f, 0.4) else LAST_RESORT
              else if May(p, AnswerQuestion) then Does(Respond, "intent_accepted", Speaking, f, f.intent.confidence)
              else Exits(p, f, "respond_denied")
  {
    ThoughtIsChosen(cfg, t, p, f);
    C.OneQuestionIsCalledFor(f, NoClarification, "");
  }

  /** A rejected intent is handed on only by a persona that may, and not once that was denied. */
  lemma RejectionsHeedDenials(x: Planner.PlanInput)
    requires Planner.Planned(x).reason == "intent_rejected"
    ensures Planner.Planned(x).action == Escalate <==> May(x.persona, EscalateCall) && Escalate !in x.denied
  {
  }

  // ---- From the utterance to the awaited answer ----

  /** The plan puts the question q in the form of its kind. */
  predicate Puts(plan: Plan, q: Request)
    requires q.kind != NoClarification
  {
    var form := FormOf(q.kind);
    && plan.action == form.action && plan.reason == form.reason && plan.expectation == form.expectation
    && plan.clarification.kind == q.kind && plan.clarification.slot == q.slot && plan.nextState == Speaking
  }

  /** In turn, a doubt that may be put is put, and counted. */
  lemma DoubtIsPut(cfg: ConversationConfig, t: Talk, p: Persona, f: Facts, q: Request, at: Instants)
    requires cfg.Valid() && Orderly(t) && t.state.Awaiting() && Calm(p, t, f)
    requires C.CallsFor(f, q.kind, q.slot) && q.kind != NoClarification
    requires RoundsLeft(cfg.clarification, p, t.budget, q) && MayPut(p, t.budget)
    ensures var (u, o) := Answered(cfg, BuiltinRules(), t, p, f, at);
            && o == Applied(u.lastPlan) && Puts(u.lastPlan, q)
            && u.state == Speaking && Orderly(u) && u.budget.total == t.budget.total + 1
  {
    DoubtDecides(cfg.clarification, t, p, f, q);
    RequestIsConsidered(cfg.clarification, t, p, f, q);
    NextIsOrderly(cfg, BuiltinRules(), t, Utter(p, f, at));
    PlanIsCarried(cfg.turns, Thought(cfg.clarification, BuiltinRules(), t, p, f), at);
    ThoughtCounts(cfg.clarification, BuiltinRules(), t, p, f);
  }

  lemma PlanIsCarried(cfg: T.TurnConfig, t: Talk, at: Instants)
    requires t.state == Thinking && t.lastPlan.nextState == Speaking
    ensures var (u, o) := Carried(cfg, t, at);
            o == Applied(t.lastPlan) && u.lastPlan == t.lastPlan && u.state == Speaking && u.budget == t.budget
  {
  }

  /**
   Once the agent has put it, the conversation is in the state that awaits that answer, with the
   caller's turn open and the expectation on the floor's record.
   */
  lemma QuestionIsAwaited(cfg: ConversationConfig, u: Talk, q: Request, done: Instants)
    requires cfg.Valid() && Orderly(u) && u.state == Speaking && q.kind != NoClarification && Puts(u.lastPlan, q)
    ensures var w, form := Next(cfg, BuiltinRules(), u, SpeechDone(done)), FormOf(q.kind);
            && w.state == form.state && T.LastExpectationOf(w.floor.history) == form.expectation
            && w.floor.current.Some? && w.floor.current.value.owner == T.Caller
            && w.budget == u.budget && w.pending == u.pending
  {
    SpeechEnds(cfg, BuiltinRules(), u, done);
    AnswersAreReadAsAsked(cfg, u, done);
    ExpectationIsRecorded(cfg.turns, u, done);
  }

  lemma ExpectationIsRecorded(cfg: T.TurnConfig, u: Talk, done: Instants)
    requires Orderly(u) && u.state == Speaking
    ensures T.LastExpectationOf(SpokenOut(cfg, u, done).floor.history) == u.lastPlan.expectation
  {
  }
}
