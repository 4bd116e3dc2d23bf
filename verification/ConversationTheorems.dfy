/** What holds of every utterance. */
module ConversationTheorems {
  import opened Dialogue
  import opened Clarification
  import opened Policy
  import opened Planner
  import opened Conversation
  import T = TurnManager
  import TurnManagerTheorems

  // ---- Every applied plan was allowed ----

  /** Whatever the rules, the surviving plan was proposed and allowed, or is the escalation of last resort. */
  lemma {:induction false} SettledIsAllowed(rules: seq<Rule>, c: Case, denied: set<Action>, attempts: nat)
    requires attempts > 0
    ensures var plan := Settled(rules, c, denied, attempts);
            || plan == EXHAUSTED
            || (Evaluated(rules, c.Proposal(plan.action)).Allow? && exists d :: plan == Planned(c.Input(d)))
    decreases attempts
  {
    var plan := Planned(c.Input(denied));
    if Evaluated(rules, c.Proposal(plan.action)).Deny? && attempts > 1 {
      SettledIsAllowed(rules, c, denied + {plan.action}, attempts - 1);
    }
  }

  /** Under rules at least as strict as the built-in ones a persona does only what it may, short of that escalation. */
  lemma CapabilitiesAreRespected(rules: seq<Rule>, c: Case)
    requires Narrows(rules)
    ensures var plan := Settled(rules, c, {}, MAX_REPLANS);
            || plan == EXHAUSTED
            || ((RequiredCapability(plan.action).Some? ==> c.persona.Allows(RequiredCapability(plan.action).value))
                && (c.facts.emergencyRaised ==> plan.action == Escalate)
                && (plan.action.Asks() ==> c.allowed && c.used < c.persona.clarificationBudget
                                           && c.request.kind != NoClarification && plan.clarification == c.request))
  {
    SettledIsAllowed(rules, c, {}, MAX_REPLANS);
    var plan := Settled(rules, c, {}, MAX_REPLANS);
    if plan != EXHAUSTED {
      assert Permitted(c.Proposal(plan.action));
      var d :| plan == Planned(c.Input(d));
      if plan.action.Asks() { QuestionsAreGranted(c.Input(d)); }
    }
  }

  // ---- With the built-in rules, the loop is a decision table ----

  predicate MayAsk(c: Case)
  {
    && c.persona.Allows(AskClarification) && !c.persona.escalateOnUncertainty
    && c.used < c.persona.clarificationBudget
  }

  function Granted(ok: bool, plan: Plan, c: Case): Plan
  {
    if ok then plan.(intent := c.facts.intent.name) else EXHAUSTED
  }

  /** Escalate if the persona may, else end the call if it may. */
  function Leaving(c: Case, reason: string): Plan
  {
    Granted(c.persona.Allows(EscalateCall) || c.persona.Allows(EndCall), BoundaryExit(c.persona, reason), c)
  }

  function Escalating(c: Case, reason: string, confidence: real, escalation: string): Plan
  {
    Granted(c.persona.Allows(EscalateCall), Escalation(reason, confidence, escalation), c)
  }

  /** The decision without a loop and without a record of denials. */
  function Chosen(c: Case): Plan
  {
    var f, p := c.facts, c.persona;
    if f.emergencyRaised then Escalating(c, "emergency_detected", 1.0, "emergency")
    else if Uncertain(p, f) then Escalating(c, "persona_escalates_on_uncertainty", 0.9, "uncertainty")
    else if Limit(p, f).Some? then Leaving(c, Limit(p, f).value)
    else if f.verdict == Noise then ChosenOnNoise(c)
    else if NeedsClarification(c.Input({})) then ChosenOnDoubt(c)
    else ChosenOnMeaning(c)
  }

  function ChosenOnNoise(c: Case): Plan
  {
    if !c.allowed then Escalating(c, "noise_unrecoverable", 0.7, "noise")
    else if c.request.kind == NoiseRepeat && MayAsk(c) then
      Granted(true, Asking(Clarify, "noise_repeat", c.Input({}), 0.6).(expectation := T.Nothing), c)
    else Granted(true, Simple(Ignore, "noise", Listening, 0.5), c)
  }

  function ChosenOnDoubt(c: Case): Plan
  {
    if !c.allowed then Escalating(c, "clarification_exhausted", 0.8, "clarification")
    else if MayAsk(c) then
      Granted(true, Asking(QuestionFor(c.request.kind), ReasonFor(c.request.kind), c.Input({}), 0.75), c)
    else Leaving(c, "clarification_denied")
  }

  function ChosenOnMeaning(c: Case): Plan
  {
    var mayAnswer := c.persona.Allows(AnswerQuestion);
    if c.facts.verdict == Rejected then
      if c.persona.Allows(EscalateCall) then Granted(true, Escalation("intent_rejected", 0.6, "rejected"), c)
      else Granted(true, Simple(Reject, "intent_rejected", Listening, 0.6), c)
    else if c.facts.intent.name == DENY && c.facts.expectation == T.YesNo then
      Granted(mayAnswer, Simple(Respond, "confirmation_denied", Speaking, 0.9), c)
    else if c.facts.verdict == Accepted then
      if c.facts.intent.name == FALLBACK then Granted(mayAnswer, Simple(Respond, "fallback", Speaking, 0.4), c)
      else if mayAnswer then Granted(true, Simple(Respond, "intent_accepted", Speaking, c.facts.intent.confidence), c)
      else Leaving(c, "respond_denied")
    else Granted(true, Simple(Wait, "no_decision", Waiting, 0.3), c)
  }

  /** Whether the built-in rules allow an action in this case. */
  predicate Passes(c: Case, a: Action)
  {
    Permitted(c.Proposal(a))
  }

  /** The loop, with the built-in rules read as Permitted. */
  function SettledPlainly(c: Case, denied: set<Action>, attempts: nat): Plan
    requires attempts > 0
    decreases attempts
  {
    var plan := Planned(c.Input(denied));
    if Passes(c, plan.action) then plan
    else if attempts == 1 then EXHAUSTED
    else SettledPlainly(c, denied + {plan.action}, attempts - 1)
  }

  lemma {:induction false} BuiltinLoop(c: Case, denied: set<Action>, attempts: nat)
    requires attempts > 0
    ensures Settled(BuiltinRules(), c, denied, attempts) == SettledPlainly(c, denied, attempts)
    decreases attempts
  {
    var plan := Planned(c.Input(denied));
    BuiltinRulesDecide(c.Proposal(plan.action));
    if !Passes(c, plan.action) && attempts > 1 {
      BuiltinLoop(c, denied + {plan.action}, attempts - 1);
    }
  }

  /** A plan that does not depend on what was denied is proposed until it is allowed or the attempts run out. */
  lemma {:induction false} Insists(c: Case, denied: set<Action>, attempts: nat, plan: Plan)
    requires attempts > 0 && forall d: set<Action> :: denied <= d ==> Planned(c.Input(d)) == plan
    ensures SettledPlainly(c, denied, attempts) == if Passes(c, plan.action) then plan else EXHAUSTED
    decreases attempts
  {
    if !Passes(c, plan.action) && attempts > 1 {
      Insists(c, denied + {plan.action}, attempts - 1, plan);
    }
  }

  lemma PassesWithoutLimits(c: Case, a: Action)
    requires !c.facts.emergencyRaised && Limit(c.persona, c.facts).None?
    ensures Passes(c, a) <==>
            && (RequiredCapability(a).Some? ==> c.persona.Allows(RequiredCapability(a).value))
            && (a.Asks() ==> MayAsk(c))
  {
  }

  lemma ChosenBeforeMeaning(c: Case)
    requires c.facts.emergencyRaised || Uncertain(c.persona, c.facts) || Limit(c.persona, c.facts).Some?
    ensures SettledPlainly(c, {}, MAX_REPLANS) == Chosen(c)
  {
    Insists(c, {}, MAX_REPLANS, Planned(c.Input({})));
  }

  /** One denial, then a plan that later denials do not change. */
  lemma SecondThought(c: Case, second: Plan)
    requires var first := Planned(c.Input({}));
             !Passes(c, first.action) && forall d: set<Action> :: {first.action} <= d ==> Planned(c.Input(d)) == second
    ensures SettledPlainly(c, {}, MAX_REPLANS) == if Passes(c, second.action) then second else EXHAUSTED
  {
  }

  lemma ChosenAfterNoise(c: Case)
    requires !c.facts.emergencyRaised && !Uncertain(c.persona, c.facts) && Limit(c.persona, c.facts).None?
    requires c.facts.verdict == Noise
    ensures SettledPlainly(c, {}, MAX_REPLANS) == Chosen(c)
  {
  }

  lemma ChosenInDoubt(c: Case)
    requires !c.facts.emergencyRaised && !Uncertain(c.persona, c.facts) && Limit(c.persona, c.facts).None?
    requires c.facts.verdict != Noise && NeedsClarification(c.Input({}))
    ensures SettledPlainly(c, {}, MAX_REPLANS) == Chosen(c)
  {
    var first := Planned(c.Input({}));
    PassesWithoutLimits(c, first.action);
    if first.action.Asks() && !Passes(c, first.action) {
      var second := Planned(c.Input({first.action}));
      PassesWithoutLimits(c, second.action);
      SecondThought(c, second);
    } else if !Passes(c, first.action) {
      Insists(c, {}, MAX_REPLANS, first);
    }
  }

  lemma ChosenOnceUnderstood(c: Case)
    requires !c.facts.emergencyRaised && !Uncertain(c.persona, c.facts) && Limit(c.persona, c.facts).None?
    requires c.facts.verdict != Noise && !NeedsClarification(c.Input({}))
    ensures SettledPlainly(c, {}, MAX_REPLANS) == Chosen(c)
  {
    var first := Planned(c.Input({}));
    PassesWithoutLimits(c, first.action);
    if !Passes(c, first.action) {
      var second := Planned(c.Input({first.action}));
      PassesWithoutLimits(c, second.action);
      if first.action == Respond && first.reason != "intent_accepted" {
        assert second == first;
        Insists(c, {}, MAX_REPLANS, first);
      } else {
        SecondThought(c, second);
      }
    }
  }

  /** Three attempts always reach the same plan as the table: a second denial never changes the outcome. */
  lemma TheLoopIsADecisionTable(c: Case)
    ensures Settled(BuiltinRules(), c, {}, MAX_REPLANS) == Chosen(c)
  {
    BuiltinLoop(c, {}, MAX_REPLANS);
    if c.facts.emergencyRaised || Uncertain(c.persona, c.facts) || Limit(c.persona, c.facts).Some? {
      ChosenBeforeMeaning(c);
    } else if c.facts.verdict == Noise {
      ChosenAfterNoise(c);
    } else if NeedsClarification(c.Input({})) {
      ChosenInDoubt(c);
    } else {
      ChosenOnceUnderstood(c);
    }
  }

  // ---- When an utterance fails ----

  /** Nothing ends the conversation at this utterance regardless of what was said. */
  predicate Unhurried(p: Persona, f: Facts)
  {
    !f.emergencyRaised && !Uncertain(p, f) && Limit(p, f).None?
  }

  /** The persona may put one more question to the caller. */
  predicate Spends(p: Persona, b: Budget)
  {
    p.Allows(AskClarification) && !p.escalateOnUncertainty && b.total + 1 < p.clarificationBudget
  }

  /**
   Noise that may be answered but not with a question, or a rejected intent that may not be
   escalated: either way the plan names Listening, which Thinking does not lead to.
   */
  predicate DeadEnd(cfg: ClarificationConfig, b: Budget, p: Persona, f: Facts)
  {
    && Unhurried(p, f)
    && (|| (f.verdict == Noise && b.noiseRounds < cfg.repeatOnNoise && !Spends(p, b))
        || (f.verdict == Rejected && !f.truncated && !f.contradicts && !p.Allows(EscalateCall)))
  }

  lemma ChosenListens(c: Case)
    ensures var plan := Chosen(c);
            && NextState(plan) == plan.nextState
            && (plan.nextState != Listening ==> plan.nextState in Edges(Thinking))
            && (plan.nextState == Listening <==>
                  && Unhurried(c.persona, c.facts)
                  && (|| (c.facts.verdict == Noise && c.allowed && !(c.request.kind == NoiseRepeat && MayAsk(c)))
                      || (c.facts.verdict == Rejected && !NeedsClarification(c.Input({}))
                          && !c.persona.Allows(EscalateCall))))
  {
  }

  lemma CaseOnNoise(cfg: ClarificationConfig, t: Talk, p: Persona, f: Facts)
    requires f.verdict == Noise
    ensures var c := CaseOf(cfg, t, p, f);
            && c.request.kind == NoiseRepeat && (c.allowed <==> t.budget.noiseRounds < cfg.repeatOnNoise)
            && (c.allowed ==> c.used == t.budget.total + 1)
  {
  }

  lemma CaseOnRejection(cfg: ClarificationConfig, t: Talk, p: Persona, f: Facts)
    requires f.verdict == Rejected
    ensures var c := CaseOf(cfg, t, p, f);
            NeedsClarification(c.Input({})) <==> f.truncated || f.contradicts
  {
  }

  lemma ListeningIsADeadEnd(cfg: ClarificationConfig, t: Talk, p: Persona, f: Facts)
    ensures Chosen(CaseOf(cfg, t, p, f)).nextState == Listening <==> DeadEnd(cfg, t.budget, p, Informed(t, f))
  {
    ChosenListens(CaseOf(cfg, t, p, f));
    if f.verdict == Noise {
      CaseOnNoise(cfg, t, p, f);
    } else if f.verdict == Rejected {
      CaseOnRejection(cfg, t, p, f);
    }
  }

  /** The plan an awaited utterance settles on, with the built-in rules. */
  lemma ThoughtIsChosen(cfg: ClarificationConfig, t: Talk, p: Persona, f: Facts)
    ensures var thought := Thought(cfg, BuiltinRules(), t, p, f);
            && thought.lastPlan == Chosen(CaseOf(cfg, t, p, f))
            && thought.state == Thinking && thought.floor == t.floor
  {
    TheLoopIsADecisionTable(CaseOf(cfg, t, p, f));
  }

  /** HandleUtterance fails exactly in the dead ends, and then leaves the conversation thinking. */
  lemma FailsExactlyInDeadEnds(cfg: ConversationConfig, t: Talk, p: Persona, f: Facts, at: Instants)
    requires t.state.Awaiting()
    ensures var (t', outcome) := Uttered(cfg, BuiltinRules(), t, p, f, at);
            && (outcome.Failed? <==> DeadEnd(cfg.clarification, t.budget, p, Informed(t, f)))
            && (outcome.Failed? ==>
                  && t'.state == Thinking && outcome.plan.nextState == Listening && t'.lastPlan == outcome.plan
                  && t'.floor == T.Released(t.floor, T.Caller, T.Nothing, at.closed, at.reopened))
            && (outcome.Applied? ==> t'.state == outcome.plan.nextState && t'.state in Edges(Thinking))
  {
    ThoughtIsChosen(cfg.clarification, t, p, f);
    ChosenListens(CaseOf(cfg.clarification, t, p, f));
    ListeningIsADeadEnd(cfg.clarification, t, p, f);
  }

  // ---- When the agent has spoken ----

  /** The caller's answer is read as the question asked: the awaiting state and the floor's record agree. */
  lemma AnswersAreReadAsAsked(cfg: ConversationConfig, t: Talk, at: Instants)
    requires t.state == Speaking && t.floor.current.Some? && t.floor.current.value.owner == T.Agent
    requires t.floor.queued.None? && t.lastPlan.action !in {End, Escalate, Transfer}
    ensures var t' := SpokenOut(cfg.turns, t, at);
            && t'.state == StateFor(T.LastExpectationOf(t'.floor.history)) && t'.state.Awaiting()
            && t'.floor.current.Some? && t'.floor.current.value.owner == T.Caller && !t'.floor.nonYielding
  {
    var turn := t.floor.current.value.(expectation := t.lastPlan.expectation);
    TurnManagerTheorems.LastExpectationAppends(t.floor.history, T.Ended(turn, at.closed, false, T.NoInterruption));
  }
}
