/** Particular conversations: those that reach a limit, and those that get stuck. */
module ConversationWitnesses {
  import opened Dialogue
  import opened Clarification
  import opened Policy
  import opened Conversation
  import opened ConversationTheorems
  import opened ConversationRuns
  import opened Personas
  import T = TurnManager

  function Said(verdict: IntentVerdict, truncated: bool, contradicts: bool): Facts
  {
    Facts(truncated, contradicts, Intent(FALLBACK, 1.0, [], []), verdict, T.Nothing, false, 0, 0, 0)
  }

  const CONTRADICTION: Facts := Said(Accepted, false, true)
  const CUT_OFF: Facts := Said(Accepted, true, false)
  const ANSWER: Facts := Said(Accepted, false, false)
  const NOISE: Facts := Said(Noise, false, false)

  /** What the engine ships with. */
  const DEFAULT: ClarificationConfig := ClarificationConfig(2, 2)

  /** A conversation that has asked nothing yet, in a few turns. */
  predicate Young(t: Talk)
  {
    t.state.Awaiting() && Orderly(t) && t.budget == UNSPENT && |t.floor.history| < 10
  }

  /** A persona that may ask its n-th question in a conversation of this age. */
  predicate MayAskThe(n: nat, p: Persona)
  {
    && p.Allows(AskClarification) && !p.escalateOnUncertainty && n < p.clarificationBudget
    && 20 <= p.maxTurns && 0 < p.maxDuration
  }

  /** Two contradictions in a row, each asked about. */
  lemma TwoQuestions(cfg: ConversationConfig, t: Talk, p: Persona, q: Persona, f: Facts, at: Instants)
    returns (first: seq<Event>, second: seq<Event>, w: Talk)
    requires cfg.Valid() && cfg.clarification == DEFAULT && Young(t) && MayAskThe(1, p) && MayAskThe(2, q)
    requires f == CONTRADICTION
    ensures Exchange(first, p) && Exchange(second, q) && Leads(cfg, t, first + second, 2, w)
    ensures w.state == Confirmation && Orderly(w) && |w.floor.history| < 14
    ensures w.budget.total == 2 && w.budget.noiseRounds == 0 && Rounds(w.budget, "incomplete") == 0
  {
    var u: Talk;
    DoubtIsReserved(cfg.clarification, t.budget, p, f);
    first, u := DoubtIsExchanged(cfg, t, p, f, at);
    DoubtIsReserved(cfg.clarification, u.budget, q, f);
    second, w := DoubtIsExchanged(cfg, u, q, f, at);
    Joined(cfg, t, first, 1, u, second, 1, w);
  }

  /** The utterance fails, and nothing said or spoken out afterwards changes anything. */
  ghost predicate Stops(cfg: ConversationConfig, u: Talk, p: Persona, f: Facts, at: Instants)
  {
    var (w, o) := Answered(cfg, BuiltinRules(), u, p, f, at);
    && o.Failed? && w.state == Thinking
    && forall more :: Undisturbed(more) ==> After(cfg, BuiltinRules(), w, more) == w
  }

  /** The shipped receptionist asks about two contradictions, then fails on the first noise and stops for good. */
  lemma ReceptionistReachesADeadEnd(cfg: ConversationConfig, t: Talk, p: Persona, at: Instants)
    returns (first: seq<Event>, second: seq<Event>, u: Talk)
    requires cfg.Valid() && cfg.clarification == DEFAULT && Young(t) && p == Builtin(BusinessReceptionist)
    ensures Exchange(first, p) && Exchange(second, p) && Leads(cfg, t, first + second, 2, u)
    ensures Stops(cfg, u, p, NOISE, at)
  {
    first, second, u := TwoQuestions(cfg, t, p, p, CONTRADICTION, at);
    NoiseIsADeadEnd(cfg, u, p, NOISE, at);
  }

  lemma NoiseIsADeadEnd(cfg: ConversationConfig, u: Talk, p: Persona, f: Facts, at: Instants)
    requires cfg.Valid() && cfg.clarification == DEFAULT && u.state.Awaiting() && Orderly(u)
    requires p == Builtin(BusinessReceptionist) && f == NOISE && |u.floor.history| < 14
    requires u.budget.total == 2 && u.budget.noiseRounds == 0
    ensures Stops(cfg, u, p, f, at)
  {
    assert DeadEnd(cfg.clarification, u.budget, p, Informed(u, f));
    FailsExactlyInDeadEnds(cfg, u, p, f, at);
    var w := Answered(cfg, BuiltinRules(), u, p, f, at).0;
    forall more | Undisturbed(more) ensures After(cfg, BuiltinRules(), w, more) == w {
      DeadEndsStopListening(cfg, BuiltinRules(), u, p, f, at, more);
    }
  }

  // ---- The starting persona's budget ----

  function Before(start: PersonaId, ids: seq<PersonaId>, i: nat): PersonaId
    requires i < |ids|
  {
    if i == 0 then start else ids[i - 1]
  }

  /** Each persona is the one before it or an allowed successor; the utterances are heard by it. */
  ghost predicate Follows(start: PersonaId, ids: seq<PersonaId>, events: seq<Event>)
  {
    && |ids| == |events|
    && (forall i :: 0 <= i < |ids| ==> ids[i] == Before(start, ids, i) || SwitchAllowed(Before(start, ids, i), ids[i]))
    && forall i :: 0 <= i < |events| && events[i].Utter? ==> events[i].persona == Builtin(ids[i])
  }

  lemma {:induction false} NarrowPersonasStayNarrow(start: PersonaId, ids: seq<PersonaId>, events: seq<Event>, i: nat)
    requires Follows(start, ids, events) && start in {FraudShield, EmergencyAssistant} && i < |ids|
    ensures ids[i] in {start, EmergencyAssistant}
  {
    if i > 0 {
      NarrowPersonasStayNarrow(start, ids, events, i - 1);
    }
  }

  /** From a persona that can only narrow, fewer questions are asked than the budget it starts with. */
  lemma NarrowStartsStayBelow(
    cfg: ConversationConfig, rules: seq<Rule>, t: Talk, start: PersonaId, ids: seq<PersonaId>, events: seq<Event>)
    requires Narrows(rules) && t.budget == UNSPENT && Follows(start, ids, events)
    requires start in {FraudShield, EmergencyAssistant}
    ensures var n := Questions(cfg, rules, t, events); n == 0 || n < Builtin(start).clarificationBudget
  {
    forall i | 0 <= i < |events| && events[i].Utter?
      ensures events[i].persona.clarificationBudget <= Builtin(start).clarificationBudget
    {
      NarrowPersonasStayNarrow(start, ids, events, i);
    }
    QuestionsAreBounded(cfg, rules, t, events, Builtin(start).clarificationBudget);
  }

  /** No more questions are asked than the starting persona's budget, unless that was the personal assistant. */
  lemma StartingBudgetHolds(
    cfg: ConversationConfig, rules: seq<Rule>, t: Talk, start: PersonaId, ids: seq<PersonaId>, events: seq<Event>)
    requires Narrows(rules) && t.budget == UNSPENT && Follows(start, ids, events)
    requires start != PersonalAssistant
    ensures Questions(cfg, rules, t, events) <= Builtin(start).clarificationBudget
  {
    if start == BusinessReceptionist {
      QuestionsAreBounded(cfg, rules, t, events, Builtin(FraudShield).clarificationBudget);
    } else {
      NarrowStartsStayBelow(cfg, rules, t, start, ids, events);
    }
  }

  /** From it they may be more: becoming fraud shield brings a larger budget, and it gets used. */
  lemma StartingBudgetFails(cfg: ConversationConfig, t: Talk, at: Instants)
    returns (ids: seq<PersonaId>, events: seq<Event>, w: Talk)
    requires cfg.Valid() && cfg.clarification == DEFAULT && Young(t)
    ensures Follows(PersonalAssistant, ids, events) && Leads(cfg, t, events, 3, w)
    ensures 3 > Builtin(PersonalAssistant).clarificationBudget
  {
    ids, events, w := ThreeQuestions(cfg, t, PersonalAssistant, at);
  }

  /** The receptionist's bound is met exactly: without the switch only two of its three would be asked. */
  lemma ReceptionistMayReachItsBudget(cfg: ConversationConfig, t: Talk, at: Instants)
    returns (ids: seq<PersonaId>, events: seq<Event>, w: Talk)
    requires cfg.Valid() && cfg.clarification == DEFAULT && Young(t)
    ensures Follows(BusinessReceptionist, ids, events) && Leads(cfg, t, events, 3, w)
    ensures 3 == Builtin(BusinessReceptionist).clarificationBudget
  {
    ids, events, w := ThreeQuestions(cfg, t, BusinessReceptionist, at);
  }

  lemma ThreeQuestions(cfg: ConversationConfig, t: Talk, start: PersonaId, at: Instants)
    returns (ids: seq<PersonaId>, events: seq<Event>, w: Talk)
    requires cfg.Valid() && cfg.clarification == DEFAULT && Young(t)
    requires start in {BusinessReceptionist, PersonalAssistant}
    ensures Follows(start, ids, events) && Leads(cfg, t, events, 3, w)
  {
    var next := if start == BusinessReceptionist then start else FraudShield;
    var first, second, u := TwoQuestions(cfg, t, Builtin(start), Builtin(next), CONTRADICTION, at);
    var third, v := ThirdQuestion(cfg, u, CUT_OFF, at);
    ids, events, w := [start, start, next, next, FraudShield, FraudShield], first + second + third, v;
    Joined(cfg, t, first + second, 2, u, third, 1, v);
    SixFollow(start, next, first, second, third);
  }

  lemma SixFollow(
    start: PersonaId, next: PersonaId, first: seq<Event>, second: seq<Event>, third: seq<Event>)
    requires start in {BusinessReceptionist, PersonalAssistant} && next in {start, FraudShield}
    requires Exchange(first, Builtin(start)) && Exchange(second, Builtin(next)) && Exchange(third, Builtin(FraudShield))
    ensures Follows(start, [start, start, next, next, FraudShield, FraudShield], first + second + third)
  {
  }

  lemma ThirdQuestion(cfg: ConversationConfig, t: Talk, f: Facts, at: Instants)
    returns (events: seq<Event>, w: Talk)
    requires cfg.Valid() && cfg.clarification == DEFAULT && t.state.Awaiting() && Orderly(t)
    requires |t.floor.history| < 14 && t.budget.total == 2 && Rounds(t.budget, "incomplete") == 0
    requires f == CUT_OFF
    ensures Exchange(events, Builtin(FraudShield)) && Leads(cfg, t, events, 1, w)
  {
    events, w := DoubtIsExchanged(cfg, t, Builtin(FraudShield), f, at);
  }

  // ---- The bound cannot be improved ----

  /** A persona that may ask and answer, with the given budget and no other limit. */
  function Asker(budget: int): Persona
  {
    Persona({AskClarification, AnswerQuestion}, {}, budget, 0, 0, false)
  }

  /** n questions counted, nothing held against any subject, and the caller awaited. */
  predicate Ready(t: Talk, n: nat)
  {
    t.budget == Budget(n, map[], 0) && t.pending.kind == NoClarification && t.state.Awaiting() && Orderly(t)
  }

  /** The question about the contradiction, and the answer that frees the subject again. */
  lemma RoundIsComplete(cfg: ConversationConfig, t: Talk, budget: int, n: nat, f: Facts, g: Facts, at: Instants)
    returns (ask: seq<Event>, answer: seq<Event>, w: Talk)
    requires cfg.Valid() && Ready(t, n) && n + 1 < budget && f == CONTRADICTION && g == ANSWER
    ensures Exchange(ask, Asker(budget)) && Exchange(answer, Asker(budget))
    ensures Leads(cfg, t, ask + answer, 1, w) && Ready(w, n + 1)
  {
    var u: Talk;
    DoubtIsReserved(cfg.clarification, t.budget, Asker(budget), f);
    ask, u := DoubtIsExchanged(cfg, t, Asker(budget), f, at);
    answer, w := PlainIsExchanged(cfg, u, Asker(budget), g, at);
    ContradictionIsFreed(u.budget, u.pending, n + 1);
    Joined(cfg, t, ask, 1, u, answer, 0, w);
  }

  lemma ContradictionIsFreed(b: Budget, pending: Request, n: nat)
    requires b == Budget(n, map["contradiction" := 1], 0) && pending.kind == Contradiction && pending.slot == ""
    ensures Remembered(b, pending, NO_REQUEST) == (Budget(n, map[], 0), NO_REQUEST)
  {
    assert Subject(pending) == "contradiction";
    assert b.perSubject - {"contradiction"} == map[];
  }

  /** Nothing but utterances heard by p and finished speech. */
  predicate HeardBy(events: seq<Event>, p: Persona)
  {
    forall i :: 0 <= i < |events| ==> (events[i].Utter? && events[i].persona == p) || events[i].SpeechDone?
  }

  lemma RoundOnceMore(
    cfg: ConversationConfig, t: Talk, before: seq<Event>, n: nat, u: Talk, budget: int, at: Instants)
    returns (events: seq<Event>, w: Talk)
    requires cfg.Valid() && Leads(cfg, t, before, n, u) && Ready(u, n) && n + 1 < budget
    requires HeardBy(before, Asker(budget))
    ensures Leads(cfg, t, events, n + 1, w) && Ready(w, n + 1) && HeardBy(events, Asker(budget))
  {
    var ask, answer;
    ask, answer, w := RoundIsComplete(cfg, u, budget, n, CONTRADICTION, ANSWER, at);
    events := Appended(cfg, t, before, n, u, ask, answer, 1, w, Asker(budget));
  }

  lemma Appended(cfg: ConversationConfig, t: Talk, before: seq<Event>, m: nat, u: Talk,
                 ask: seq<Event>, answer: seq<Event>, n: nat, w: Talk, p: Persona)
    returns (events: seq<Event>)
    requires Leads(cfg, t, before, m, u) && Leads(cfg, u, ask + answer, n, w)
    requires HeardBy(before, p) && Exchange(ask, p) && Exchange(answer, p)
    ensures Leads(cfg, t, events, m + n, w) && HeardBy(events, p)
  {
    Joined(cfg, t, before, m, u, ask + answer, n, w);
    events := before + (ask + answer);
  }

  /** The bound is exact: for every budget some conversation asks all but the last of its questions. */
  lemma {:induction false} TheBoundIsReached(cfg: ConversationConfig, t: Talk, budget: int, n: nat, at: Instants)
    returns (events: seq<Event>, w: Talk)
    requires cfg.Valid() && Ready(t, 0) && n < budget
    ensures Leads(cfg, t, events, n, w) && Ready(w, n) && HeardBy(events, Asker(budget))
  {
    if n == 0 {
      events, w := [], t;
      NoEventsLeadNowhere(cfg, t);
    } else {
      var before, u := TheBoundIsReached(cfg, t, budget, n - 1, at);
      events, w := RoundOnceMore(cfg, t, before, n - 1, u, budget, at);
    }
  }
}
