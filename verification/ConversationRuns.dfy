/** What holds of whole conversations. */
module ConversationRuns {
  import opened Dialogue
  import opened Clarification
  import opened Policy
  import opened Planner
  import opened Conversation
  import opened ConversationTheorems
  import T = TurnManager

  /** Other stands for every event not modelled: it may leave the state, the plan and the floor anyhow. */
  datatype Event =
    | Utter(persona: Persona, facts: Facts, at: Instants)
    | SpeechDone(at: Instants)
    | Other(state: State, lastPlan: Plan, floor: T.Floor)

  /** A conversation that has reached a terminal state stays there. */
  function Next(cfg: ConversationConfig, rules: seq<Rule>, t: Talk, e: Event): Talk
  {
    match e
    case Utter(persona, facts, at) => Answered(cfg, rules, t, persona, facts, at).0
    case SpeechDone(at) => SpokenOut(cfg.turns, t, at)
    case Other(state, lastPlan, floor) =>
      if t.state.Terminal() then t else t.(state := state, lastPlan := lastPlan, floor := floor)
  }

  function After(cfg: ConversationConfig, rules: seq<Rule>, t: Talk, events: seq<Event>): Talk
    decreases |events|
  {
    if events == [] then t
    else Next(cfg, rules, After(cfg, rules, t, events[..|events| - 1]), events[|events| - 1])
  }

  /** Whether the event put a question to the caller. */
  function Asked(cfg: ConversationConfig, rules: seq<Rule>, t: Talk, e: Event): nat
  {
    if !e.Utter? then 0
    else
      var o := Answered(cfg, rules, t, e.persona, e.facts, e.at).1;
      if (o.Applied? || o.Failed?) && o.plan.action.Asks() then 1 else 0
  }

  function Questions(cfg: ConversationConfig, rules: seq<Rule>, t: Talk, events: seq<Event>): nat
    decreases |events|
  {
    if events == [] then 0
    else
      var n := |events| - 1;
      Questions(cfg, rules, t, events[..n]) + Asked(cfg, rules, After(cfg, rules, t, events[..n]), events[n])
  }

  lemma RunOn(cfg: ConversationConfig, rules: seq<Rule>, t: Talk, events: seq<Event>, e: Event)
    ensures After(cfg, rules, t, events + [e]) == Next(cfg, rules, After(cfg, rules, t, events), e)
    ensures Questions(cfg, rules, t, events + [e])
            == Questions(cfg, rules, t, events) + Asked(cfg, rules, After(cfg, rules, t, events), e)
  {
    assert (events + [e])[..|events|] == events;
  }

  // ---- Speaking while nobody is awaited ----

  /** The floor goes to a caller who speaks now. */
  predicate CallerWins(cfg: T.TurnConfig, f: T.Floor, now: int)
  {
    && f.current.Some? && f.current.value.owner != T.Caller && !f.nonYielding
    && (var overlap := if f.overlapStart.Some? then now - f.overlapStart.value else 0;
        overlap >= cfg.overlapGrace && (f.current.value.owner == T.Agent ==> overlap > cfg.backchannelMax))
  }

  /** A word leaves Thinking exactly when it wins the floor, and then the conversation listens to the caller again. */
  lemma LeavesThinkingExactly(cfg: ConversationConfig, rules: seq<Rule>, t: Talk, p: Persona, f: Facts, at: Instants)
    requires cfg.Valid() && t.state == Thinking
    ensures var (t', o) := Answered(cfg, rules, t, p, f, at);
            && (t'.state != Thinking <==> CallerWins(cfg.turns, t.floor, at.noted))
            && (t'.state != Thinking ==>
                  t'.state == Listening && t'.floor.current.Some? && t'.floor.current.value.owner == T.Caller)
            && (t'.state == Thinking ==> t' == t.(floor := t'.floor) && t'.floor.current == t.floor.current)
  {
  }

  /** A floor no further word can win, because each word starts timing its overlap afresh. */
  predicate Stalled(cfg: T.TurnConfig, f: T.Floor)
  {
    || f.current.None? || f.current.value.owner == T.Caller || f.nonYielding
    || (f.overlapStart.None? && (0 < cfg.overlapGrace || f.current.value.owner == T.Agent))
  }

  predicate Words(events: seq<Event>)
  {
    forall i :: 0 <= i < |events| ==> events[i].Utter?
  }

  lemma OneWordChangesNothing(cfg: ConversationConfig, rules: seq<Rule>, t: Talk, e: Event)
    requires cfg.Valid() && e.Utter? && !t.state.Awaiting() && Stalled(cfg.turns, t.floor)
    ensures var t' := Next(cfg, rules, t, e);
            && t' == t.(floor := t'.floor) && Stalled(cfg.turns, t'.floor)
            && t'.floor.current == t.floor.current && t'.floor.history == t.floor.history
  {
  }

  lemma {:induction false} WordsChangeNothing(cfg: ConversationConfig, rules: seq<Rule>, t: Talk, events: seq<Event>)
    requires cfg.Valid() && Words(events) && !t.state.Awaiting() && Stalled(cfg.turns, t.floor)
    ensures var t' := After(cfg, rules, t, events);
            && t' == t.(floor := t'.floor) && Stalled(cfg.turns, t'.floor)
            && t'.floor.current == t.floor.current && t'.floor.history == t.floor.history
    decreases |events|
  {
    if events != [] {
      var n := |events| - 1;
      WordsChangeNothing(cfg, rules, t, events[..n]);
      OneWordChangesNothing(cfg, rules, After(cfg, rules, t, events[..n]), events[n]);
    }
  }

  lemma LostWordsStall(cfg: ConversationConfig, rules: seq<Rule>, t: Talk, e: Event)
    requires cfg.Valid() && e.Utter? && !t.state.Awaiting() && !t.state.Terminal()
    requires !CallerWins(cfg.turns, t.floor, e.at.noted) && t.floor.current.Some?
    requires t.floor.current.value.owner == T.Agent
             || (t.floor.overlapStart.Some? ==> t.floor.overlapStart.value <= e.at.noted)
    ensures var t' := Next(cfg, rules, t, e);
            t'.state == t.state && Stalled(cfg.turns, t'.floor) && t'.floor.current == t.floor.current
  {
  }

  /**
   Spoken over, the agent yields to the first word or, as long as only words follow, never. The
   first may win only if it finds an overlap already timed: each word that loses is forgotten
   before the next, so none ever grows into an interruption.
   */
  lemma TheFirstWordOverTheAgentDecides(
    cfg: ConversationConfig, rules: seq<Rule>, t: Talk, first: Event, more: seq<Event>)
    requires cfg.Valid() && t.state == Speaking && first.Utter? && Words(more)
    requires t.floor.current.Some? && t.floor.current.value.owner == T.Agent
    ensures var t' := Next(cfg, rules, t, first);
            var u := After(cfg, rules, t', more);
            if CallerWins(cfg.turns, t.floor, first.at.noted) then
              t'.state == Listening && t'.floor.current.Some? && t'.floor.current.value.owner == T.Caller
            else u.state == Speaking && u.floor.current == t.floor.current
    ensures CallerWins(cfg.turns, t.floor, first.at.noted) ==> t.floor.overlapStart.Some?
  {
    if !CallerWins(cfg.turns, t.floor, first.at.noted) {
      LostWordsStall(cfg, rules, t, first);
      WordsChangeNothing(cfg, rules, Next(cfg, rules, t, first), more);
    }
  }

  lemma {:induction false} FirstThenMore(
    cfg: ConversationConfig, rules: seq<Rule>, t: Talk, first: Event, more: seq<Event>)
    ensures After(cfg, rules, t, [first] + more) == After(cfg, rules, Next(cfg, rules, t, first), more)
    decreases |more|
  {
    if more == [] {
      RunOn(cfg, rules, t, [], first);
      assert [first] + more == [] + [first];
    } else {
      var front, e := more[..|more| - 1], more[|more| - 1];
      FirstThenMore(cfg, rules, t, first, front);
      RunOn(cfg, rules, t, [first] + front, e);
      assert [first] + more == [first] + front + [e];
    }
  }

  /** With no overlap already timed, then, no number of words stops the agent. */
  lemma WordsNeverStopTheAgent(cfg: ConversationConfig, rules: seq<Rule>, t: Talk, events: seq<Event>)
    requires cfg.Valid() && Words(events) && t.state == Speaking && t.floor.overlapStart.None?
    requires t.floor.current.Some? && t.floor.current.value.owner == T.Agent
    ensures var u := After(cfg, rules, t, events); u.state == Speaking && u.floor.current == t.floor.current
  {
    if events != [] {
      TheFirstWordOverTheAgentDecides(cfg, rules, t, events[0], events[1..]);
      FirstThenMore(cfg, rules, t, events[0], events[1..]);
      assert events == [events[0]] + events[1..];
    }
  }

  /** An overlap with the agent stays timed only when overlap has no grace and it is not the caller's. */
  lemma OverlapIsForgottenUnlessDenied(cfg: T.TurnConfig, t: Talk, party: T.Party, at: Instants)
    requires cfg.Valid() && t.floor.overlapStart.None? && !t.floor.nonYielding
    requires t.floor.current.Some? && t.floor.current.value.owner == T.Agent
    ensures var t' := Heard(cfg, t, party, at).0;
            t'.floor.overlapStart.Some? <==> cfg.overlapGrace == 0 && party !in {T.Caller, T.Agent}
  {
  }

  /** Thinking is left by the first word or, as long as only words follow, never. */
  lemma TheFirstWordDecides(cfg: ConversationConfig, rules: seq<Rule>, t: Talk, first: Event, more: seq<Event>)
    requires cfg.Valid() && t.state == Thinking && first.Utter? && Words(more)
    requires t.floor.overlapStart.Some? ==> t.floor.overlapStart.value <= first.at.noted
    ensures var t' := Next(cfg, rules, t, first);
            if CallerWins(cfg.turns, t.floor, first.at.noted) then t'.state == Listening
            else After(cfg, rules, t', more).state == Thinking
  {
    LeavesThinkingExactly(cfg, rules, t, first.persona, first.facts, first.at);
    if !CallerWins(cfg.turns, t.floor, first.at.noted) {
      if t.floor.current.Some? {
        LostWordsStall(cfg, rules, t, first);
      }
      WordsChangeNothing(cfg, rules, Next(cfg, rules, t, first), more);
    }
  }

  // ---- Dead ends ----

  /** Nothing is queued or timed, and whose turn it is goes with the state. */
  predicate Orderly(t: Talk)
  {
    && t.floor.queued.None? && !t.floor.nonYielding && t.floor.overlapStart.None?
    && (t.state == Speaking ==> t.floor.current.Some? && t.floor.current.value.owner == T.Agent)
    && (t.state != Speaking ==> t.floor.current.None? || t.floor.current.value.owner == T.Caller)
    && (t.state == Thinking ==> t.floor.current.None? && StateAfter(t.lastPlan) == Listening)
  }

  /** Whatever the rules, a plan that cannot be carried out names Listening and expects nothing. */
  lemma FailuresListen(rules: seq<Rule>, c: Case)
    ensures var plan := Settled(rules, c, {}, MAX_REPLANS);
            NextState(plan) !in Edges(Thinking) ==> plan.nextState == Listening && StateAfter(plan) == Listening
  {
    SettledIsAllowed(rules, c, {}, MAX_REPLANS);
    var plan := Settled(rules, c, {}, MAX_REPLANS);
    if plan != EXHAUSTED {
      var d :| plan == Planned(c.Input(d));
      ListensExactlyWhenDeclining(c.Input(d));
    }
  }

  lemma CarriedIsOrderly(cfg: T.TurnConfig, t: Talk, at: Instants)
    requires t.floor.queued.None? && !t.floor.nonYielding && t.floor.overlapStart.None? && t.state == Thinking
    requires t.floor.current.None? || t.floor.current.value.owner == T.Caller
    requires NextState(t.lastPlan) !in Edges(Thinking) ==> StateAfter(t.lastPlan) == Listening
    ensures Orderly(Carried(cfg, t, at).0)
  {
  }

  lemma SpokenOutIsOrderly(cfg: T.TurnConfig, t: Talk, at: Instants)
    requires Orderly(t)
    ensures Orderly(SpokenOut(cfg, t, at))
    ensures t.state == Thinking ==> SpokenOut(cfg, t, at) == t
  {
  }

  lemma NextIsOrderly(cfg: ConversationConfig, rules: seq<Rule>, t: Talk, e: Event)
    requires cfg.Valid() && Orderly(t) && !e.Other?
    ensures Orderly(Next(cfg, rules, t, e))
    ensures t.state == Thinking ==> Next(cfg, rules, t, e) == t
  {
    match e
    case SpeechDone(at) => SpokenOutIsOrderly(cfg.turns, t, at);
    case Utter(p, f, at) =>
      if t.state.Awaiting() {
        FailuresListen(rules, CaseOf(cfg.clarification, t, p, f));
        CarriedIsOrderly(cfg.turns, Thought(cfg.clarification, rules, t, p, f), at);
      }
  }

  /** Utterances and finished speech alone. */
  predicate Undisturbed(events: seq<Event>)
  {
    forall i :: 0 <= i < |events| ==> !events[i].Other?
  }

  lemma {:induction false} RunsAreOrderly(cfg: ConversationConfig, rules: seq<Rule>, t: Talk, events: seq<Event>)
    requires cfg.Valid() && Orderly(t) && Undisturbed(events)
    ensures Orderly(After(cfg, rules, t, events))
    ensures t.state == Thinking ==> After(cfg, rules, t, events) == t
    decreases |events|
  {
    if events != [] {
      var n := |events| - 1;
      RunsAreOrderly(cfg, rules, t, events[..n]);
      NextIsOrderly(cfg, rules, After(cfg, rules, t, events[..n]), events[n]);
    }
  }

  /** Thinking with a plan that cannot be carried out and a floor nobody holds. */
  predicate Dead(t: Talk)
  {
    t.state == Thinking && t.floor.current.None? && StateAfter(t.lastPlan) == Listening
  }

  lemma {:induction false} TheDeadStayDead(cfg: ConversationConfig, rules: seq<Rule>, t: Talk, events: seq<Event>)
    requires Dead(t) && Undisturbed(events)
    ensures After(cfg, rules, t, events) == t
    decreases |events|
  {
    if events != [] {
      TheDeadStayDead(cfg, rules, t, events[..|events| - 1]);
    }
  }

  /** A dead end met with the floor free or the caller's is final: nothing said or spoken out changes anything again. */
  lemma DeadEndsStopListening(
    cfg: ConversationConfig, rules: seq<Rule>, t: Talk, p: Persona, f: Facts, at: Instants, events: seq<Event>)
    requires t.state.Awaiting() && DeadEnd(cfg.clarification, t.budget, p, Informed(t, f)) && Undisturbed(events)
    requires t.floor.current.None? || (t.floor.current.value.owner == T.Caller && t.floor.queued.None?)
    ensures var t' := Answered(cfg, BuiltinRules(), t, p, f, at).0;
            t'.state == Thinking && After(cfg, rules, t', events) == t'
  {
    FailsExactlyInDeadEnds(cfg, t, p, f, at);
    FailuresListen(BuiltinRules(), CaseOf(cfg.clarification, t, p, f));
    TheDeadStayDead(cfg, rules, Answered(cfg, BuiltinRules(), t, p, f, at).0, events);
  }

  /**
   In turn, an utterance fails exactly in a dead end, and a dead end is final: no utterance and
   no finished speech, in any number, changes anything afterwards.
   */
  lemma DeadEndsAreFinal(cfg: ConversationConfig, t: Talk, events: seq<Event>, e: Event, more: seq<Event>)
    requires cfg.Valid() && Orderly(t) && Undisturbed(events) && Undisturbed(more) && e.Utter?
    requires After(cfg, BuiltinRules(), t, events).state.Awaiting()
    ensures var t1 := After(cfg, BuiltinRules(), t, events);
            var (t2, o) := Answered(cfg, BuiltinRules(), t1, e.persona, e.facts, e.at);
            && (o.Failed? <==> DeadEnd(cfg.clarification, t1.budget, e.persona, Informed(t1, e.facts)))
            && (o.Failed? ==> t2.state == Thinking && After(cfg, BuiltinRules(), t2, more) == t2)
  {
    RunsAreOrderly(cfg, BuiltinRules(), t, events);
    var t1 := After(cfg, BuiltinRules(), t, events);
    FailsExactlyInDeadEnds(cfg, t1, e.persona, e.facts, e.at);
    NextIsOrderly(cfg, BuiltinRules(), t1, e);
    RunsAreOrderly(cfg, BuiltinRules(), Next(cfg, BuiltinRules(), t1, e), more);
  }

  /**
   Out of turn it may not be final: when the platform still holds the floor after a provider's
   failure, the next word recovers the conversation if and only if overlap is given no grace.
   */
  lemma ThePlatformsTurnIsWonBack(cfg: ConversationConfig, t: Talk, e: Event, first: Event, more: seq<Event>)
    requires cfg.Valid() && e.Utter? && first.Utter? && Words(more) && t.state.Awaiting()
    requires DeadEnd(cfg.clarification, t.budget, e.persona, Informed(t, e.facts))
    requires t.floor.current.Some? && t.floor.current.value.owner == T.System
    requires !t.floor.nonYielding && t.floor.overlapStart.None?
    ensures var t1 := Next(cfg, BuiltinRules(), t, e);
            var t2 := Next(cfg, BuiltinRules(), t1, first);
            && t1.state == Thinking
            && (if cfg.turns.overlapGrace == 0 then t2.state == Listening
                else After(cfg, BuiltinRules(), t2, more).state == Thinking)
  {
    FailsExactlyInDeadEnds(cfg, t, e.persona, e.facts, e.at);
    TheFirstWordDecides(cfg, BuiltinRules(), Next(cfg, BuiltinRules(), t, e), first, more);
  }

  // ---- The number of questions ----

  lemma ThoughtCounts(cfg: ClarificationConfig, rules: seq<Rule>, t: Talk, persona: Persona, f: Facts)
    ensures var c := CaseOf(cfg, t, persona, f);
            && Thought(cfg, rules, t, persona, f).budget.total == c.used
            && c.used == t.budget.total + (if c.allowed && c.request.kind != NoClarification then 1 else 0)
  {
  }

  /** An asked question was granted now, and left part of its persona's budget unspent. */
  lemma AskingSpends(cfg: ConversationConfig, rules: seq<Rule>, t: Talk, e: Event)
    requires Narrows(rules)
    ensures var t' := Next(cfg, rules, t, e);
            && t.budget.total + Asked(cfg, rules, t, e) <= t'.budget.total
            && (Asked(cfg, rules, t, e) == 1 ==>
                  && e.Utter? && t'.budget.total == t.budget.total + 1
                  && t'.budget.total < e.persona.clarificationBudget)
  {
    if e.Utter? && t.state.Awaiting() {
      CapabilitiesAreRespected(rules, CaseOf(cfg.clarification, t, e.persona, e.facts));
      ThoughtCounts(cfg.clarification, rules, t, e.persona, e.facts);
    }
  }

  /** No persona that takes part has more than this budget. */
  predicate NoneExceeds(events: seq<Event>, budget: int)
  {
    forall i :: 0 <= i < |events| && events[i].Utter? ==> events[i].persona.clarificationBudget <= budget
  }

  /** However long it lasts, a conversation asks fewer questions than any budget its personas keep within. */
  lemma {:induction false} QuestionsAreBounded(
    cfg: ConversationConfig, rules: seq<Rule>, t: Talk, events: seq<Event>, budget: int)
    requires Narrows(rules) && t.budget == UNSPENT && NoneExceeds(events, budget)
    ensures Questions(cfg, rules, t, events) <= After(cfg, rules, t, events).budget.total
    ensures Questions(cfg, rules, t, events) == 0 || Questions(cfg, rules, t, events) < budget
    decreases |events|
  {
    if events != [] {
      var n := |events| - 1;
      QuestionsAreBounded(cfg, rules, t, events[..n], budget);
      AskingSpends(cfg, rules, After(cfg, rules, t, events[..n]), events[n]);
    }
  }

  // ---- Steps of particular runs ----

  /** A clear utterance that contradicts what is known, or was cut off: it is worth a question whatever it meant. */
  predicate Doubtful(f: Facts)
  {
    f.verdict == Accepted && (f.truncated || f.contradicts)
  }

  function SubjectOf(f: Facts): string
  {
    if f.truncated then "incomplete" else "contradiction"
  }

  lemma DoubtIsReserved(cfg: ClarificationConfig, b: Budget, p: Persona, f: Facts)
    requires cfg.Valid() && Doubtful(f) && b.total + 1 < p.clarificationBudget
    requires Rounds(b, SubjectOf(f)) < cfg.maxRoundsPerSubject
    ensures var x := Considered(cfg, b, p, f);
            && x.allowed && x.request.slot == ""
            && x.request.kind == (if f.truncated then Incomplete else Contradiction)
            && x.budget == b.(perSubject := b.perSubject[SubjectOf(f) := Rounds(b, SubjectOf(f)) + 1],
                              total := b.total + 1)
  {
    assert Subject(Assess(f)) == SubjectOf(f);
  }

  /** Such an utterance is answered with a question while there is budget. */
  lemma DoubtIsAsked(cfg: ConversationConfig, t: Talk, p: Persona, f: Facts, at: Instants)
    requires cfg.Valid() && Orderly(t) && t.state.Awaiting() && Doubtful(f) && Unhurried(p, Informed(t, f))
    requires Spends(p, t.budget) && Rounds(t.budget, SubjectOf(f)) < cfg.clarification.maxRoundsPerSubject
    ensures var (t', o) := Answered(cfg, BuiltinRules(), t, p, f, at);
            && o.Applied? && o.plan == t'.lastPlan && o.plan.action == (if f.truncated then Clarify else Confirm)
            && o.plan.expectation == (if f.truncated then T.Nothing else T.YesNo)
            && t'.budget == Considered(cfg.clarification, t.budget, p, f).budget
            && t'.pending == Considered(cfg.clarification, t.budget, p, f).request
            && t'.state == Speaking && Orderly(t') && |t'.floor.history| <= |t.floor.history| + 1
  {
    var c := CaseOf(cfg.clarification, t, p, f);
    DoubtIsReserved(cfg.clarification, t.budget, p, f);
    ThoughtIsChosen(cfg.clarification, t, p, f);
    assert Chosen(c).action == QuestionFor(c.request.kind) && Chosen(c).nextState == Speaking;
    NextIsOrderly(cfg, BuiltinRules(), t, Utter(p, f, at));
  }

  /** A clear utterance that nothing else applies to. */
  predicate Plain(f: Facts)
  {
    f.verdict == Accepted && !f.truncated && !f.contradicts && f.intent.name == FALLBACK
  }

  /** It is answered, and frees the subject that was pending. */
  lemma PlainIsAnswered(cfg: ConversationConfig, t: Talk, p: Persona, f: Facts, at: Instants)
    requires cfg.Valid() && Orderly(t) && t.state.Awaiting() && Plain(f) && Unhurried(p, Informed(t, f))
    requires p.Allows(AnswerQuestion)
    ensures var (t', o) := Answered(cfg, BuiltinRules(), t, p, f, at);
            && o.Applied? && o.plan == t'.lastPlan && o.plan.action == Respond && o.plan.expectation == T.Nothing
            && (t'.budget, t'.pending) == Remembered(t.budget, t.pending, NO_REQUEST)
            && t'.state == Speaking && Orderly(t')
  {
    ThoughtIsChosen(cfg.clarification, t, p, f);
    assert Chosen(CaseOf(cfg.clarification, t, p, f)).action == Respond;
    NextIsOrderly(cfg, BuiltinRules(), t, Utter(p, f, at));
  }

  lemma SpeechEnds(cfg: ConversationConfig, rules: seq<Rule>, t: Talk, at: Instants)
    requires cfg.Valid() && Orderly(t) && t.state == Speaking && t.lastPlan.action !in {End, Escalate, Transfer}
    ensures var t' := Next(cfg, rules, t, SpeechDone(at));
            && t'.state == StateFor(t.lastPlan.expectation) && t'.state.Awaiting() && Orderly(t')
            && t'.budget == t.budget && t'.pending == t.pending && |t'.floor.history| == |t.floor.history| + 1
  {
    SpokenOutIsOrderly(cfg.turns, t, at);
  }

  /** With the built-in rules, events lead from t to u with n questions on the way. */
  predicate Leads(cfg: ConversationConfig, t: Talk, events: seq<Event>, n: nat, u: Talk)
  {
    After(cfg, BuiltinRules(), t, events) == u && Questions(cfg, BuiltinRules(), t, events) == n
  }

  lemma NoEventsLeadNowhere(cfg: ConversationConfig, t: Talk)
    ensures Leads(cfg, t, [], 0, t)
  {
  }

  lemma OneMore(cfg: ConversationConfig, t: Talk, events: seq<Event>, n: nat, u: Talk, e: Event)
    requires Leads(cfg, t, events, n, u)
    ensures Leads(cfg, t, events + [e], n + Asked(cfg, BuiltinRules(), u, e), Next(cfg, BuiltinRules(), u, e))
  {
    RunOn(cfg, BuiltinRules(), t, events, e);
  }

  lemma LastOne(cfg: ConversationConfig, t: Talk, events: seq<Event>, n: nat, u: Talk) returns (k: nat, v: Talk)
    requires Leads(cfg, t, events, n, u) && events != []
    ensures Leads(cfg, t, events[..|events| - 1], k, v)
    ensures var e := events[|events| - 1];
            u == Next(cfg, BuiltinRules(), v, e) && n == k + Asked(cfg, BuiltinRules(), v, e)
  {
    v := After(cfg, BuiltinRules(), t, events[..|events| - 1]);
    k := Questions(cfg, BuiltinRules(), t, events[..|events| - 1]);
  }

  lemma {:induction false} Joined(
    cfg: ConversationConfig, t: Talk, a: seq<Event>, m: nat, u: Talk, b: seq<Event>, n: nat, w: Talk)
    requires Leads(cfg, t, a, m, u) && Leads(cfg, u, b, n, w)
    ensures Leads(cfg, t, a + b, m + n, w)
    decreases |b|
  {
    if b == [] {
      assert a + b == a;
    } else {
      var k, v := LastOne(cfg, u, b, n, w);
      Joined(cfg, t, a, m, u, b[..|b| - 1], k, v);
      OneMore(cfg, t, a + b[..|b| - 1], m + k, v, b[|b| - 1]);
      assert a + b == a + b[..|b| - 1] + [b[|b| - 1]];
    }
  }

  /** One utterance, heard by p, and one speech. */
  predicate Exchange(events: seq<Event>, p: Persona)
  {
    |events| == 2 && events[0].Utter? && events[0].persona == p && events[1].SpeechDone?
  }

  lemma Exchanged(cfg: ConversationConfig, t: Talk, p: Persona, f: Facts, at: Instants, u: Talk, w: Talk, n: nat)
    returns (events: seq<Event>)
    requires u == Next(cfg, BuiltinRules(), t, Utter(p, f, at)) && w == Next(cfg, BuiltinRules(), u, SpeechDone(at))
    requires n == Asked(cfg, BuiltinRules(), t, Utter(p, f, at))
    ensures Exchange(events, p) && Leads(cfg, t, events, n, w)
  {
    NoEventsLeadNowhere(cfg, t);
    OneMore(cfg, t, [], 0, t, Utter(p, f, at));
    OneMore(cfg, t, [] + [Utter(p, f, at)], n, u, SpeechDone(at));
    events := [] + [Utter(p, f, at)] + [SpeechDone(at)];
  }

  /** A doubtful utterance and the question it brings, spoken to the end. */
  lemma DoubtIsExchanged(cfg: ConversationConfig, t: Talk, p: Persona, f: Facts, at: Instants)
    returns (events: seq<Event>, w: Talk)
    requires cfg.Valid() && Orderly(t) && t.state.Awaiting() && Doubtful(f) && Unhurried(p, Informed(t, f))
    requires Spends(p, t.budget) && Rounds(t.budget, SubjectOf(f)) < cfg.clarification.maxRoundsPerSubject
    ensures Exchange(events, p) && Leads(cfg, t, events, 1, w)
    ensures var x := Considered(cfg.clarification, t.budget, p, f);
            && w.state == (if f.truncated then Listening else Confirmation) && Orderly(w)
            && w.budget == x.budget && w.pending == x.request && |w.floor.history| <= |t.floor.history| + 2
  {
    DoubtIsAsked(cfg, t, p, f, at);
    var u := Next(cfg, BuiltinRules(), t, Utter(p, f, at));
    SpeechEnds(cfg, BuiltinRules(), u, at);
    w := Next(cfg, BuiltinRules(), u, SpeechDone(at));
    events := Exchanged(cfg, t, p, f, at, u, w, 1);
  }

  /** A clear utterance and its answer, spoken to the end. */
  lemma PlainIsExchanged(cfg: ConversationConfig, t: Talk, p: Persona, f: Facts, at: Instants)
    returns (events: seq<Event>, w: Talk)
    requires cfg.Valid() && Orderly(t) && t.state.Awaiting() && Plain(f) && Unhurried(p, Informed(t, f))
    requires p.Allows(AnswerQuestion)
    ensures Exchange(events, p) && Leads(cfg, t, events, 0, w)
    ensures w.state == Listening && Orderly(w) && (w.budget, w.pending) == Remembered(t.budget, t.pending, NO_REQUEST)
  {
    PlainIsAnswered(cfg, t, p, f, at);
    var u := Next(cfg, BuiltinRules(), t, Utter(p, f, at));
    SpeechEnds(cfg, BuiltinRules(), u, at);
    w := Next(cfg, BuiltinRules(), u, SpeechDone(at));
    events := Exchanged(cfg, t, p, f, at, u, w, 0);
  }
}
