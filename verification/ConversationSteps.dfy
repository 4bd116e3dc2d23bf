/** What each event other than an awaited utterance does to a conversation, on its own state and floor. */
module ConversationSteps {
  import opened Dialogue
  import opened Policy
  import opened Conversation
  import opened ConversationRuns
  import C = Clarification
  import Frames
  import T = TurnManager

  /** A plan to do nothing but listen. */
  predicate Ignores(o: Outcome, reason: string, next: State)
  {
    o.Overlapped? && o.plan.action == Ignore && o.plan.reason == reason && o.plan.nextState == next
  }

  // ---- An interruption ----

  /**
   The caller is listened to wherever the conversation may be interrupted or may listen at once, with
   nothing left of the plan; from any other state it is refused and the state stays.
   */
  lemma InterruptionsAreListenedTo(t: Talk)
    ensures var (t', o) := BargedIn(t);
            var heard := Interrupted in Edges(t.state) || Listening in Edges(t.state);
            && (heard ==> t'.state == Listening && Ignores(o, "interrupted_user", Listening)
                          && t' == t.(state := Listening, lastPlan := o.plan))
            && (!heard ==> t' == t && o == Broken)
  {
  }

  // ---- Speaking over somebody ----

  /** How long others have spoken over the open turn by now; a first word is timed from itself. */
  function OverlapBy(f: T.Floor, now: int): int
  {
    if f.overlapStart.Some? then now - f.overlapStart.value else 0
  }

  /** The word is too brief to be an interruption, or may still be a mere backchannel to the agent. */
  predicate Brief(cfg: T.TurnConfig, owner: T.Party, party: T.Party, overlap: int)
  {
    overlap < cfg.overlapGrace || (party == T.Caller && owner == T.Agent && overlap <= cfg.backchannelMax)
  }

  /** With nobody else to speak over, the word is merely denied. */
  lemma WordsOverAFreeFloor(cfg: T.TurnConfig, t: Talk, party: T.Party, at: Instants)
    requires t.floor.current.None? || t.floor.current.value.owner == party
    ensures var (t', o) := Heard(cfg, t, party, at);
            t' == t && Ignores(o, "overlap_denied", t.state)
  {
  }

  /** Over a turn that does not yield it is queued, behind whoever is queued already. */
  lemma WordsOverAnAnnouncement(cfg: T.TurnConfig, t: Talk, party: T.Party, at: Instants)
    requires t.floor.current.Some? && t.floor.current.value.owner != party && t.floor.nonYielding
    ensures var (t', o) := Heard(cfg, t, party, at);
            && Ignores(o, "floor_queued", t.state)
            && t' == t.(floor := t.floor.(queued := t'.floor.queued)) && t'.floor.queued.Some?
            && (if t.floor.queued.Some? then t'.floor.queued == t.floor.queued
                else t'.floor.queued.value.party == party)
  {
  }

  /**
   Over any other turn it is forgotten if it is brief, denied if it is not the caller's, and otherwise
   an interruption: the turn is cut short by the caller, who has the floor at once.
   */
  lemma WordsOverATurn(cfg: T.TurnConfig, t: Talk, party: T.Party, at: Instants)
    requires t.floor.current.Some? && t.floor.current.value.owner != party && !t.floor.nonYielding
    ensures var (t', o) := Heard(cfg, t, party, at);
            var owner, overlap := t.floor.current.value.owner, OverlapBy(t.floor, at.noted);
            if Brief(cfg, owner, party, overlap) then
              Ignores(o, "backchannel", t.state) && t' == t.(floor := t'.floor)
              && t'.floor == t.floor.(overlapStart := t'.floor.overlapStart) && t'.floor.overlapStart.None?
            else if party != T.Caller then
              Ignores(o, "overlap_denied", t.state) && t' == t.(floor := t'.floor)
              && t'.floor == t.floor.(overlapStart := t'.floor.overlapStart) && t'.floor.overlapStart.Some?
            else
              var interrupted := BargedIn(t.(floor := t'.floor));
              && t' == interrupted.0 && o == interrupted.1
              && t'.floor.current.Some? && t'.floor.current.value.owner == T.Caller
              && t'.floor.current.value.startedAt == at.forced && t'.floor.queued.None? && !t'.floor.nonYielding
              && |t'.floor.history| == |t.floor.history| + 1
              && t'.floor.history[..|t.floor.history|] == t.floor.history
              && t'.floor.history[|t.floor.history|]
                 == t.floor.current.value.(endedAt := t'.floor.history[|t.floor.history|].endedAt,
                                           yielded := true, interruptedBy := T.ByUser)
  {
  }

  // ---- Finished speech ----

  /** Where the conversation goes once the agent has said its plan: out of it, or to await what the plan expects. */
  function Due(plan: Plan): State
  {
    if plan.action == End then Ended
    else if plan.action == Escalate then Escalated
    else if plan.action == Action.Transfer then Transferred
    else if plan.expectation == T.Disambiguation then State.Clarification
    else if plan.expectation == T.YesNo then Confirmation
    else if plan.expectation == T.SlotValue then Question
    else Listening
  }

  /** It goes there exactly where that is declared, and nothing follows a terminal state. */
  lemma SpeechLeadsWhereItWasDue(cfg: T.TurnConfig, t: Talk, at: Instants)
    ensures var w := SpokenOut(cfg, t, at);
            && w.lastPlan == t.lastPlan && w.pending == t.pending && w.budget == t.budget
            && (t.state.Terminal() ==> w == t)
            && w.state == if !t.state.Terminal() && Due(t.lastPlan) in Edges(t.state) then Due(t.lastPlan) else t.state
  {
  }

  /** In turn, the agent's turn is then closed with what its plan expects, and the caller's is open. */
  lemma SpeechHandsOver(cfg: ConversationConfig, t: Talk, at: Instants)
    requires cfg.Valid() && Orderly(t) && t.state == Speaking
    ensures var f, w := t.floor, SpokenOut(cfg.turns, t, at);
            && |w.floor.history| == |f.history| + 1 && w.floor.history[..|f.history|] == f.history
            && w.floor.history[|f.history|] == f.current.value.(endedAt := w.floor.history[|f.history|].endedAt,
                                                                yielded := false, expectation := t.lastPlan.expectation)
            && w.floor.history[|f.history|].endedAt == Frames.Some(at.closed)
            && w.floor.current.Some? && w.floor.current.value.owner == T.Caller
            && w.floor.current.value.startedAt == at.acquired
  {
  }

  // ---- The answer begins ----

  /**
   An awaited utterance ends the caller's turn whatever it comes to, and gives the floor to the agent
   exactly when there is something to say.
   */
  lemma UtterancesHandOver(cfg: ConversationConfig, rules: seq<Rule>, t: Talk, p: Persona, f: Facts, at: Instants)
    requires cfg.Valid() && Orderly(t) && t.state.Awaiting() && t.floor.current.Some?
    ensures var u := Answered(cfg, rules, t, p, f, at).0;
            && u.floor.history == t.floor.history + [t.floor.current.value.(
                 endedAt := Frames.Some(at.closed), yielded := false, expectation := T.Nothing)]
            && (u.state == Speaking ==>
                  && u.floor.current.Some? && u.floor.current.value.owner == T.Agent
                  && u.floor.current.value.startedAt == at.acquired && !u.floor.nonYielding)
            && (u.state != Speaking ==> u.floor.current.None?)
  {
    CarriedHandsOver(cfg.turns, Thought(cfg.clarification, rules, t, p, f), at);
  }

  lemma CarriedHandsOver(cfg: T.TurnConfig, t: Talk, at: Instants)
    requires t.state == Thinking && t.floor.queued.None?
    requires t.floor.current.Some? && t.floor.current.value.owner == T.Caller
    ensures var u := Carried(cfg, t, at).0;
            && u.floor.history == t.floor.history + [t.floor.current.value.(
                 endedAt := Frames.Some(at.closed), yielded := false, expectation := T.Nothing)]
            && (u.state == Speaking ==>
                  && u.floor.current.Some? && u.floor.current.value.owner == T.Agent
                  && u.floor.current.value.startedAt == at.acquired && !u.floor.nonYielding)
            && (u.state != Speaking ==> u.floor.current.None?)
  {
  }

  /** An utterance leads where its plan says, if Thinking leads there, and otherwise fails. */
  lemma UtterancesLeadWhereThePlanSays(
    cfg: ConversationConfig, rules: seq<Rule>, t: Talk, p: Persona, f: Facts, at: Instants)
    requires t.state.Awaiting()
    ensures var (u, o) := Answered(cfg, rules, t, p, f, at);
            var plan := u.lastPlan;
            var next := if plan.nextState in {Thinking, Idle} then Speaking else plan.nextState;
            && plan == Settled(rules, CaseOf(cfg.clarification, t, p, f), {}, MAX_REPLANS)
            && (next in Edges(Thinking) ==> u.state == next && o == Applied(plan))
            && (next !in Edges(Thinking) ==> u.state == Thinking && o == Failed(plan))
  {
  }

  /** What any rule is asked about the plan: the conversation is thinking, and this question is already counted. */
  lemma RulesAreAskedAboutTheUtterance(cfg: C.ClarificationConfig, t: Talk, p: Persona, f: Facts, a: Action)
    ensures var c, x := CaseOf(cfg, t, p, f), CaseOf(cfg, t, p, f).Proposal(a);
            && x.action == a && x.state == Thinking && x.persona == p
            && x.intent == f.intent && (x.hasIntent <==> f.verdict == Accepted)
            && x.turnCount == |t.floor.history| && x.elapsed == f.elapsed
            && x.emergencyRaised == f.emergencyRaised && x.interruptionCount == f.interruptionCount
            && x.clarificationsUsed
               == t.budget.total + (if c.allowed && c.request.kind != NoClarification then 1 else 0)
  {
    ThoughtCounts(cfg, [], t, p, f);
  }

  // ---- Settled questions ----

  /**
   An utterance in doubt becomes the pending question; one that is not settles the question that
   was pending, whose subject has its rounds again.
   */
  lemma AnswersSettleTheQuestion(
    cfg: ConversationConfig, rules: seq<Rule>, t: Talk, p: Persona, f: Facts, at: Instants)
    requires t.state.Awaiting()
    ensures var u, x := Answered(cfg, rules, t, p, f, at).0, Considered(cfg.clarification, t.budget, p, f);
            && (x.request.kind != NoClarification ==> u.pending == x.request && u.budget == x.budget)
            && (x.request.kind == NoClarification && t.pending.kind != NoClarification ==>
                  && u.pending == NO_REQUEST && u.budget.total == t.budget.total
                  && u.budget.perSubject == t.budget.perSubject - {C.Subject(t.pending)}
                  && u.budget.noiseRounds == (if t.pending.kind == NoiseRepeat then 0 else t.budget.noiseRounds))
            && (x.request.kind == NoClarification && t.pending.kind == NoClarification ==>
                  u.pending == t.pending && u.budget == t.budget)
  {
  }
}
