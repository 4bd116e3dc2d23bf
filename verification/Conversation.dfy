/** One utterance's way through a conversation: floor, question, plan, veto, re-plan, transition. */
module Conversation {
  import opened Dialogue
  import opened Clarification
  import opened Policy
  import opened Planner
  import T = TurnManager
  import Frames

  const MAX_REPLANS: nat := 3

  const EXHAUSTED: Plan := Escalation("policy_exhausted", 0.5, "policy")

  datatype ConversationConfig = ConversationConfig(clarification: ClarificationConfig, turns: T.TurnConfig)
  {
    ghost predicate Valid() { clarification.Valid() && turns.Valid() }
  }

  /** The clock readings one event may take, each where the source reads it. */
  datatype Instants = Instants(noted: int, forced: int, stamped: int, closed: int, reopened: int, acquired: int)

  // ---- The re-plan loop ----

  /** What the loop knows; used counts the clarifications spent, this one included. */
  datatype Case = Case(persona: Persona, facts: Facts, request: Request, allowed: bool, used: int)
  {
    function Input(denied: set<Action>): PlanInput
    {
      PlanInput(persona, facts, request, allowed, denied)
    }

    /** What the rules are asked about an action: the conversation is thinking. */
    function Proposal(a: Action): PolicyInput
    {
      PolicyInput(a, Thinking, persona, facts.intent, facts.verdict == Accepted, facts.turnCount, facts.elapsed,
                  used, facts.emergencyRaised, facts.interruptionCount)
    }
  }

  /** The plan that survives the veto within the attempts left. */
  function Settled(rules: seq<Rule>, c: Case, denied: set<Action>, attempts: nat): Plan
    requires attempts > 0
    decreases attempts
  {
    var plan := Planned(c.Input(denied));
    if Evaluated(rules, c.Proposal(plan.action)).Allow? then plan
    else if attempts == 1 then EXHAUSTED
    else Settled(rules, c, denied + {plan.action}, attempts - 1)
  }

  // ---- The conversation between events ----

  datatype Talk = Talk(state: State, lastPlan: Plan, pending: Request, budget: Budget, floor: T.Floor)

  /**
   Finished: nothing follows a terminal state. Overlapped: the agent was not listening, so floor
   control dealt with it. Broken: an interruption with nowhere declared to go. Failed: the plan
   names a state that may not be entered.
   */
  datatype Outcome = Finished | Overlapped(plan: Plan) | Broken | Applied(plan: Plan) | Failed(plan: Plan)

  /** The facts as the decision sees them: what was expected and how many turns there were, the floor says. */
  function Informed(t: Talk, f: Facts): Facts
  {
    f.(expectation := T.LastExpectationOf(t.floor.history), turnCount := |t.floor.history|)
  }

  function Considered(cfg: ClarificationConfig, b: Budget, persona: Persona, f: Facts): Reservation
  {
    Reserved(cfg, b, Assess(f), persona.clarificationBudget)
  }

  function CaseOf(cfg: ClarificationConfig, t: Talk, persona: Persona, f: Facts): Case
  {
    var x := Considered(cfg, t.budget, persona, f);
    Case(persona, Informed(t, f), x.request, x.allowed, x.budget.total)
  }

  /** An answered question frees its subject. */
  function Remembered(b: Budget, pending: Request, r: Request): (Budget, Request)
  {
    if r.kind != NoClarification then (b, r)
    else if pending.kind != NoClarification then (Resolved(b, pending), NO_REQUEST)
    else (b, pending)
  }

  function NextState(plan: Plan): State
  {
    if plan.nextState == Thinking || plan.nextState == Idle then Speaking else plan.nextState
  }

  function Ignoring(reason: string, state: State): Outcome
  {
    Overlapped(Simple(Ignore, reason, state, 0.0))
  }

  /** A party speaks over whoever has the floor. A finished backchannel is forgotten at once. */
  function Heard(cfg: T.TurnConfig, t: Talk, party: T.Party, at: Instants): (Talk, Outcome)
  {
    var a := T.Noted(cfg, t.floor, party, at.noted);
    match a.decision
    case Backchannel => (t.(floor := a.floor.(overlapStart := Frames.None)), Ignoring("backchannel", t.state))
    case Queued => (t.(floor := a.floor), Ignoring("floor_queued", t.state))
    case Denied => (t.(floor := a.floor), Ignoring("overlap_denied", t.state))
    case Granted => BargedIn(t.(floor := T.Forced(a.floor, T.Caller, T.ByUser, at.forced)))
  }

  /** By way of Interrupted where it can be entered, then to Listening. */
  function BargedIn(t: Talk): (Talk, Outcome)
  {
    var contested := if Interrupted in Edges(t.state) then Interrupted else t.state;
    if Listening in Edges(contested) then
      var plan := Simple(Ignore, "interrupted_user", Listening, 0.0);
      (t.(state := Listening, lastPlan := plan), Overlapped(plan))
    else
      (t.(state := contested), Broken)
  }

  /** The conversation enters Thinking with the plan it settled on. */
  function Thought(cfg: ClarificationConfig, rules: seq<Rule>, t: Talk, persona: Persona, f: Facts): Talk
  {
    var c := CaseOf(cfg, t, persona, f);
    var (budget, pending) := Remembered(Considered(cfg, t.budget, persona, f).budget, t.pending, c.request);
    Talk(Thinking, Settled(rules, c, {}, MAX_REPLANS), pending, budget, t.floor)
  }

  /** The caller's turn ends, and the agent's begins if there is something to say. */
  function Carried(cfg: T.TurnConfig, t: Talk, at: Instants): (Talk, Outcome)
  {
    var next, floor := NextState(t.lastPlan), T.Released(t.floor, T.Caller, T.Nothing, at.closed, at.reopened);
    if next !in Edges(t.state) then (t.(floor := floor), Failed(t.lastPlan))
    else if next != Speaking then (t.(state := next, floor := floor), Applied(t.lastPlan))
    else
      (t.(state := next, floor := T.Acquired(cfg, floor, T.Agent, false, at.acquired).floor), Applied(t.lastPlan))
  }

  function Uttered(cfg: ConversationConfig, rules: seq<Rule>, t: Talk, persona: Persona, f: Facts, at: Instants)
    : (Talk, Outcome)
  {
    if !t.state.Awaiting() then Heard(cfg.turns, t, T.Caller, at)
    else Carried(cfg.turns, Thought(cfg.clarification, rules, t, persona, f), at)
  }

  /** An event that carries an utterance; a conversation that is over takes none. */
  function Answered(cfg: ConversationConfig, rules: seq<Rule>, t: Talk, persona: Persona, f: Facts, at: Instants)
    : (Talk, Outcome)
  {
    if t.state.Terminal() then (t, Finished) else Uttered(cfg, rules, t, persona, f, at)
  }

  function StateFor(e: Expectation): State
  {
    match e
    case Disambiguation => Clarification
    case YesNo => Confirmation
    case SlotValue => Question
    case Nothing => Listening
  }

  /** Where the conversation goes once the agent has said what it planned. */
  function StateAfter(plan: Plan): State
  {
    match plan.action
    case End => Ended
    case Escalate => Escalated
    case Transfer => Transferred
    case _ => StateFor(plan.expectation)
  }

  /** The agent finishes speaking: its turn ends with the plan's expectation and the caller's begins. */
  function SpokenOut(cfg: T.TurnConfig, t: Talk, at: Instants): Talk
  {
    if t.state.Terminal() then t
    else
      var floor := T.Released(t.floor, T.Agent, t.lastPlan.expectation, at.closed, at.reopened);
      var next := StateAfter(t.lastPlan);
      if next !in Edges(t.state) then t.(floor := floor)
      else t.(state := next, floor := T.Acquired(cfg, floor, T.Caller, false, at.acquired).floor)
  }

  class Conversation {
    const clarify: ClarificationEngine
    const policy: PolicyEngine
    const turns: T.TurnManager
    var state: State
    var lastPlan: Plan
    var pending: Request

    ghost predicate Valid()
      reads this, clarify, policy
    {
      clarify.Valid() && policy.Valid() && turns.cfg.Valid()
    }

    ghost function Config(): ConversationConfig
    {
      ConversationConfig(clarify.cfg, turns.cfg)
    }

    ghost function Contents(): Talk
      reads this, clarify, turns
    {
      Talk(state, lastPlan, pending, clarify.Contents(), turns.Contents())
    }

    constructor (clarify: ClarificationEngine, policy: PolicyEngine, turns: T.TurnManager)
      requires clarify.Valid() && policy.Valid() && turns.cfg.Valid()
      ensures Valid() && this.clarify == clarify && this.policy == policy && this.turns == turns
      ensures state == Idle && pending == NO_REQUEST
    {
      this.clarify, this.policy, this.turns := clarify, policy, turns;
      state, pending := Idle, NO_REQUEST;
      lastPlan := Simple(Respond, "", Idle, 0.0);
    }

    method Handle(persona: Persona, f: Facts, at: Instants) returns (outcome: Outcome)
      requires Valid()
      modifies this, clarify, turns
      ensures Valid()
      ensures (Contents(), outcome) == Answered(Config(), policy.rules, old(Contents()), persona, f, at)
    {
      if state.Terminal() {
        return Finished;
      }
      outcome := HandleUtterance(persona, f, at);
    }

    method HandleUtterance(persona: Persona, f: Facts, at: Instants) returns (outcome: Outcome)
      requires Valid()
      modifies this, clarify, turns
      ensures Valid()
      ensures (Contents(), outcome) == Uttered(Config(), policy.rules, old(Contents()), persona, f, at)
    {
      if !state.Awaiting() {
        outcome := HandleOverlap(T.Caller, at);
        return;
      }
      Think(persona, f);
      outcome := Carry(at);
    }

    /** What the floor says completes the facts; the plan settled on is kept. */
    method Think(persona: Persona, f: Facts)
      requires Valid() && state.Awaiting()
      modifies this, clarify
      ensures Valid() && Contents() == Thought(clarify.cfg, policy.rules, old(Contents()), persona, f)
    {
      var expectation := turns.LastExpectation();
      var informed := f.(expectation := expectation, turnCount := |turns.history|);
      assert informed == Informed(Contents(), f) && Assess(informed) == Assess(f);
      lastPlan := Decide(persona, informed);
    }

    /** Acts on the plan. */
    method Carry(at: Instants) returns (outcome: Outcome)
      modifies this, turns
      ensures (Contents(), outcome) == Carried(turns.cfg, old(Contents()), at)
    {
      var _ := turns.Release(T.Caller, T.Nothing, at.stamped, at.closed, at.reopened);
      var next := lastPlan.nextState;
      if next == Thinking || next == Idle {
        next := Speaking;
      }
      if next !in Edges(state) {
        return Failed(lastPlan);
      }
      state := next;
      if next == Speaking {
        var _, _ := turns.Acquire(T.Agent, false, at.acquired);
      }
      outcome := Applied(lastPlan);
    }

    /** The clarification is reserved, the conversation enters Thinking, and a plan is settled on. */
    method Decide(persona: Persona, f: Facts) returns (plan: Plan)
      requires Valid() && state.Awaiting()
      modifies this, clarify
      ensures Valid() && state == Thinking && lastPlan == old(lastPlan)
      ensures var x := Considered(clarify.cfg, old(clarify.Contents()), persona, f);
              && (clarify.Contents(), pending) == Remembered(x.budget, old(pending), x.request)
              && plan == Settled(policy.rules, Case(persona, f, x.request, x.allowed, x.budget.total), {}, MAX_REPLANS)
    {
      var request, allowed := clarify.Reserve(Assess(f), persona.clarificationBudget);
      var used := clarify.total;
      if request.kind == NoClarification {
        if pending.kind != NoClarification {
          clarify.Resolve(pending);
          pending := NO_REQUEST;
        }
      } else {
        pending := request;
      }
      assert Thinking in Edges(state);
      state := Thinking;
      plan := Settle(persona, f, request, allowed, used);
    }

    /** Plan first, then the veto, then plan again without what was vetoed. */
    method Settle(persona: Persona, f: Facts, request: Request, allowed: bool, used: int) returns (plan: Plan)
      ensures plan == Settled(policy.rules, Case(persona, f, request, allowed, used), {}, MAX_REPLANS)
    {
      var c := Case(persona, f, request, allowed, used);
      var denied: set<Action> := {};
      var attempt := 0;
      while attempt < MAX_REPLANS
        invariant 0 <= attempt < MAX_REPLANS
        invariant Settled(policy.rules, c, denied, MAX_REPLANS - attempt) == Settled(policy.rules, c, {}, MAX_REPLANS)
        decreases MAX_REPLANS - attempt
      {
        plan := Planned(c.Input(denied));
        var verdict := policy.Evaluate(c.Proposal(plan.action));
        if verdict.Allow? {
          return;
        }
        denied := denied + {plan.action};
        if attempt == MAX_REPLANS - 1 {
          return EXHAUSTED;
        }
        attempt := attempt + 1;
      }
    }

    method HandleOverlap(party: T.Party, at: Instants) returns (outcome: Outcome)
      modifies this, turns
      ensures (Contents(), outcome) == Heard(turns.cfg, old(Contents()), party, at)
    {
      var decision := turns.NoteOverlap(party, at.noted);
      match decision {
        case Backchannel =>
          turns.ClearOverlap();
          return Ignoring("backchannel", state);
        case Queued =>
          return Ignoring("floor_queued", state);
        case Denied =>
          return Ignoring("overlap_denied", state);
        case Granted =>
          outcome := BargeIn(at);
      }
    }

    /** A user interruption: the floor is the caller's whatever becomes of the state. */
    method BargeIn(at: Instants) returns (outcome: Outcome)
      modifies this, turns
      ensures var floor := T.Forced(old(turns.Contents()), T.Caller, T.ByUser, at.forced);
              (Contents(), outcome) == BargedIn(old(Contents()).(floor := floor))
    {
      var _ := turns.ForceYield(T.Caller, T.ByUser, at.forced);
      if Interrupted in Edges(state) {
        state := Interrupted;
      }
      if Listening !in Edges(state) {
        return Broken;
      }
      state := Listening;
      lastPlan := Simple(Ignore, "interrupted_user", Listening, 0.0);
      outcome := Overlapped(lastPlan);
    }

    method HandleSpeechComplete(at: Instants) returns (ok: bool)
      requires !state.Terminal()
      modifies this, turns
      ensures Contents() == SpokenOut(turns.cfg, old(Contents()), at)
      ensures ok <==> StateAfter(old(lastPlan)) in Edges(old(state))
    {
      var _ := turns.Release(T.Agent, lastPlan.expectation, at.stamped, at.closed, at.reopened);
      var next := StateFor(lastPlan.expectation);
      match lastPlan.action {
        case End => next := Ended;
        case Escalate => next := Escalated;
        case Transfer => next := Transferred;
        case _ =>
      }
      if next !in Edges(state) {
        return false;
      }
      state := next;
      var _, _ := turns.Acquire(T.Caller, false, at.acquired);
      ok := true;
    }
  }
}
