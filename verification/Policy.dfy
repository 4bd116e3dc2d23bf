/** What may be done: rules in class order, the first denial deciding. */
module Policy {
  import opened Frames
  import opened Dialogue
  import Names

  datatype PolicyInput = PolicyInput(
    action: Action,
    state: State,
    persona: Persona,
    intent: Intent,
    hasIntent: bool,
    turnCount: int,
    elapsed: int,
    clarificationsUsed: int,
    emergencyRaised: bool,
    interruptionCount: int)

  datatype RuleClass = Safety | PersonaBound | Boundary | Business
  {
    function Rank(): nat
    {
      match this
      case Safety => 0
      case PersonaBound => 1
      case Boundary => 2
      case Business => 3
    }
  }

  /** eval gives the reason for a denial, or None. */
  datatype Rule = Rule(name: string, cls: RuleClass, priority: int, eval: PolicyInput -> Option<string>)

  datatype Verdict = Allow | Deny(rule: string, cls: RuleClass, reason: string)

  function RequiredCapability(a: Action): Option<Capability>
  {
    match a
    case Clarify => Some(AskClarification)
    case Confirm => Some(AskClarification)
    case Ask => Some(AskClarification)
    case Transfer => Some(TransferCall)
    case Escalate => Some(EscalateCall)
    case End => Some(EndCall)
    case Respond => Some(AnswerQuestion)
    case _ => None
  }

  // ---- The platform's own rules ----

  const STORM: int := 6

  function EmergencyOnlyEscalates(x: PolicyInput): Option<string>
  {
    if x.emergencyRaised && !(x.action.Escalate? || x.action.End? || x.action.Ignore?) then Some("emergency_active")
    else None
  }

  function NoActionAfterTerminal(x: PolicyInput): Option<string>
  {
    if x.state.Terminal() then Some("conversation_terminal") else None
  }

  function NeverDenies(x: PolicyInput): Option<string>
  {
    None
  }

  function CapabilityRequired(x: PolicyInput): Option<string>
  {
    var required := RequiredCapability(x.action);
    if required.Some? && !x.persona.Allows(required.value) then Some("capability_" + required.value.Name())
    else None
  }

  function UncertaintyEscalates(x: PolicyInput): Option<string>
  {
    if x.persona.escalateOnUncertainty && x.action.Asks() then Some("persona_escalates_on_uncertainty") else None
  }

  function ClarificationBudget(x: PolicyInput): Option<string>
  {
    if x.action.Asks() && x.clarificationsUsed >= x.persona.clarificationBudget then
      Some("clarification_budget_exhausted")
    else None
  }

  predicate Leaves(a: Action) { a.End? || a.Escalate? || a.Transfer? }

  predicate TurnsSpent(p: Persona, turnCount: int) { 0 < p.maxTurns <= turnCount }

  predicate TimeSpent(p: Persona, elapsed: int) { 0 < p.maxDuration <= elapsed }

  function MaxTurns(x: PolicyInput): Option<string>
  {
    if TurnsSpent(x.persona, x.turnCount) && !Leaves(x.action) then Some("max_turns_reached") else None
  }

  function MaxDuration(x: PolicyInput): Option<string>
  {
    if TimeSpent(x.persona, x.elapsed) && !Leaves(x.action) then Some("max_duration_reached") else None
  }

  function InterruptionStorm(x: PolicyInput): Option<string>
  {
    if x.interruptionCount >= STORM && !Leaves(x.action) && !x.action.Ignore? then Some("interruption_storm") else None
  }

  function BuiltinRules(): seq<Rule>
  {
    [
      Rule("safety.emergency_only_escalates", Safety, 0, EmergencyOnlyEscalates),
      Rule("safety.no_action_after_terminal", Safety, 1, NoActionAfterTerminal),
      Rule("safety.escalation_always_available", Safety, 2, NeverDenies),
      Rule("persona.capability_required", PersonaBound, 0, CapabilityRequired),
      Rule("persona.uncertainty_escalates", PersonaBound, 1, UncertaintyEscalates),
      Rule("boundary.clarification_budget", Boundary, 0, ClarificationBudget),
      Rule("boundary.max_turns", Boundary, 1, MaxTurns),
      Rule("boundary.max_duration", Boundary, 2, MaxDuration),
      Rule("boundary.interruption_storm", Boundary, 3, InterruptionStorm)
    ]
  }

  /** What every built-in rule lets through. */
  predicate Permitted(x: PolicyInput)
  {
    && EmergencyOnlyEscalates(x).None? && NoActionAfterTerminal(x).None?
    && CapabilityRequired(x).None? && UncertaintyEscalates(x).None? && ClarificationBudget(x).None?
    && MaxTurns(x).None? && MaxDuration(x).None? && InterruptionStorm(x).None?
  }

  // ---- Order of evaluation ----

  /** r is evaluated strictly before s. */
  predicate Precedes(r: Rule, s: Rule)
  {
    if r.cls != s.cls then r.cls.Rank() < s.cls.Rank()
    else if r.priority != s.priority then r.priority < s.priority
    else Names.Before(r.name, s.name)
  }

  ghost predicate Sorted(rules: seq<Rule>)
  {
    forall i, j :: 0 <= i < j < |rules| ==> !Precedes(rules[j], rules[i])
  }

  lemma PrecedesTransitively(r: Rule, s: Rule, t: Rule)
    requires Precedes(r, s) && !Precedes(t, s)
    ensures Precedes(r, t)
  {
    Names.Total(s.name, t.name);
    if Names.Before(r.name, s.name) && Names.Before(s.name, t.name) {
      Names.Transitive(r.name, s.name, t.name);
    }
  }

  lemma PrecedesIsAsymmetric(r: Rule, s: Rule)
    requires Precedes(r, s)
    ensures !Precedes(s, r)
  {
    if Names.Before(r.name, s.name) && Names.Before(s.name, r.name) {
      Names.Transitive(r.name, s.name, r.name);
    }
    Names.Irreflexive(r.name);
  }

  /** Of two rules in order the first has the more binding class, then the lower priority, then the lesser name. */
  lemma OrderOfRules(rules: seq<Rule>, i: nat, j: nat)
    requires Sorted(rules) && i < j < |rules|
    ensures var r, s := rules[i], rules[j];
            && (s.cls == Safety ==> r.cls == Safety)
            && (s.cls == PersonaBound ==> r.cls in {Safety, PersonaBound})
            && (s.cls == Boundary ==> r.cls != Business)
            && (r.cls == s.cls ==> r.priority <= s.priority)
            && (r.cls == s.cls && r.priority == s.priority ==> r.name == s.name || Names.Before(r.name, s.name))
  {
    assert !Precedes(rules[j], rules[i]);
    Names.Total(rules[i].name, rules[j].name);
  }

  function Evaluated(rules: seq<Rule>, x: PolicyInput): Verdict
  {
    if rules == [] then Allow
    else if rules[0].eval(x).Some? then Deny(rules[0].name, rules[0].cls, rules[0].eval(x).value)
    else Evaluated(rules[1..], x)
  }

  predicate Denies(r: Rule, x: PolicyInput)
  {
    r.eval(x).Some?
  }

  /** Whether an action is allowed does not depend on the order of the rules. */
  lemma {:induction false} AllowedUnlessDenied(rules: seq<Rule>, x: PolicyInput)
    ensures Evaluated(rules, x).Allow? <==> forall i :: 0 <= i < |rules| ==> !Denies(rules[i], x)
  {
    if rules != [] {
      AllowedUnlessDenied(rules[1..], x);
      if Evaluated(rules, x).Allow? {
        assert forall i :: 0 < i < |rules| ==> rules[i] == rules[1..][i - 1];
      } else if !Denies(rules[0], x) {
        var i :| 0 <= i < |rules[1..]| && Denies(rules[1..][i], x);
        assert Denies(rules[i + 1], x);
      }
    }
  }

  /** The deciding rule, before which no rule denies. */
  lemma {:induction false} FirstDenierDecides(rules: seq<Rule>, x: PolicyInput) returns (i: nat)
    requires Evaluated(rules, x).Deny?
    ensures i < |rules| && Denies(rules[i], x)
    ensures Evaluated(rules, x) == Deny(rules[i].name, rules[i].cls, rules[i].eval(x).value)
    ensures forall j :: 0 <= j < i ==> !Denies(rules[j], x)
  {
    if Denies(rules[0], x) {
      i := 0;
    } else {
      var rest := FirstDenierDecides(rules[1..], x);
      i := rest + 1;
      assert forall j :: 0 < j < i ==> rules[j] == rules[1..][j - 1];
    }
  }

  /** No later rule can reverse a denial: the verdict carries a class no less binding than any rule that denies. */
  lemma SafetyOverridesEverything(rules: seq<Rule>, x: PolicyInput, k: nat)
    requires Sorted(rules) && k < |rules| && Denies(rules[k], x)
    ensures Evaluated(rules, x).Deny? && Evaluated(rules, x).cls.Rank() <= rules[k].cls.Rank()
    ensures rules[k].cls == Safety ==> Evaluated(rules, x).cls == Safety
    ensures rules[k].cls == PersonaBound ==> Evaluated(rules, x).cls in {Safety, PersonaBound}
    ensures rules[k].cls == Boundary ==> Evaluated(rules, x).cls != Business
  {
    AllowedUnlessDenied(rules, x);
    var i := FirstDenierDecides(rules, x);
    if i < k {
      assert !Precedes(rules[k], rules[i]);
    }
  }

  /** The built-in rules are already in order and let through exactly what Permitted says. */
  lemma BuiltinRulesDecide(x: PolicyInput)
    ensures Evaluated(BuiltinRules(), x).Allow? <==> Permitted(x)
  {
    var rules := BuiltinRules();
    AllowedUnlessDenied(rules, x);
    assert Denies(rules[0], x) <==> EmergencyOnlyEscalates(x).Some?;
    assert Denies(rules[1], x) <==> NoActionAfterTerminal(x).Some?;
    assert !Denies(rules[2], x);
    assert Denies(rules[3], x) <==> CapabilityRequired(x).Some?;
    assert Denies(rules[4], x) <==> UncertaintyEscalates(x).Some?;
    assert Denies(rules[5], x) <==> ClarificationBudget(x).Some?;
    assert Denies(rules[6], x) <==> MaxTurns(x).Some?;
    assert Denies(rules[7], x) <==> MaxDuration(x).Some?;
    assert Denies(rules[8], x) <==> InterruptionStorm(x).Some?;
  }

  lemma BuiltinRulesAreSorted()
    ensures Sorted(BuiltinRules())
  {
  }

  /** The rules never let through what the built-in ones would not. */
  ghost predicate Narrows(rules: seq<Rule>)
  {
    forall x :: Evaluated(rules, x).Allow? ==> Permitted(x)
  }

  // ---- Registration ----

  function Inserted(rules: seq<Rule>, i: nat, r: Rule): seq<Rule>
    requires i <= |rules|
  {
    rules[..i] + [r] + rules[i..]
  }

  lemma InsertedIsSorted(rules: seq<Rule>, i: nat, r: Rule)
    requires Sorted(rules) && i <= |rules|
    requires forall j :: i <= j < |rules| ==> Precedes(r, rules[j])
    requires i > 0 ==> !Precedes(r, rules[i - 1])
    ensures Sorted(Inserted(rules, i, r)) && forall j :: 0 <= j < i ==> !Precedes(r, rules[j])
  {
    var after := Inserted(rules, i, r);
    forall j | 0 <= j < i ensures !Precedes(r, rules[j]) {
      if Precedes(r, rules[j]) && j < i - 1 {
        PrecedesTransitively(r, rules[j], rules[i - 1]);
      }
    }
    forall j | i <= j < |rules| ensures !Precedes(rules[j], r) {
      PrecedesIsAsymmetric(r, rules[j]);
    }
    forall j, k | 0 <= j < k < |after| ensures !Precedes(after[k], after[j]) {
    }
  }

  lemma InsertedCounts(rules: seq<Rule>, i: nat, r: Rule)
    requires i <= |rules|
    ensures multiset(Inserted(rules, i, r)) == multiset(rules) + multiset{r}
  {
    assert rules == rules[..i] + rules[i..];
  }

  /** Registering a rule can only take permissions away. */
  lemma AddingNarrows(rules: seq<Rule>, i: nat, r: Rule, x: PolicyInput)
    requires i <= |rules|
    ensures Evaluated(Inserted(rules, i, r), x).Allow? <==> Evaluated(rules, x).Allow? && !Denies(r, x)
  {
    var after := Inserted(rules, i, r);
    AllowedUnlessDenied(rules, x);
    AllowedUnlessDenied(after, x);
    assert after[i] == r;
    assert forall j :: 0 <= j < i ==> after[j] == rules[j];
    assert forall j :: i <= j < |rules| ==> after[j + 1] == rules[j];
  }

  /** r goes behind every rule it does not precede, equal ones included, and before every other. */
  ghost predicate Stable(rules: seq<Rule>, r: Rule, after: seq<Rule>)
  {
    exists i: nat ::
      && i <= |rules| && after == Inserted(rules, i, r)
      && (forall j :: 0 <= j < i ==> !Precedes(r, rules[j]))
      && forall j :: i <= j < |rules| ==> Precedes(r, rules[j])
  }

  class PolicyEngine {
    var rules: seq<Rule>

    ghost predicate Valid()
      reads this
    {
      Sorted(rules) && Narrows(rules)
    }

    constructor ()
      ensures Valid() && rules == BuiltinRules()
    {
      rules := BuiltinRules();
      new;
      BuiltinRulesAreSorted();
      forall x ensures Evaluated(rules, x).Allow? ==> Permitted(x) {
        BuiltinRulesDecide(x);
      }
    }

    /** Appends the rule and restores the order, leaving equal rules in order of registration. */
    method Add(r: Rule)
      requires Valid()
      modifies this
      ensures Valid()
      ensures Stable(old(rules), r, rules) && multiset(rules) == multiset(old(rules)) + multiset{r}
      ensures forall x :: Evaluated(rules, x).Allow? <==> Evaluated(old(rules), x).Allow? && !Denies(r, x)
    {
      var i := |rules|;
      while i > 0 && Precedes(r, rules[i - 1])
        invariant 0 <= i <= |rules|
        invariant forall j :: i <= j < |rules| ==> Precedes(r, rules[j])
      {
        i := i - 1;
      }
      InsertedIsSorted(rules, i, r);
      forall x ensures Evaluated(Inserted(rules, i, r), x).Allow? <==> Evaluated(rules, x).Allow? && !Denies(r, x) {
        AddingNarrows(rules, i, r, x);
      }
      InsertedCounts(rules, i, r);
      rules := rules[..i] + [r] + rules[i..];
      assert rules == Inserted(old(rules), i, r);
    }

    method Evaluate(x: PolicyInput) returns (v: Verdict)
      ensures v == Evaluated(rules, x)
    {
      for i := 0 to |rules|
        invariant Evaluated(rules, x) == Evaluated(rules[i..], x)
      {
        var reason := rules[i].eval(x);
        assert rules[i..][1..] == rules[i + 1..];
        if reason.Some? {
          return Deny(rules[i].name, rules[i].cls, reason.value);
        }
      }
      v := Allow;
    }
  }

  // ---- The built-in rules on their own terms ----

  /** The persona has the capability that the action takes, and is not forbidden it. */
  predicate Capable(p: Persona, a: Action)
  {
    && (a in {Clarify, Confirm, Ask} ==> AskClarification in p.capabilities && AskClarification !in p.forbidden)
    && (a == Transfer ==> TransferCall in p.capabilities && TransferCall !in p.forbidden)
    && (a == Escalate ==> EscalateCall in p.capabilities && EscalateCall !in p.forbidden)
    && (a == End ==> EndCall in p.capabilities && EndCall !in p.forbidden)
    && (a == Respond ==> AnswerQuestion in p.capabilities && AnswerQuestion !in p.forbidden)
  }

  /** A limit of the conversation is reached: turns and time count only where the persona limits them. */
  predicate OverTurns(x: PolicyInput) { x.persona.maxTurns > 0 && x.turnCount >= x.persona.maxTurns }

  predicate OverTime(x: PolicyInput) { x.persona.maxDuration > 0 && x.elapsed >= x.persona.maxDuration }

  predicate Stormy(x: PolicyInput) { x.interruptionCount >= 6 }

  /** What a persona that may not do it is said to lack. */
  function Lacking(a: Action): string
  {
    match a
    case Transfer => "capability_transfer"
    case Escalate => "capability_escalate"
    case End => "capability_end_call"
    case Respond => "capability_answer_question"
    case _ => "capability_ask_clarification"
  }

  /**
   An action is allowed exactly when an emergency does not forbid it, the conversation is not over,
   the persona is capable of it, a question is still open to it, and no limit leaves only the ways out.
   */
  lemma AllowedExactly(x: PolicyInput)
    ensures var question, exit := x.action in {Clarify, Confirm, Ask}, x.action in {End, Escalate, Transfer};
            Evaluated(BuiltinRules(), x).Allow? <==>
              && (x.emergencyRaised ==> x.action in {Escalate, End, Ignore})
              && x.state !in {Transferred, Escalated, Ended, Timeout}
              && Capable(x.persona, x.action)
              && (question ==> !x.persona.escalateOnUncertainty && x.clarificationsUsed < x.persona.clarificationBudget)
              && (OverTurns(x) || OverTime(x) ==> exit)
              && (Stormy(x) ==> exit || x.action == Ignore)
  {
    BuiltinRulesDecide(x);
  }

  /** The rule that denies is the first of these whose condition holds, and the reason is its own. */
  lemma DeniedByTheFirst(x: PolicyInput)
    requires Evaluated(BuiltinRules(), x).Deny?
    ensures var v := Evaluated(BuiltinRules(), x);
            var question, exit := x.action in {Clarify, Confirm, Ask}, x.action in {End, Escalate, Transfer};
            if x.emergencyRaised && x.action !in {Escalate, End, Ignore} then
              v == Deny("safety.emergency_only_escalates", Safety, "emergency_active")
            else if x.state in {Transferred, Escalated, Ended, Timeout} then
              v == Deny("safety.no_action_after_terminal", Safety, "conversation_terminal")
            else if !Capable(x.persona, x.action) then
              v == Deny("persona.capability_required", PersonaBound, Lacking(x.action))
            else if question && x.persona.escalateOnUncertainty then
              v == Deny("persona.uncertainty_escalates", PersonaBound, "persona_escalates_on_uncertainty")
            else if question && x.clarificationsUsed >= x.persona.clarificationBudget then
              v == Deny("boundary.clarification_budget", Boundary, "clarification_budget_exhausted")
            else if OverTurns(x) && !exit then v == Deny("boundary.max_turns", Boundary, "max_turns_reached")
            else if OverTime(x) && !exit then v == Deny("boundary.max_duration", Boundary, "max_duration_reached")
            else v == Deny("boundary.interruption_storm", Boundary, "interruption_storm")
  {
    var i := FirstDenierDecides(BuiltinRules(), x);
    EachBuiltinRule(x);
    LackingExactly(x);
    assert BuiltinRules()[3].eval(x) == CapabilityRequired(x);
  }

  lemma LackingExactly(x: PolicyInput)
    ensures CapabilityRequired(x) == if Capable(x.persona, x.action) then None else Some(Lacking(x.action))
  {
    assert "capability_" + "ask_clarification" == "capability_ask_clarification";
    assert "capability_" + "transfer" == "capability_transfer";
    assert "capability_" + "escalate" == "capability_escalate";
    assert "capability_" + "end_call" == "capability_end_call";
    assert "capability_" + "answer_question" == "capability_answer_question";
  }

  /** Which of the nine denies what. */
  lemma EachBuiltinRule(x: PolicyInput)
    ensures var rules, exit := BuiltinRules(), x.action in {End, Escalate, Transfer};
            && |rules| == 9
            && (Denies(rules[0], x) <==> x.emergencyRaised && x.action !in {Escalate, End, Ignore})
            && (Denies(rules[1], x) <==> x.state in {Transferred, Escalated, Ended, Timeout})
            && !Denies(rules[2], x)
            && (Denies(rules[3], x) <==> !Capable(x.persona, x.action))
            && (Denies(rules[4], x) <==> x.action in {Clarify, Confirm, Ask} && x.persona.escalateOnUncertainty)
            && (Denies(rules[5], x) <==>
                  x.action in {Clarify, Confirm, Ask} && x.clarificationsUsed >= x.persona.clarificationBudget)
            && (Denies(rules[6], x) <==> OverTurns(x) && !exit)
            && (Denies(rules[7], x) <==> OverTime(x) && !exit)
            && (Denies(rules[8], x) <==> Stormy(x) && !exit && x.action != Ignore)
  {
    var rules := BuiltinRules();
    assert rules[0].eval(x) == EmergencyOnlyEscalates(x);
    assert rules[1].eval(x) == NoActionAfterTerminal(x);
    assert rules[3].eval(x) == CapabilityRequired(x);
    assert rules[4].eval(x) == UncertaintyEscalates(x);
    assert rules[5].eval(x) == ClarificationBudget(x);
    assert rules[6].eval(x) == MaxTurns(x);
    assert rules[7].eval(x) == MaxDuration(x);
    assert rules[8].eval(x) == InterruptionStorm(x);
  }

  /** With the built-in rules alone, escalation is refused in two cases, not in none. */
  lemma EscalationIsRefusedExactly(x: PolicyInput)
    requires x.action == Escalate
    ensures Evaluated(BuiltinRules(), x).Deny? <==> x.state.Terminal() || !x.persona.Allows(EscalateCall)
  {
    BuiltinRulesDecide(x);
  }
}
