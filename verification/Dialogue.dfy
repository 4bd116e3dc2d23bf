/** The vocabulary of a conversation: states, actions, personas, intents and plans. */
module Dialogue {
  import TurnManager

  type Expectation = TurnManager.Expectation

  datatype State =
    | Idle | Greeting | Listening | Thinking | Speaking | Clarification | Confirmation | Question | ToolExecution
    | Waiting | Interrupted | Transferred | Escalated | Ended | Timeout | Error | Recovery
  {
    predicate Terminal() { Transferred? || Escalated? || Ended? || Timeout? }

    predicate Awaiting() { Listening? || Clarification? || Confirmation? || Question? }
  }

  /** The declared transitions; nothing else is ever entered. */
  function Edges(from: State): set<State>
  {
    match from
    case Idle => {Greeting, Ended, Error}
    case Greeting => {Listening, Ended, Error, Escalated}
    case Listening => {Thinking, Interrupted, Waiting, Timeout, Ended, Error, Escalated, Transferred}
    case Thinking => {Speaking, ToolExecution, Waiting, Transferred, Escalated, Ended, Error, Interrupted}
    case Speaking =>
      {Listening, Clarification, Confirmation, Question, Waiting, Interrupted, Ended, Error, Transferred, Escalated}
    case Clarification => {Thinking, Interrupted, Timeout, Ended, Error, Escalated, Transferred}
    case Confirmation => {Thinking, Interrupted, Timeout, Ended, Error, Escalated, Transferred}
    case Question => {Thinking, Interrupted, Timeout, Ended, Error, Escalated, Transferred}
    case ToolExecution => {Thinking, Speaking, Error, Timeout, Ended, Escalated}
    case Waiting => {Listening, Thinking, Timeout, Ended, Error, Escalated, Transferred}
    case Interrupted => {Listening, Speaking, Thinking, Ended, Error, Escalated, Transferred}
    case Error => {Recovery, Ended, Escalated}
    case Recovery => {Listening, Greeting, Ended, Escalated, Error}
    case _ => {}
  }

  datatype Action = Respond | Clarify | Confirm | Ask | Transfer | Escalate | Ignore | Reject | Wait | End
  {
    /** The actions that put a question to the caller. */
    predicate Asks() { Clarify? || Confirm? || Ask? }
  }

  datatype Capability =
    | AnswerQuestion | AskClarification | TakeMessage | TransferCall | EscalateCall | DiscloseAvailability
    | DiscloseIdentity | CollectCallback | VerifyCaller | EndCall | HandOverDialer
  {
    function Name(): string
    {
      match this
      case AnswerQuestion => "answer_question"
      case AskClarification => "ask_clarification"
      case TakeMessage => "take_message"
      case TransferCall => "transfer"
      case EscalateCall => "escalate"
      case DiscloseAvailability => "disclose_availability"
      case DiscloseIdentity => "disclose_identity"
      case CollectCallback => "collect_callback"
      case VerifyCaller => "verify_caller"
      case EndCall => "end_call"
      case HandOverDialer => "hand_over_dialer"
    }
  }

  datatype Persona = Persona(
    capabilities: set<Capability>,
    forbidden: set<Capability>,
    clarificationBudget: int,
    maxTurns: int,
    maxDuration: int,
    escalateOnUncertainty: bool)
  {
    predicate Allows(c: Capability) { c !in forbidden && c in capabilities }
  }

  datatype Slot = Slot(name: string, filled: bool, required: bool)

  datatype Candidate = Candidate(name: string, confidence: real)

  datatype Intent = Intent(name: string, confidence: real, slots: seq<Slot>, alternatives: seq<Candidate>)

  const FALLBACK := "fallback"
  const DENY := "deny"

  datatype IntentVerdict = Accepted | Unclear | Rejected | Noise

  datatype ClarifyKind =
    | NoClarification | Ambiguous | LowConfidence | MissingSlot | Contradiction | NoiseRepeat | Incomplete
  {
    function Expectation(): TurnManager.Expectation
    {
      match this
      case Ambiguous => TurnManager.Disambiguation
      case LowConfidence => TurnManager.YesNo
      case Contradiction => TurnManager.YesNo
      case MissingSlot => TurnManager.SlotValue
      case _ => TurnManager.Nothing
    }
  }

  /** The round and finality are filled in when the request is granted. */
  datatype Request = Request(kind: ClarifyKind, slot: string, candidates: seq<string>, round: int, final: bool)

  const NO_REQUEST: Request := Request(NoClarification, "", [], 0, false)

  datatype Plan = Plan(
    action: Action,
    reason: string,
    clarification: Request,
    expectation: TurnManager.Expectation,
    nextState: State,
    intent: string,
    confidence: real,
    escalation: string)

  /** What one utterance brings to the decision, besides the conversation's own state. */
  datatype Facts = Facts(
    truncated: bool,
    contradicts: bool,
    intent: Intent,
    verdict: IntentVerdict,
    expectation: TurnManager.Expectation,
    emergencyRaised: bool,
    turnCount: int,
    elapsed: int,
    interruptionCount: int)
}
