/** The shipped personas, and which may follow which. */
module Personas {
  import opened Dialogue

  datatype PersonaId = BusinessReceptionist | PersonalAssistant | FraudShield | EmergencyAssistant

  const SECOND: int := 1_000_000_000

  function Builtin(id: PersonaId): Persona
  {
    match id
    case BusinessReceptionist =>
      Persona({AnswerQuestion, AskClarification, TakeMessage, TransferCall, EscalateCall, DiscloseAvailability,
               CollectCallback, EndCall},
              {DiscloseIdentity}, 3, 40, 300 * SECOND, false)
    case PersonalAssistant =>
      Persona({AnswerQuestion, AskClarification, TakeMessage, EscalateCall, CollectCallback, EndCall},
              {DiscloseIdentity, DiscloseAvailability, TransferCall}, 2, 30, 240 * SECOND, false)
    case FraudShield =>
      Persona({VerifyCaller, AskClarification, EndCall, EscalateCall},
              {AnswerQuestion, TakeMessage, DiscloseIdentity, DiscloseAvailability, CollectCallback, TransferCall},
              4, 20, 180 * SECOND, false)
    case EmergencyAssistant =>
      Persona({EscalateCall, HandOverDialer, EndCall},
              {AnswerQuestion, AskClarification, TakeMessage, TransferCall, DiscloseIdentity, DiscloseAvailability,
               CollectCallback, VerifyCaller},
              0, 3, 30 * SECOND, true)
  }

  /** Anyone may become the emergency assistant, which stays; anyone else may become fraud shield, which stays too. */
  predicate SwitchAllowed(from: PersonaId, to: PersonaId)
  {
    if from == to then false
    else if to == EmergencyAssistant then true
    else if from == EmergencyAssistant then false
    else if to == FraudShield then true
    else from != FraudShield
  }
}
