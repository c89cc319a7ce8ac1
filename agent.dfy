/** The response an agent returns to the environment. */
module Agent {
  import opened Wrappers
  import opened Market

  /** The action argument: either an Action or a raw integer to be looked up. */
  datatype ActionArg = Given(action: Action) | Code(code: int)

  /** An agent's decision: the action, the requested quantity (signed, as given) and an optional stop-loss. */
  datatype AgentResponse = AgentResponse(action: Action, qty: real, stopLoss: Option<real>)

  /** `Action(code)` failed: the integer is not one of the enumeration's values. */
  datatype AgentError = UnknownAction(code: int)

  /** The AgentResponse constructor: keeps an Action as it is, looks an integer up, stores qty and stop-loss. */
  function NewAgentResponse(action: ActionArg, qty: real, stopLoss: Option<real>): (r: Result<AgentResponse, AgentError>)
    ensures action.Given? ==> r.Success? && r.value.action == action.action
    ensures action.Code? ==> (r.Success? <==> 0 <= action.code <= 3)
    ensures action.Code? && r.Success? ==> ActionValue(r.value.action) == action.code
    ensures action.Code? && r.Failure? ==> r.error == UnknownAction(action.code)
    ensures r.Success? ==> r.value.qty == qty && r.value.stopLoss == stopLoss
  {
    match action
    case Given(a) => Success(AgentResponse(a, qty, stopLoss))
    case Code(c) =>
      match ActionOf(c)
      case Some(a) => Success(AgentResponse(a, qty, stopLoss))
      case None => Failure(UnknownAction(c))
  }

  /** The constructor called with the action alone: quantity 1 and no stop-loss. */
  function DefaultResponse(action: ActionArg): (r: Result<AgentResponse, AgentError>)
    ensures r.Success? <==> action.Given? || 0 <= action.code <= 3
    ensures r.Success? ==> r.value.qty == 1.0 && r.value.stopLoss.None?
  {
    NewAgentResponse(action, 1.0, None)
  }
}
