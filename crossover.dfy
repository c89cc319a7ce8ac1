/** The moving-average crossover agent: it reads the long and the short moving average from the
    observation and decides to buy, sell or hold. */
module Crossover {
  import opened Wrappers
  import opened Market
  import opened Agent
  import opened Utils
  import opened Env

  /** The agent's configuration: the two moving-average periods (which only choose the indicators
      that produce the signals), the quantity it trades and its stop-loss. */
  datatype AgentCrossover = AgentCrossover(smaLong: int, smaShort: int, qty: int, stopLoss: Option<real>)

  /** The observation does not hold exactly the two signals the decision unpacks. */
  datatype ActError = TooFewSignals | TooManySignals

  /** A response with an action that needs no lookup. */
  function Respond(action: Action, qty: real, stopLoss: Option<real>): (r: AgentResponse)
    ensures r == AgentResponse(action, qty, stopLoss)
    ensures NewAgentResponse(Given(action), qty, stopLoss) == Success(r)
  {
    NewAgentResponse(Given(action), qty, stopLoss).value
  }

  /** The decision on an observation whose signals are [long, short]. It holds while either average is
      missing; it buys when the short average is below the long one unless already long, sells when it
      is above unless already short, and holds otherwise. Buy and sell carry the agent's quantity and
      stop-loss, hold the defaults. The current index plays no part. */
  function Act(agent: AgentCrossover, currIndex: Key, obs: Observation): (r: Result<AgentResponse, ActError>)
    ensures var signals := obs.signals.GetOr([]);
      && (|signals| < 2 <==> r == Failure(TooFewSignals))
      && (|signals| > 2 <==> r == Failure(TooManySignals))
      && (r.Success? <==> |signals| == 2)
    ensures r.Success? ==> r.value.action != CLOSE
    ensures r.Success? ==>
      var longSma := obs.signals.value[0];
      var shortSma := obs.signals.value[1];
      && (r.value.action == BUY <==>
            longSma.Num? && shortSma.Num? && shortSma.value < longSma.value
            && obs.position != Some(DirectionValue(Long)))
      && (r.value.action == SELL <==>
            longSma.Num? && shortSma.Num? && shortSma.value > longSma.value
            && obs.position != Some(DirectionValue(Short)))
    ensures r.Success? && r.value.action != HOLD ==>
      r.value.qty == agent.qty as real && r.value.stopLoss == agent.stopLoss
    ensures r.Success? && r.value.action == HOLD ==>
      r.value.qty == 1.0 && r.value.stopLoss.None?
  {
    var signals := obs.signals.GetOr([]);
    if |signals| < 2 then Failure(TooFewSignals)
    else if |signals| > 2 then Failure(TooManySignals)
    else
      var longSma := signals[0];
      var shortSma := signals[1];
      if longSma.NaN? || shortSma.NaN? then Success(Respond(HOLD, 1.0, None))
      else if shortSma.value < longSma.value && obs.position != Some(DirectionValue(Long)) then
        Success(Respond(BUY, agent.qty as real, agent.stopLoss))
      else if shortSma.value > longSma.value && obs.position != Some(DirectionValue(Short)) then
        Success(Respond(SELL, agent.qty as real, agent.stopLoss))
      else
        Success(Respond(HOLD, 1.0, None))
  }

  /** Swapping the two averages swaps buying and selling when flat: the rule treats the two
      crossing directions alike. */
  lemma CrossingSymmetry(agent: AgentCrossover, key: Key, a: Sample, b: Sample, pos: Option<int>)
    requires pos != Some(DirectionValue(Long)) && pos != Some(DirectionValue(Short))
    ensures var r := Act(agent, key, Observation(pos, Some([a, b])));
      var q := Act(agent, key, Observation(pos, Some([b, a])));
      && r.Success? && q.Success?
      && (r.value.action == BUY <==> q.value.action == SELL)
      && (r.value.action == HOLD <==> q.value.action == HOLD)
  {
    var r := Act(agent, key, Observation(pos, Some([a, b])));
    var q := Act(agent, key, Observation(pos, Some([b, a])));
    assert Observation(pos, Some([a, b])).signals.value == [a, b];
    assert Observation(pos, Some([b, a])).signals.value == [b, a];
    assert r.Success? && q.Success?;
  }

  /** Fed an observation that reports the engine's own position, the agent never asks to enter the
      side already held and never asks to close, so a step it drives resolves to CLOSE exactly when
      the stop-loss fires. */
  lemma CrossoverClosesOnlyOnStop(pip: real, window: Option<int>, feed: Table<Bar>, s: EngineState,
                                  agent: AgentCrossover, key: Key, obs: Observation)
    requires pip > 0.0 && WellFormed(feed) && s.cursor < |feed.index| && Consistent(s.ledger)
    requires obs.position == Some(if s.ledger.position.None? then DirectionValue(Out)
                                  else DirectionValue(s.ledger.position.value.direction))
    requires Act(agent, key, obs).Success?
    ensures var resp := Act(agent, key, obs).value;
      var out := StepSpec(pip, window, feed, s, resp);
      && (resp.action == BUY ==> !IsLong(s.ledger))
      && (resp.action == SELL ==> !IsShort(s.ledger))
      && (out.action == CLOSE <==> out.stop)
  {
  }
}
