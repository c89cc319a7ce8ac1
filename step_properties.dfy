/** Properties of a single step, stated in terms of the prices of the row under the cursor. */
module StepProperties {
  import opened Wrappers
  import opened Market
  import opened Agent
  import opened Utils
  import opened Env

  /** The unrealized reward of an opened position marked to a bar: a long is valued at the bid,
      a short at the ask, in pips times quantity. */
  function MarkToMarket(p: Position, bar: Bar, pip: real): real
    requires Opened(p) && pip > 0.0
  {
    if p.direction == Long then (bar.bid - p.entryPrice.value) * (p.qty.value / pip)
    else (p.entryPrice.value - bar.ask) * (p.qty.value / pip)
  }

  /** The stop-loss condition of an opened position on a bar. */
  predicate StopCondition(p: Position, bar: Bar, pip: real)
    requires Opened(p) && pip > 0.0
  {
    Truthy(p.stopLoss) && MarkToMarket(p, bar, pip) < -p.stopLoss.value / pip
  }

  /** The reward a step realizes: the marked reward of the open position when the resolved action
      is CLOSE or opposes that position; nothing otherwise. */
  function Realized(pip: real, feed: Table<Bar>, s: EngineState, resp: AgentResponse): Option<real>
    requires pip > 0.0 && WellFormed(feed) && s.cursor < |feed.index| && Consistent(s.ledger)
  {
    var marked := RewardUpdate(s.ledger, BarAt(feed, s.cursor), pip).0;
    var action := if StopHit(marked, pip) then CLOSE else resp.action;
    if marked.position.Some? && (action == CLOSE || (action == BUY && IsShort(marked)) || (action == SELL && IsLong(marked)))
    then Some(marked.transactionReward)
    else None
  }

  /** Marking to market values an open position exactly as MarkToMarket says. */
  lemma MarkedReward(l: Ledger, bar: Bar, pip: real)
    requires pip > 0.0 && Consistent(l) && l.position.Some?
    ensures RewardUpdate(l, bar, pip).0.transactionReward == MarkToMarket(l.position.value, bar, pip)
  {
  }

  /** Multiplying by a positive factor keeps a strict order. */
  lemma ScaleOrder(a: real, b: real, c: real)
    requires c > 0.0
    ensures a < b <==> a * c < b * c
  {
    if a < b {
      assert (b - a) * c > 0.0;
    } else {
      assert (a - b) * c >= 0.0;
    }
  }

  /** The stop-loss in price terms, for a position of positive size: a long is stopped exactly when
      the bid is below the entry price by more than stop-loss/qty, a short exactly when the ask is
      above it by more than stop-loss/qty. The pip size plays no part. */
  lemma StopPrice(p: Position, bar: Bar, pip: real)
    requires Opened(p) && pip > 0.0 && p.qty.value > 0.0 && Truthy(p.stopLoss)
    ensures p.direction == Long ==>
      (StopCondition(p, bar, pip) <==> bar.bid < p.entryPrice.value - p.stopLoss.value / p.qty.value)
    ensures p.direction == Short ==>
      (StopCondition(p, bar, pip) <==> bar.ask > p.entryPrice.value + p.stopLoss.value / p.qty.value)
  {
    var e, q, sl := p.entryPrice.value, p.qty.value, p.stopLoss.value;
    var move := if p.direction == Long then bar.bid - e else e - bar.ask;
    assert MarkToMarket(p, bar, pip) == move * (q / pip);
    // scale the condition by pip, then divide it by q
    ScaleOrder(move * (q / pip), -sl / pip, pip);
    assert move * (q / pip) * pip == move * q;
    assert (-sl / pip) * pip == -sl;
    ScaleOrder(move, -sl / q, q);
    assert (-sl / q) * q == -sl;
  }

  /** A step changes the realized bookkeeping only through the reward it realizes: the total grows
      by it, one more trade is closed, and a win is counted when it is positive. Without a
      realization total, closed count and wins stay as they were. */
  lemma StepRealizes(pip: real, window: Option<int>, feed: Table<Bar>, s: EngineState, resp: AgentResponse)
    requires pip > 0.0 && WellFormed(feed) && s.cursor < |feed.index| && Consistent(s.ledger)
    ensures var next := StepSpec(pip, window, feed, s, resp).state.ledger;
      match Realized(pip, feed, s, resp)
      case Some(v) =>
        && next.totalReward == s.ledger.totalReward + v
        && next.closedTransactions == s.ledger.closedTransactions + 1
        && next.wins == (if v > 0.0 then s.ledger.wins + 1 else s.ledger.wins)
      case None =>
        && next.totalReward == s.ledger.totalReward
        && next.closedTransactions == s.ledger.closedTransactions
        && next.wins == s.ledger.wins
  {
    var bar := BarAt(feed, s.cursor);
    var marked := RewardUpdate(s.ledger, bar, pip).0;
    var resolved := Resolve(marked, resp, bar, pip);
    assert StepSpec(pip, window, feed, s, resp).state.ledger == resolved.0;
    match resolved.1
    case HOLD =>
    case CLOSE =>
    case BUY =>
      if !IsLong(marked) {
        assert resolved.0 == AfterEntry(AfterClose(marked), resp, bar.ask);
      }
    case SELL =>
      if !IsShort(marked) {
        assert resolved.0 == AfterEntry(AfterClose(marked), resp, bar.bid);
      }
  }

  /** From flat, BUY opens a long at the ask and SELL a short at the bid, sized by the absolute
      requested quantity and carrying the requested stop-loss. */
  lemma OpenFromFlat(pip: real, window: Option<int>, feed: Table<Bar>, s: EngineState, resp: AgentResponse)
    requires pip > 0.0 && WellFormed(feed) && s.cursor < |feed.index| && Consistent(s.ledger)
    requires s.ledger.position.None? && (resp.action == BUY || resp.action == SELL)
    ensures var bar := BarAt(feed, s.cursor);
      var out := StepSpec(pip, window, feed, s, resp);
      && out.action == resp.action && !out.stop
      && out.state.ledger.position == Some(Position(
           None,
           Some(if resp.action == BUY then bar.ask else bar.bid),
           Some(Abs(resp.qty)),
           if resp.action == BUY then Long else Short,
           resp.stopLoss,
           None))
  {
  }

  /** A decision in the direction already held keeps the position, entry price and quantity
      included, unless the stop-loss fires. */
  lemma SameDirectionHolds(pip: real, window: Option<int>, feed: Table<Bar>, s: EngineState, resp: AgentResponse)
    requires pip > 0.0 && WellFormed(feed) && s.cursor < |feed.index| && Consistent(s.ledger)
    requires (IsLong(s.ledger) && resp.action == BUY) || (IsShort(s.ledger) && resp.action == SELL)
    requires !StopCondition(s.ledger.position.value, BarAt(feed, s.cursor), pip)
    ensures var out := StepSpec(pip, window, feed, s, resp);
      && out.action == resp.action && !out.stop
      && out.state.ledger.position == s.ledger.position
      && out.state.ledger.closedTransactions == s.ledger.closedTransactions
  {
    MarkedReward(s.ledger, BarAt(feed, s.cursor), pip);
  }

  /** The stop-loss fires exactly when its condition holds on the row, and then, whatever was
      requested, the step resolves to CLOSE, realizes the marked reward and ends flat. */
  lemma StopLossForcesClose(pip: real, window: Option<int>, feed: Table<Bar>, s: EngineState, resp: AgentResponse)
    requires pip > 0.0 && WellFormed(feed) && s.cursor < |feed.index| && Consistent(s.ledger)
    requires s.ledger.position.Some?
    ensures var bar := BarAt(feed, s.cursor);
      var p := s.ledger.position.value;
      var out := StepSpec(pip, window, feed, s, resp);
      && (out.stop <==> StopCondition(p, bar, pip))
      && (out.stop ==>
            && out.action == CLOSE
            && out.state.ledger.position.None?
            && out.state.ledger.closedTransactions == s.ledger.closedTransactions + 1
            && out.state.ledger.totalReward == s.ledger.totalReward + MarkToMarket(p, bar, pip))
  {
    MarkedReward(s.ledger, BarAt(feed, s.cursor), pip);
  }

  /** An opposite decision realizes the open trade and opens the other way in the same step:
      SELL while long closes and goes short at the bid, BUY while short closes and goes long at the ask. */
  lemma OppositeDirectionReverses(pip: real, window: Option<int>, feed: Table<Bar>, s: EngineState, resp: AgentResponse)
    requires pip > 0.0 && WellFormed(feed) && s.cursor < |feed.index| && Consistent(s.ledger)
    requires (IsLong(s.ledger) && resp.action == SELL) || (IsShort(s.ledger) && resp.action == BUY)
    requires !StopCondition(s.ledger.position.value, BarAt(feed, s.cursor), pip)
    ensures var bar := BarAt(feed, s.cursor);
      var p := s.ledger.position.value;
      var out := StepSpec(pip, window, feed, s, resp);
      && out.action == resp.action && !out.stop
      && out.state.ledger.closedTransactions == s.ledger.closedTransactions + 1
      && out.state.ledger.totalReward == s.ledger.totalReward + MarkToMarket(p, bar, pip)
      && out.state.ledger.transactionReward == 0.0
      && out.state.ledger.position == Some(Position(
           None,
           Some(if resp.action == BUY then bar.ask else bar.bid),
           Some(Abs(resp.qty)),
           if resp.action == BUY then Long else Short,
           resp.stopLoss,
           None))
  {
    MarkedReward(s.ledger, BarAt(feed, s.cursor), pip);
  }
}
