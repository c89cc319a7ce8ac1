/** The engine's own test fixture, replayed on the step function: five hourly bars, an episode
    window of 5, the default pip of 0.0001, and a fresh engine on the first bar. */
module Scenarios {
  import opened Wrappers
  import opened Market
  import opened Agent
  import opened Utils
  import opened Env

  const FixturePip: real := 0.0001

  /** The five bars of the fixture, labelled 0 to 4, with the second bar's bid replaced. */
  function FixtureFeed(secondBid: real): (t: Table<Bar>)
    ensures WellFormed(t) && |t.index| == 5
  {
    Table([0, 1, 2, 3, 4],
          map[0 := Bar(1.1000, 1.1005), 1 := Bar(secondBid, 1.1015), 2 := Bar(1.1020, 1.1025),
              3 := Bar(1.1030, 1.1035), 4 := Bar(1.1040, 1.1045)])
  }

  /** The engine right after the feed is installed: flat, nothing accrued, on the first bar. */
  const Fresh: EngineState := EngineState(Ledger(None, None, 0.0, 0, 0, 0.0, 0.0), 0, 0)

  /** BUY one unit with a stop-loss of 0.001. */
  const BuyWithStop: AgentResponse := AgentResponse(BUY, 1.0, Some(0.001))

  /** The first step of a run on the fixture. */
  function FirstStep(secondBid: real, resp: AgentResponse): (out: StepOut)
    ensures out.state.cursor == 1 && !out.done
  {
    StepSpec(FixturePip, Some(5), FixtureFeed(secondBid), Fresh, resp)
  }

  /** BUY from flat opens a long at the first ask; SELL a short at the first bid; the episode goes on. */
  lemma EnterScenario()
    ensures var out := FirstStep(1.1010, BuyWithStop);
      IsLong(out.state.ledger) && out.state.ledger.position.value.entryPrice == Some(1.1005)
    ensures var out := FirstStep(1.1010, AgentResponse(SELL, 1.0, Some(0.001)));
      IsShort(out.state.ledger) && out.state.ledger.position.value.entryPrice == Some(1.1000)
  {
  }

  /** A CLOSE after the entry leaves the engine flat with one closed trade, and the episode goes on. */
  lemma CloseScenario()
    ensures var first := FirstStep(1.1010, BuyWithStop);
      var out := StepSpec(FixturePip, Some(5), FixtureFeed(1.1010), first.state, AgentResponse(CLOSE, 1.0, None));
      && out.state.ledger.position.None?
      && out.state.ledger.closedTransactions == 1
      && !out.done
  {
    var first := FirstStep(1.1010, BuyWithStop);
    assert first.state.ledger.position.value.qty == Some(1.0);
  }

  /** When the second bid drops to 1.0990 the long is 15 pips under water, past its 10-pip stop: the
      repeated BUY is overridden, the step resolves to CLOSE with the stop flag, and ends flat. */
  lemma StopLossScenario()
    ensures var first := FirstStep(1.0990, BuyWithStop);
      var out := StepSpec(FixturePip, Some(5), FixtureFeed(1.0990), first.state, BuyWithStop);
      && out.state.ledger.position.None?
      && out.action == CLOSE && out.stop
      && out.state.ledger.totalReward == -15.0
  {
    var first := FirstStep(1.0990, BuyWithStop);
    assert first.state.ledger.position.value.qty == Some(1.0);
    var marked := RewardUpdate(first.state.ledger, Bar(1.0990, 1.1015), FixturePip).0;
    assert marked.transactionReward == -15.0;
  }

  /** When the second bid rises to 1.1010 a repeated BUY keeps the long, now 5 pips in profit; a
      CLOSE on the third bar then leaves the engine flat. */
  lemma StepRewardScenario()
    ensures var first := FirstStep(1.1010, BuyWithStop);
      var out := StepSpec(FixturePip, Some(5), FixtureFeed(1.1010), first.state, BuyWithStop);
      var closed := StepSpec(FixturePip, Some(5), FixtureFeed(1.1010), out.state, AgentResponse(CLOSE, 1.0, None));
      && IsLong(out.state.ledger)
      && out.state.ledger.transactionReward == 5.0
      && !out.done
      && closed.state.ledger.position.None?
  {
    var first := FirstStep(1.1010, BuyWithStop);
    assert first.state.ledger.position.value.qty == Some(1.0);
    var marked := RewardUpdate(first.state.ledger, Bar(1.1010, 1.1015), FixturePip).0;
    assert marked.transactionReward == 5.0;
  }

  /** A two-row feed with a pip of 1, for the last-price example below. */
  function TwoBars(): (t: Table<Bar>)
    ensures WellFormed(t) && |t.index| == 2
  {
    Table([0, 1], map[0 := Bar(1.0, 1.1), 1 := Bar(2.0, 2.1)])
  }

  /** The last price survives a close, so a new trade's first step reward is measured from the
      price last marked for an earlier trade: flat with a last price of 0.5, BUY opens at the ask
      of 1.1, and when the bid reaches 2.0 the step reward is 1.5 while the trade is up only 0.9. */
  lemma StepRewardSpansTrades()
    ensures var l := Ledger(None, Some(0.5), 0.0, 0, 0, 0.0, 0.0);
      var first := StepSpec(1.0, None, TwoBars(), EngineState(l, 0, 0), AgentResponse(BUY, 1.0, None));
      var second := StepSpec(1.0, None, TwoBars(), first.state, AgentResponse(HOLD, 1.0, None));
      && first.state.ledger.position.value.entryPrice == Some(1.1)
      && second.state.ledger.stepReward == 1.5
      && second.state.ledger.transactionReward == 0.9
  {
    var l := Ledger(None, Some(0.5), 0.0, 0, 0, 0.0, 0.0);
    var first := StepSpec(1.0, None, TwoBars(), EngineState(l, 0, 0), AgentResponse(BUY, 1.0, None));
    assert first.state.ledger.position.value.qty == Some(1.0);
    assert first.state.ledger.lastPrice == Some(0.5);
  }
}
