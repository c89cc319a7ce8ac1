# mindthespread trading environment, modelled in Dafny

This project models the simulation core of mindthespread: the single-instrument trading
environment `TradingEnv`. The environment holds a bid/ask price feed aligned to a signal table, a
cursor into that feed and at most one open position. It also keeps the running bookkeeping: step
count, realized total reward, closed transactions, wins, the step and transaction rewards, and the
last marked price.

Each step does the following, in order:

1. Marks the open position to the current bar.
2. Applies the stop-loss override.
3. Applies the close/open transition rules.
4. Decides termination.
5. Fills the info record.
6. Advances the cursor.

`reset` and `set_ohlc_feed` re-initialise that state. Around the engine, the project also models:

- the value types it consumes: `Action`, `Direction`, `Position` and `AgentResponse`;
- the moving-average crossover policy `AgentCrossover.act`, which drives it in a backtest;
- the index alignment `align_indexes`.

Layout, one module per file:

- `wrappers.dfy` — `Option` and `Result`.
- `market.dfy` — module `Market`: the `Action` and `Direction` enumerations and the `Position` constructor.
- `agent.dfy` — module `Agent`: the `AgentResponse` constructor, including the integer-to-action lookup.
- `utils.dfy` — module `Utils`: keyed tables (an index of labels plus a map from label to row), `loc` selection and `align_indexes`.
- `trading_env.dfy` — module `Env`. It holds pure functions over a `Ledger` value that specify one step: `AfterClose`, `AfterEntry`, `RewardUpdate`, `Resolve` and `StepSpec`. It also holds the class `TradingEnv`, whose fields are updated in place by methods that mirror the source's methods. Every method is proved against those functions, and the class invariant `Valid` is kept throughout.
- `step_properties.dfy` — module `StepProperties`: the transition rules of one step, stated in terms of the prices of the current row.
- `episodes.dfy` — module `Episodes`: runs of many steps. It covers conservation of realized rewards, termination, episode length, and how the step rewards of a held position add up.
- `crossover.dfy` — module `Crossover`: the crossover decision rule and how it interacts with the engine.
- `scenarios.dfy` — module `Scenarios`: the repository's environment unit tests, replayed on the step function.

Modelling choices:

- **Timestamps and the cursor.** Timestamps are abstracted to integer labels. The cursor is a position in the feed index, and the index has no duplicate labels. With that, the source's label comparison in `is_done` is the same as comparing positions (`Env.TradingEnv.IsDone` proves this).
- **Prices.** Prices are `real`s. A feed row is a `Bar` holding the two columns the engine reads, bid close and ask close.
- **Missing values.** NaN signal values are the `Sample.NaN` constructor. The observation dictionary's optional keys are `Option` fields.
- **Assertions and lookups.** The source's `assert`s become preconditions: feed and signals non-empty, cursor inside the feed. So does the `KeyError` of `feed_data.loc[signals.index]`: every signal label must be a feed label.
- **Random start.** The random start of `reset` is a `start` argument. A precondition keeps it in the range `random.randint` draws from, and inside the feed.
- **Signal table.** `calc_signals` is abstract in the source. `SetOhlcFeed` therefore takes the signal table as an argument.
- **Pip size.** `pip > 0` is required by the constructor, since all reward formulas divide by it (see "Left out").

Behaviour of the code a reader might not expect, which the model keeps:

- **`last_price`.** It is written only while marking a position to market (trading_env.py:235, :239). Close, entry and reset never clear it, so the first step reward of a new position is measured from the price last marked for the previous one (`Scenarios.StepRewardSpansTrades`).
- **Stepping after termination.** Nothing guards it. The cursor and step count stay put, and the same row is processed again.
- **Return value of `step`.** It is a 5-tuple: observation, reward, terminated, truncated and info, where truncated repeats terminated (trading_env.py:165). The docstring at trading_env.py:132 names a 4-tuple.
- **Crossover direction.** The crossover agent buys when the short average is *below* the long one, and sells when it is above (crossover.py:67-71). The class comment at crossover.py:10-11 describes the opposite.
- **Number of signals.** Unpacking the signals at crossover.py:59 also fails when there are more than two of them. The error message at crossover.py:57 speaks only of fewer than two.
- **Unknown actions.** An integer action outside 0..3 fails in the `AgentResponse` constructor. A quantity of any sign is accepted and stored as given; its absolute value is taken only when a `Position` is built.

## Model

| member | source | states |
|---|---|---|
| Market.ActionValue | mindthespread/entities/market.py:4-8 | the codes are BUY=0, SELL=1, HOLD=2, CLOSE=3, each code belonging to exactly one action |
| Market.ActionOf | mindthespread/entities/market.py:4-8 | the enumeration lookup succeeds exactly for 0..3 and returns the action with that value |
| Market.DirectionValue | mindthespread/entities/market.py:11-14 | the observation codes are Short=0, Out=1, Long=2, each code belonging to exactly one direction |
| Market.Abs | mindthespread/entities/market.py:22 | the stored quantity is non-negative and equals the given quantity or its negation |
| Market.NewPosition | mindthespread/entities/market.py:17-25 | a quantity is present exactly when given, and is then its absolute value; every other argument is stored unchanged |
| Market.DefaultPosition | mindthespread/entities/market.py:18-19 | a default position has direction Out and every other field absent |
| Agent.NewAgentResponse | mindthespread/entities/agent.py:8-11 | an Action is kept; an integer succeeds exactly for 0..3 and yields the action with that value, otherwise fails naming the integer; qty and stop-loss are stored as given |
| Agent.DefaultResponse | mindthespread/entities/agent.py:8-9 | called with the action alone, the response has qty 1 and no stop-loss, and exists exactly for a valid action |
| Utils.Intersection | mindthespread/utils.py:21 | a label is kept exactly when it is in both indexes; a duplicate-free index stays duplicate-free |
| Utils.Loc | mindthespread/utils.py:22-23 | the selection has exactly the given labels, in the given order, each with its original row |
| Utils.AlignIndexes | mindthespread/utils.py:20-24 | both results share one index, made of exactly the labels present in both inputs, and every kept row equals the input's row |
| Utils.IntersectionWithSuperset | mindthespread/utils.py:21 | intersecting with an index that contains every label changes nothing, order included |
| Utils.AlignWithinFeed | mindthespread/env/trading_env.py:82 | when every signal label is in the feed, aligning signals with the feed keeps all signals and selects the feed at the signal index, which is what `set_ohlc_feed` computes |
| Env.AfterClose | mindthespread/env/trading_env.py:100-110 | closing an open position adds one closed trade, adds the transaction reward to the total, counts a win exactly when that reward is positive, and leaves the ledger flat with no unrealized reward; while flat nothing changes; the ledger invariant is kept |
| Env.AfterEntry | mindthespread/env/trading_env.py:112-122 | the new position is long for BUY and short otherwise, priced at the given entry price, sized by the absolute requested quantity, and carries the requested stop-loss; nothing else changes |
| Env.StepRewardOf | mindthespread/env/trading_env.py:241-257 | with both prices known the reward is the price move times the multiplier and a log-return is recorded; otherwise 0 and nothing is recorded; with a positive multiplier the reward is positive exactly when the price rose |
| Env.RewardUpdate | mindthespread/env/trading_env.py:220-239 | the step reward restarts at 0; a long is marked at the bid and a short at the ask, the transaction reward is the move from entry and the step reward the move from the last price, each times qty/pip; the marked price becomes the last price; flat, only the step reward changes; position and realized totals are untouched |
| Env.Resolve | mindthespread/env/trading_env.py:259-291 | the stop flag is set exactly when the stop-loss fires, and it turns the action into CLOSE; CLOSE realizes and ends flat; HOLD changes nothing; BUY keeps a long and otherwise closes and opens long at the ask; SELL keeps a short and otherwise closes and opens short at the bid |
| Env.BarAt | mindthespread/env/trading_env.py:140-143 | the bar read is the row stored under the cursor's label |
| Env.StepSpec | mindthespread/env/trading_env.py:124-165 | done holds exactly at the last row or once the step count reaches window - 1; only when not done do the cursor and step count advance by one; the cursor never leaves the feed; a stop ends the step flat on CLOSE |
| Env.WinRate | mindthespread/env/trading_env.py:320 | 0 before any trade closed, otherwise wins divided by closed trades, and within [0, 1] |
| Env.InfoOf | mindthespread/env/trading_env.py:303-323 | the info reports the resolved action and the stop flag, a total that adds the unrealized reward to the realized one, the win rate, and the direction and quantity, both absent exactly when flat |
| Env.Observe | mindthespread/env/trading_env.py:212-218 | the position code is Out's exactly when flat and otherwise the held direction's; the signal row of the current label replaces the previous one only when that label has signals |
| Env.ResponseOf | mindthespread/env/trading_env.py:134-135 | an integer argument becomes a default response and fails exactly when it is not an action value; a response is used as given |
| Env.TradingEnv.constructor | mindthespread/env/trading_env.py:20-65 | a new environment has no feed and no cursor, is flat with every counter and reward at zero, no last price, an empty observation and empty info |
| Env.TradingEnv.SetOhlcFeed | mindthespread/env/trading_env.py:67-90 | the feed becomes the given feed restricted to the signal index, the cursor goes to the first label and the observation is recomputed; position and bookkeeping are kept |
| Env.TradingEnv.CalcObs | mindthespread/env/trading_env.py:212-218 | the observation becomes Observe of the current position and the signal row under the cursor |
| Env.TradingEnv.ClosePosition | mindthespread/env/trading_env.py:100-110 | the bookkeeping becomes AfterClose of the old bookkeeping, and the invariant is kept |
| Env.TradingEnv.EnterPosition | mindthespread/env/trading_env.py:112-122 | the bookkeeping becomes AfterEntry of the old bookkeeping, and the invariant is kept |
| Env.TradingEnv.CalculateStepReward | mindthespread/env/trading_env.py:241-257 | returns StepRewardOf's reward and writes its log-return, when there is one, under the current label |
| Env.TradingEnv.UpdatePositionRewards | mindthespread/env/trading_env.py:220-239 | the bookkeeping becomes RewardUpdate of the old bookkeeping on this bar, and the log-return under the current label is the one it records (0 when none) |
| Env.TradingEnv.GetAction | mindthespread/env/trading_env.py:259-291 | the new bookkeeping, the action and the stop flag are exactly Resolve of the old bookkeeping |
| Env.TradingEnv.IsDone | mindthespread/env/trading_env.py:293-301 | comparing the current label with the last label is the same as the cursor being on the last row, so done matches EpisodeOver |
| Env.TradingEnv.UpdateInfo | mindthespread/env/trading_env.py:303-323 | the info becomes InfoOf for the current label and bookkeeping |
| Env.TradingEnv.Step | mindthespread/env/trading_env.py:124-165 | an unknown action integer fails and changes nothing; otherwise the state moves exactly as StepSpec says, the info describes the row just processed, the observation is recomputed at the new cursor, and the 5-tuple carries the step reward and the done flag twice |
| Env.TradingEnv.MarkAndResolve | mindthespread/env/trading_env.py:140-149 | marking and resolving in place leaves the bookkeeping at Resolve applied to RewardUpdate |
| Env.TradingEnv.StepResponse | mindthespread/env/trading_env.py:137-165 | a step on a response moves state, log-returns, info and observation exactly as StepSpec describes |
| Env.TradingEnv.Conclude | mindthespread/env/trading_env.py:151-165 | done is decided before the move; the cursor and step count advance by one exactly when not done; info and observation are refreshed |
| Env.TradingEnv.Reset | mindthespread/env/trading_env.py:167-194 | the cursor goes to the drawn start with a window, to the first label without one, and stays absent without a feed; the position is cleared and every counter and reward zeroed, but the last price is kept; the observation is recomputed and returned with the info |
| StepProperties.StopPrice | mindthespread/env/trading_env.py:273 | for a position of positive size the stop-loss fires on a long exactly when the bid is below entry - stopLoss/qty, and on a short exactly when the ask is above entry + stopLoss/qty, whatever the pip size |
| StepProperties.StepRealizes | mindthespread/env/trading_env.py:100-110 | in a step the realized total, the closed count and the wins change only through the reward realized by a CLOSE or an opposing decision |
| StepProperties.OpenFromFlat | mindthespread/env/trading_env.py:283-289 | from flat, BUY opens a long at the ask and SELL a short at the bid, with the absolute requested quantity and the requested stop-loss |
| StepProperties.SameDirectionHolds | mindthespread/env/trading_env.py:278-289 | BUY while long or SELL while short keeps the position, entry price and quantity included, unless the stop-loss fires |
| StepProperties.StopLossForcesClose | mindthespread/env/trading_env.py:271-281 | the stop fires exactly when the marked reward is below minus stop-loss/pip, and then the step is a CLOSE that realizes the marked reward and ends flat, whatever was requested |
| StepProperties.OppositeDirectionReverses | mindthespread/env/trading_env.py:278-289 | an opposite decision realizes the open trade and opens the other way at the matching price in the same step |
| Episodes.Run | mindthespread/env/trading_env.py:152-160 | over any run the cursor stays in the feed and never moves back, the step count grows with it, and the ledger invariant (wins never exceed closed trades) holds |
| Episodes.Conservation | mindthespread/env/trading_env.py:100-110 | over any run the realized total grows by exactly the sum of realized rewards, the closed count by the number of realizations, and the wins by the number of positive ones |
| Episodes.RunsToLastBar | mindthespread/env/trading_env.py:293-301 | without a window, a step is done exactly when it starts on the last row, and the cursor ends on the last row or after one move per step |
| Episodes.FullPass | mindthespread/env/trading_env.py:293-301 | without a window, from the first row, N steps over N rows give N - 1 steps that go on, then one that is done on the last row |
| Episodes.EpisodeLength | mindthespread/env/trading_env.py:300-301 | with window w and enough rows ahead, a step is done exactly when its starting step count has reached w - 1 |
| Episodes.WindowedEpisode | mindthespread/env/trading_env.py:180-183 | after a reset at any start the random draw can pick, an episode with window w lasts exactly w steps |
| Episodes.Accrue | mindthespread/env/trading_env.py:220-239 | marking bar after bar keeps the position and the ledger invariant, and leaves a last price once a position is held |
| Episodes.AccrueLong | mindthespread/env/trading_env.py:232-235 | while a long is held the step rewards sum to the bid's move since the last marked price times qty/pip, and the transaction reward is the last bid's move from entry |
| Episodes.AccrueShort | mindthespread/env/trading_env.py:236-239 | while a short is held the step rewards sum to the ask's fall since the last marked price times qty/pip, and the transaction reward is the last ask's fall from entry |
| Episodes.HoldRunAccrues | mindthespread/env/trading_env.py:146-149 | holding through rows where the stop-loss does not fire, the engine's ledger after the run is Accrue's over the bars it visits, and the step rewards it reports add up to Accrue's sum |
| Crossover.Act | mindthespread/agents/crossover.py:36-74 | fails exactly when the observation does not hold two signals (too few or too many); never returns CLOSE; BUY exactly when both averages are present, the short one is below the long one and the position is not long; SELL exactly when present, above and not short; BUY and SELL carry the agent's qty and stop-loss, HOLD the defaults |
| Crossover.CrossingSymmetry | mindthespread/agents/crossover.py:66-74 | when neither long nor short, swapping the two averages swaps BUY and SELL and keeps HOLD |
| Crossover.CrossoverClosesOnlyOnStop | mindthespread/agents/crossover.py:66-71 | on an observation reporting the engine's own position the agent never re-enters the side already held, so a step it drives resolves to CLOSE exactly when the stop-loss fires |
| Scenarios.EnterScenario | tests/env_tests.py:35-53 | on the fixture, BUY opens a long at 1.1005 and SELL a short at 1.1000 |
| Scenarios.CloseScenario | tests/env_tests.py:55-68 | on the fixture, CLOSE after an entry leaves the engine flat with one closed trade and the episode going on |
| Scenarios.StopLossScenario | tests/env_tests.py:70-82 | on the fixture with the second bid at 1.0990, the repeated BUY becomes a stopped CLOSE that realizes -15 and ends flat |
| Scenarios.StepRewardScenario | tests/env_tests.py:84-97 | on the fixture with the second bid at 1.1010, the long is kept with transaction reward 5 and the episode goes on; the CLOSE that follows leaves the engine flat |
| Scenarios.StepRewardSpansTrades | mindthespread/env/trading_env.py:234-235 | with a last price of 0.5 left by an earlier trade, a long entered at 1.1 and marked at a bid of 2.0 reports a step reward of 1.5 while its transaction reward is 0.9 |

## Left out

- Log-return values: `np.log` is transcendental. A log-return is kept as the symbolic pair `Ln(numerator, denominator)`, and the dense 0.0 entry written for every visited label is kept as `Zero`.
- Env.InfoOf: step, transaction and total rewards and the win rate are reported exactly. The source rounds them to two decimals, which is floating-point formatting.
- Env.InfoOf: the label is reported as the label, not as its string form, and the action and direction as values, not as their names.
- Env.TradingEnv.constructor: requires `pip > 0`. The source accepts any pip: a negative pip runs with every reward's sign flipped, and a pip of 0 fails only once a position is marked (trading_env.py:231) or its stop-loss tested (:273). The model does not cover either.
- Floating point in general: all prices and rewards are exact reals, so rounding error in the source's float arithmetic is not modelled.
- The gym plumbing: `set_obs_space` (the `describe()` bounds, `spaces.Box` and `spaces.Dict`) and `action_space` are library adapters. The observation space is not modelled, so `SetOhlcFeed` has no branch for it.
- `render` (logging only) and `get_results`, which only reports.
- The `transactions` and `positions` frames, which the core never updates.
- The `bid_col` and `ask_col` column names: a feed row is reduced to the two prices they select.
- `calc_signals`, the indicator library and the agents' base class: signals are a given table. The crossover's `__init__` keeps only the two periods, qty and stop-loss, without building the indicators.
- The random draw in `reset`: it is a `start` argument constrained to the draw's range. The seed and options arguments are ignored by the source and are left out too.
- The observation dictionary is a value: the source's in-place update of one shared dict, and any aliasing of it by a caller, is not modelled.
- The `stop_loss_cooldown` and `pred` fields of `AgentResponse`: nothing in the core reads them.
- The reinforcement-learning agent, feed stores, brokers, tracking, the offline manager and the dynamic-import helpers `get_class` and `init_obj`: they are I/O, external ML or library adapters.
- Mutating the feed between steps, as one unit test does: the scenarios instead install the mutated feed from the start, which gives the same result because the first step reads only the first row.
