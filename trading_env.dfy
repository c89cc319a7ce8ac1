/** The single-instrument trading simulator: an aligned bid/ask feed, a cursor into it, at most one
    open position and the running reward bookkeeping. The pure functions specify one step; the class
    TradingEnv holds the state and updates it in place, each method proved against those functions. */
module Env {
  import opened Wrappers
  import opened Market
  import opened Agent
  import opened Utils

  /** The two prices of a feed row the engine reads: bid close and ask close. */
  datatype Bar = Bar(bid: real, ask: real)

  /** One signal value; NaN marks a missing indicator value. */
  datatype Sample = NaN | Num(value: real)

  /** The signal values of one row, in column order. */
  type SignalRow = seq<Sample>

  /** The observation dictionary: both keys may be absent. */
  datatype Observation = Observation(position: Option<int>, signals: Option<SignalRow>)

  /** A log-return entry: 0.0, or the logarithm of numerator/denominator (kept symbolic). */
  datatype LogReturn = Zero | Ln(numerator: real, denominator: real)

  /** The info dictionary filled on every step. */
  datatype Info = Info(
    idx: Key,
    symbol: Option<string>,
    action: Action,
    direction: Option<Direction>,
    stepReward: real,
    transReward: real,
    closedTrans: nat,
    totalReward: real,
    winRate: real,
    qty: Option<real>,
    stop: bool)

  /** The position and the reward bookkeeping of the environment. */
  datatype Ledger = Ledger(
    position: Option<Position>,
    lastPrice: Option<real>,
    totalReward: real,
    closedTransactions: nat,
    wins: nat,
    stepReward: real,
    transactionReward: real)

  /** The ledger together with the cursor (a position in the feed index) and the step counter. */
  datatype EngineState = EngineState(ledger: Ledger, cursor: nat, stepCount: nat)

  /** What one step produces: the next state, the resolved action, the stop flag, termination and
      the log-return recorded for the row just processed. */
  datatype StepOut = StepOut(state: EngineState, action: Action, stop: bool, done: bool, logReturn: LogReturn)

  /** A position as the engine opens it: priced, sized and directed. */
  predicate Opened(p: Position) {
    p.qty.Some? && p.entryPrice.Some? && p.direction != Out
  }

  /** The ledger invariant: open positions are well formed, nothing is unrealized while flat, and
      no more trades were won than were closed. */
  predicate Consistent(l: Ledger) {
    && (l.position.Some? ==> Opened(l.position.value))
    && (l.position.None? ==> l.transactionReward == 0.0)
    && l.wins <= l.closedTransactions
  }

  predicate IsLong(l: Ledger) {
    l.position.Some? && l.position.value.direction == Long
  }

  predicate IsShort(l: Ledger) {
    l.position.Some? && l.position.value.direction == Short
  }

  /** Python truthiness of an optional number: present and non-zero. */
  predicate Truthy(x: Option<real>) {
    x.Some? && x.value != 0.0
  }

  /** Closing realizes the open trade: one more closed transaction, the total grows by exactly the
      unrealized reward, a win is counted exactly when that reward is positive; flat, it changes nothing. */
  function AfterClose(l: Ledger): (r: Ledger)
    ensures l.position.None? ==> r == l
    ensures l.position.Some? ==>
      && r.position.None?
      && r.transactionReward == 0.0
      && r.closedTransactions == l.closedTransactions + 1
      && r.totalReward == l.totalReward + l.transactionReward
      && (r.wins == l.wins + 1 <==> l.transactionReward > 0.0)
      && (r.wins == l.wins || r.wins == l.wins + 1)
    ensures r.lastPrice == l.lastPrice && r.stepReward == l.stepReward
    ensures Consistent(l) ==> Consistent(r)
  {
    if l.position.Some? then
      l.(position := None,
         closedTransactions := l.closedTransactions + 1,
         totalReward := l.totalReward + l.transactionReward,
         wins := if l.transactionReward > 0.0 then l.wins + 1 else l.wins,
         transactionReward := 0.0)
    else
      l
  }

  /** Entering replaces the position by a new one in the response's direction, priced at the given
      entry price, sized by the absolute requested quantity, with the response's stop-loss; nothing
      else in the ledger changes. */
  function AfterEntry(l: Ledger, resp: AgentResponse, entryPrice: real): (r: Ledger)
    ensures r.position.Some? && Opened(r.position.value)
    ensures r.position.value.direction == (if resp.action == BUY then Long else Short)
    ensures r.position.value.entryPrice == Some(entryPrice)
    ensures r.position.value.stopLoss == resp.stopLoss
    ensures 0.0 <= r.position.value.qty.value
    ensures r.position.value.qty.value == resp.qty || r.position.value.qty.value == -resp.qty
    ensures r == l.(position := r.position)
    ensures l.wins <= l.closedTransactions ==> Consistent(r)
  {
    var direction := if resp.action == BUY then Long else Short;
    l.(position := Some(NewPosition(None, Some(entryPrice), Some(resp.qty), direction, resp.stopLoss, None)))
  }

  /** The step reward for a move from `previous` to `current`, and the log-return it records; both
      prices must be known, otherwise the reward is 0 and nothing is recorded. With a positive
      multiplier the reward is positive exactly when the price rose. */
  function StepRewardOf(current: Option<real>, previous: Option<real>, multiplier: real): (r: (real, Option<LogReturn>))
    ensures current.Some? && previous.Some? ==>
      r.0 == (current.value - previous.value) * multiplier && r.1 == Some(Ln(current.value, previous.value))
    ensures current.None? || previous.None? ==> r.0 == 0.0 && r.1.None?
    ensures multiplier > 0.0 && current.Some? && previous.Some? ==>
      (r.0 > 0.0 <==> current.value > previous.value) && (r.0 == 0.0 <==> current.value == previous.value)
  {
    if previous.Some? && current.Some? then
      ((current.value - previous.value) * multiplier, Some(Ln(current.value, previous.value)))
    else
      (0.0, None)
  }

  /** Marking the held position to the current bar, before any transition. A long position is valued
      at the bid and a short one at the ask, each scaled by qty/pip; the step reward is the move since
      the last marked price (0 when there is none, or when flat), and the marked price becomes the
      last price. Realized totals and the position itself are untouched. */
  function RewardUpdate(l: Ledger, bar: Bar, pip: real): (r: (Ledger, LogReturn))
    requires pip > 0.0 && Consistent(l)
    ensures Consistent(r.0)
    ensures r.0.position == l.position && r.0.totalReward == l.totalReward
    ensures r.0.closedTransactions == l.closedTransactions && r.0.wins == l.wins
    ensures l.position.None? ==> r.0 == l.(stepReward := 0.0) && r.1 == Zero
    ensures l.lastPrice.None? ==> r.0.stepReward == 0.0 && r.1 == Zero
    ensures IsLong(l) ==>
      var p := l.position.value;
      var mul := p.qty.value / pip;
      && r.0.transactionReward == (bar.bid - p.entryPrice.value) * mul
      && r.0.lastPrice == Some(bar.bid)
      && (l.lastPrice.Some? ==>
            r.0.stepReward == (bar.bid - l.lastPrice.value) * mul && r.1 == Ln(bar.bid, l.lastPrice.value))
    ensures IsShort(l) ==>
      var p := l.position.value;
      var mul := p.qty.value / pip;
      && r.0.transactionReward == (p.entryPrice.value - bar.ask) * mul
      && r.0.lastPrice == Some(bar.ask)
      && (l.lastPrice.Some? ==>
            r.0.stepReward == (l.lastPrice.value - bar.ask) * mul && r.1 == Ln(l.lastPrice.value, bar.ask))
  {
    match l.position
    case None => (l.(stepReward := 0.0), Zero)
    case Some(p) =>
      var mul := p.qty.value / pip;
      if p.direction == Long then
        var (reward, logged) := StepRewardOf(Some(bar.bid), l.lastPrice, mul);
        (l.(transactionReward := (bar.bid - p.entryPrice.value) * mul, stepReward := reward, lastPrice := Some(bar.bid)),
         logged.GetOr(Zero))
      else if p.direction == Short then
        var (reward, logged) := StepRewardOf(l.lastPrice, Some(bar.ask), mul);
        (l.(transactionReward := (p.entryPrice.value - bar.ask) * mul, stepReward := reward, lastPrice := Some(bar.ask)),
         logged.GetOr(Zero))
      else
        (l.(stepReward := 0.0), Zero)
  }

  /** The stop-loss fires: an open position with a truthy stop-loss whose unrealized reward is below
      minus the stop-loss in pips. */
  predicate StopHit(l: Ledger, pip: real)
    requires pip > 0.0
  {
    l.position.Some? && Truthy(l.position.value.stopLoss)
    && l.transactionReward < -l.position.value.stopLoss.value / pip
  }

  /** The decision rule of a step. The stop-loss overrides the request with CLOSE. CLOSE realizes the
      open trade and leaves the engine flat; HOLD changes nothing; BUY keeps a long position as it is
      and otherwise closes whatever is open and opens a long at the ask; SELL keeps a short position
      and otherwise closes and opens a short at the bid. */
  function Resolve(l: Ledger, resp: AgentResponse, bar: Bar, pip: real): (r: (Ledger, Action, bool))
    requires pip > 0.0 && Consistent(l)
    ensures Consistent(r.0)
    ensures r.2 <==> StopHit(l, pip)
    ensures r.1 == (if r.2 then CLOSE else resp.action)
    ensures r.1 == HOLD ==> r.0 == l
    ensures r.1 == CLOSE ==> r.0 == AfterClose(l) && r.0.position.None?
    ensures r.1 == BUY ==> r.0 == if IsLong(l) then l else AfterEntry(AfterClose(l), resp, bar.ask)
    ensures r.1 == SELL ==> r.0 == if IsShort(l) then l else AfterEntry(AfterClose(l), resp, bar.bid)
  {
    var stop := StopHit(l, pip);
    var action := if stop then CLOSE else resp.action;
    var closed := if action == CLOSE || (action == BUY && IsShort(l)) || (action == SELL && IsLong(l))
                  then AfterClose(l) else l;
    var bought := if action == BUY && !IsLong(closed) then AfterEntry(closed, resp, bar.ask) else closed;
    var sold := if action == SELL && !IsShort(bought) then AfterEntry(bought, resp, bar.bid) else bought;
    (sold, action, stop)
  }

  /** The episode is over at the last row of the feed, or once the step counter reaches one less
      than the episode window. */
  predicate EpisodeOver(window: Option<int>, cursor: nat, length: nat, stepCount: nat) {
    cursor == length - 1 || (window.Some? && stepCount >= window.value - 1)
  }

  /** The bar stored under the i-th label of the feed. */
  function BarAt(feed: Table<Bar>, i: nat): (bar: Bar)
    requires WellFormed(feed) && i < |feed.index|
    ensures feed.index[i] in feed.rows && bar == feed.rows[feed.index[i]]
  {
    var key := feed.index[i];
    assert key in feed.index;
    feed.rows[key]
  }

  /** One step on the feed row under the cursor: mark to market, resolve and apply the decision,
      decide termination, and move the cursor on only when the episode goes on. The cursor never
      leaves the feed. */
  function StepSpec(pip: real, window: Option<int>, feed: Table<Bar>, s: EngineState, resp: AgentResponse): (r: StepOut)
    requires pip > 0.0 && WellFormed(feed) && s.cursor < |feed.index| && Consistent(s.ledger)
    ensures Consistent(r.state.ledger)
    ensures r.state.cursor < |feed.index|
    ensures r.done <==> s.cursor == |feed.index| - 1 || (window.Some? && s.stepCount >= window.value - 1)
    ensures r.done ==> r.state.cursor == s.cursor && r.state.stepCount == s.stepCount
    ensures !r.done ==> r.state.cursor == s.cursor + 1 && r.state.stepCount == s.stepCount + 1
    ensures r.stop ==> r.action == CLOSE && r.state.ledger.position.None?
  {
    var bar := BarAt(feed, s.cursor);
    var (marked, logged) := RewardUpdate(s.ledger, bar, pip);
    var (next, action, stop) := Resolve(marked, resp, bar, pip);
    var done := EpisodeOver(window, s.cursor, |feed.index|, s.stepCount);
    var state := if done then EngineState(next, s.cursor, s.stepCount)
                 else EngineState(next, s.cursor + 1, s.stepCount + 1);
    StepOut(state, action, stop, done, logged)
  }

  /** The running win rate: 0 before any trade closed, otherwise the fraction of closed trades won. */
  function WinRate(wins: nat, closed: nat): (r: real)
    ensures closed == 0 ==> r == 0.0
    ensures closed > 0 ==> r * (closed as real) == wins as real
    ensures wins <= closed ==> 0.0 <= r <= 1.0
  {
    if closed == 0 then 0.0 else (wins as real) / (closed as real)
  }

  /** The info reported for a step: the resolved action and stop flag, the position's direction and
      quantity (none when flat), and a total that adds the unrealized reward to the realized one. */
  function InfoOf(key: Key, symbol: Option<string>, l: Ledger, action: Action, stop: bool): (i: Info)
    ensures i.idx == key && i.symbol == symbol && i.action == action && i.stop == stop
    ensures i.stepReward == l.stepReward && i.transReward == l.transactionReward
    ensures i.closedTrans == l.closedTransactions
    ensures i.totalReward == l.totalReward + l.transactionReward
    ensures l.closedTransactions == 0 ==> i.winRate == 0.0
    ensures l.closedTransactions > 0 ==> i.winRate * (l.closedTransactions as real) == l.wins as real
    ensures Consistent(l) ==> 0.0 <= i.winRate <= 1.0
    ensures i.direction.None? <==> l.position.None?
    ensures l.position.Some? ==> i.direction == Some(l.position.value.direction) && i.qty == l.position.value.qty
    ensures l.position.None? ==> i.qty.None?
  {
    Info(key, symbol, action,
         if l.position.None? then None else Some(l.position.value.direction),
         l.stepReward, l.transactionReward, l.closedTransactions,
         l.totalReward + l.transactionReward,
         WinRate(l.wins, l.closedTransactions),
         if l.position.None? then None else l.position.value.qty,
         stop)
  }

  /** The observation after an update: the position code (Out's value exactly when flat), and the
      signal row of the current label when there is one; otherwise the previous signals stay. */
  function Observe(prev: Observation, position: Option<Position>, signals: Table<SignalRow>, key: Option<Key>): (o: Observation)
    ensures o.position.Some? && 0 <= o.position.value < 3
    ensures position.Some? ==> o.position.value == DirectionValue(position.value.direction)
    ensures o.position.value == DirectionValue(Out) <==> position.None? || position.value.direction == Out
    ensures key.Some? && key.value in signals.rows ==> o.signals == Some(signals.rows[key.value])
    ensures !(key.Some? && key.value in signals.rows) ==> o.signals == prev.signals
  {
    var code := if position.None? then DirectionValue(Out) else DirectionValue(position.value.direction);
    if key.Some? && key.value in signals.rows then Observation(Some(code), Some(signals.rows[key.value]))
    else prev.(position := Some(code))
  }

  /** The argument of `step`: a raw action integer or a full agent response. */
  datatype StepArg = RawAction(code: int) | Decision(resp: AgentResponse)

  /** The 5-tuple `step` returns: observation, reward, terminated, truncated (the same flag), info. */
  datatype StepResult = StepResult(obs: Observation, reward: real, terminated: bool, truncated: bool, info: Info)

  /** The response a step argument stands for: an integer becomes a default response, which fails
      for an integer that is not an action value. */
  function ResponseOf(arg: StepArg): (r: Result<AgentResponse, AgentError>)
    ensures r.Failure? <==> arg.RawAction? && !(0 <= arg.code <= 3)
    ensures arg.Decision? ==> r == Success(arg.resp)
    ensures arg.RawAction? && r.Success? ==>
      ActionValue(r.value.action) == arg.code && r.value.qty == 1.0 && r.value.stopLoss.None?
  {
    match arg
    case RawAction(c) => DefaultResponse(Code(c))
    case Decision(resp) => Success(resp)
  }

  class TradingEnv {
    const symbol: Option<string>
    const episodeWindow: Option<int>
    const batchWindow: int
    const pip: real

    /** The aligned feed (empty before a feed is set) and the signal table on the same index. */
    var feed: Table<Bar>
    var signals: Table<SignalRow>
    /** The cursor: the position of the current label in the feed index. */
    var curr: Option<nat>
    var position: Option<Position>
    var lastPrice: Option<real>
    var obs: Observation
    var stepCount: nat
    var totalReward: real
    var closedTransactions: nat
    var wins: nat
    var stepReward: real
    var transactionReward: real
    var info: Option<Info>
    var logReturns: map<Key, LogReturn>

    function CurrentLedger(): Ledger
      reads this
    {
      Ledger(position, lastPrice, totalReward, closedTransactions, wins, stepReward, transactionReward)
    }

    function Engine(): EngineState
      reads this
      requires curr.Some?
    {
      EngineState(CurrentLedger(), curr.value, stepCount)
    }

    /** The label under the cursor, if any. */
    function CurrKey(): Option<Key>
      reads this
    {
      if curr.Some? && curr.value < |feed.index| then Some(feed.index[curr.value]) else None
    }

    ghost predicate Valid()
      reads this
    {
      && pip > 0.0
      && WellFormed(feed) && WellFormed(signals) && feed.index == signals.index
      && (curr.Some? <==> |feed.index| > 0)
      && (curr.Some? ==> curr.value < |feed.index|)
      && Consistent(CurrentLedger())
    }

    constructor(episodeWindow: Option<int>, batchWindow: int, symbol: Option<string>, pip: real)
      requires pip > 0.0
      ensures Valid()
      ensures this.episodeWindow == episodeWindow && this.batchWindow == batchWindow
      ensures this.symbol == symbol && this.pip == pip
      ensures feed == Table([], map[]) && signals == Table([], map[]) && curr.None?
      ensures CurrentLedger() == Ledger(None, None, 0.0, 0, 0, 0.0, 0.0) && stepCount == 0
      ensures obs == Observation(None, None) && info.None? && logReturns == map[]
    {
      this.symbol := symbol;
      this.episodeWindow := episodeWindow;
      this.batchWindow := batchWindow;
      this.pip := pip;
      position := None;
      curr := None;
      lastPrice := None;
      obs := Observation(None, None);
      stepCount := 0;
      totalReward := 0.0;
      closedTransactions := 0;
      wins := 0;
      stepReward := 0.0;
      transactionReward := 0.0;
      feed := Table([], map[]);
      signals := Table([], map[]);
      info := None;
      logReturns := map[];
    }

    /** Installs a feed: the signal table is kept, the feed is restricted to the signal index, the
        cursor goes to the first label and the observation is recomputed. Position and bookkeeping
        are kept. */
    method SetOhlcFeed(feedData: Table<Bar>, signalTable: Table<SignalRow>)
      requires Valid()
      requires WellFormed(feedData) && |feedData.index| > 0
      requires WellFormed(signalTable) && |signalTable.index| > 0
      requires forall k :: k in signalTable.index ==> k in feedData.rows
      modifies this`feed, this`signals, this`curr, this`obs
      ensures Valid()
      ensures signals == signalTable && feed == Loc(feedData, signalTable.index) && curr == Some(0)
      ensures CurrKey() == Some(signalTable.index[0])
      ensures obs == Observe(old(obs), position, signals, CurrKey())
    {
      signals := signalTable;
      feed := Loc(feedData, signalTable.index);
      curr := Some(0);
      CalcObs();
    }

    /** Recomputes the observation from the position and the signal row under the cursor. */
    method CalcObs()
      modifies this`obs
      ensures obs == Observe(old(obs), position, signals, CurrKey())
    {
      var code := if position.None? then DirectionValue(Out) else DirectionValue(position.value.direction);
      var key := CurrKey();
      if key.Some? && key.value in signals.rows {
        obs := Observation(Some(code), Some(signals.rows[key.value]));
      } else {
        obs := obs.(position := Some(code));
      }
    }

    method ClosePosition()
      requires Valid()
      modifies this`position, this`closedTransactions, this`totalReward, this`wins, this`transactionReward
      ensures Valid()
      ensures CurrentLedger() == AfterClose(old(CurrentLedger()))
    {
      if position.Some? {
        closedTransactions := closedTransactions + 1;
        totalReward := totalReward + transactionReward;
        if transactionReward > 0.0 {
          wins := wins + 1;
        }
        position := None;
        transactionReward := 0.0;
      }
    }

    method EnterPosition(resp: AgentResponse, entryPrice: real)
      requires Valid()
      modifies this`position
      ensures Valid()
      ensures CurrentLedger() == AfterEntry(old(CurrentLedger()), resp, entryPrice)
    {
      var direction := if resp.action == BUY then Long else Short;
      position := Some(NewPosition(None, Some(entryPrice), Some(resp.qty), direction, resp.stopLoss, None));
    }

    /** Returns the step reward and records the log-return under the current label when both
        prices are known. */
    method CalculateStepReward(current: Option<real>, previous: Option<real>, multiplier: real) returns (reward: real)
      requires curr.Some? && curr.value < |feed.index|
      modifies this`logReturns
      ensures reward == StepRewardOf(current, previous, multiplier).0
      ensures logReturns == match StepRewardOf(current, previous, multiplier).1
        case Some(lr) => old(logReturns)[feed.index[curr.value] := lr]
        case None => old(logReturns)
    {
      if previous.Some? && current.Some? {
        logReturns := logReturns[feed.index[curr.value] := Ln(current.value, previous.value)];
        return (current.value - previous.value) * multiplier;
      }
      return 0.0;
    }

    method UpdatePositionRewards(bidPrice: real, askPrice: real)
      requires Valid() && curr.Some?
      modifies this`logReturns, this`stepReward, this`transactionReward, this`lastPrice
      ensures Valid()
      ensures CurrentLedger() == RewardUpdate(old(CurrentLedger()), Bar(bidPrice, askPrice), pip).0
      ensures logReturns == old(logReturns)[feed.index[curr.value] := RewardUpdate(old(CurrentLedger()), Bar(bidPrice, askPrice), pip).1]
    {
      ghost var marked := RewardUpdate(CurrentLedger(), Bar(bidPrice, askPrice), pip);
      logReturns := logReturns[feed.index[curr.value] := Zero];
      stepReward := 0.0;
      if position.Some? {
        var mul := position.value.qty.value / pip;
        if position.value.direction == Long {
          transactionReward := (bidPrice - position.value.entryPrice.value) * mul;
          stepReward := CalculateStepReward(Some(bidPrice), lastPrice, mul);
          lastPrice := Some(bidPrice);
        } else if position.value.direction == Short {
          transactionReward := (position.value.entryPrice.value - askPrice) * mul;
          stepReward := CalculateStepReward(lastPrice, Some(askPrice), mul);
          lastPrice := Some(askPrice);
        }
      }
      assert CurrentLedger() == marked.0;
    }

    method GetAction(resp: AgentResponse, bidPrice: real, askPrice: real) returns (action: Action, stop: bool)
      requires Valid()
      modifies this`position, this`closedTransactions, this`totalReward, this`wins, this`transactionReward
      ensures Valid()
      ensures (CurrentLedger(), action, stop) == Resolve(old(CurrentLedger()), resp, Bar(bidPrice, askPrice), pip)
    {
      stop := false;
      action := resp.action;
      if position.Some? && Truthy(position.value.stopLoss)
         && transactionReward < -position.value.stopLoss.value / pip {
        action := CLOSE;
        stop := true;
      }
      if action == CLOSE || (action == BUY && position.Some? && position.value.direction == Short)
         || (action == SELL && position.Some? && position.value.direction == Long) {
        ClosePosition();
      }
      if action == BUY && (position.None? || position.value.direction != Long) {
        EnterPosition(resp, askPrice);
      }
      if action == SELL && (position.None? || position.value.direction != Short) {
        EnterPosition(resp, bidPrice);
      }
    }

    /** Compares labels, as the source does; with a duplicate-free index that is the cursor test. */
    function IsDone(): (done: bool)
      reads this
      requires Valid() && curr.Some?
      ensures done <==> EpisodeOver(episodeWindow, curr.value, |feed.index|, stepCount)
    {
      feed.index[curr.value] == feed.index[|feed.index| - 1]
      || (episodeWindow.Some? && stepCount >= episodeWindow.value - 1)
    }

    method UpdateInfo(action: Action, stop: bool)
      requires curr.Some? && curr.value < |feed.index|
      modifies this`info
      ensures info == Some(InfoOf(feed.index[curr.value], symbol, CurrentLedger(), action, stop))
    {
      info := Some(InfoOf(feed.index[curr.value], symbol, CurrentLedger(), action, stop));
    }

    /** One step: the argument is turned into a response; an unknown action integer fails before
        anything changes, otherwise the step proceeds as StepResponse. */
    method Step(arg: StepArg) returns (r: Result<StepResult, AgentError>)
      requires Valid() && curr.Some?
      modifies this
      ensures Valid() && curr.Some?
      ensures r.Failure? <==> ResponseOf(arg).Failure?
      ensures r.Failure? ==> r.error == ResponseOf(arg).error && unchanged(this)
      ensures r.Success? ==>
        var out := StepSpec(pip, episodeWindow, old(feed), old(Engine()), ResponseOf(arg).value);
        && Engine() == out.state
        && feed == old(feed) && signals == old(signals)
        && logReturns == old(logReturns)[old(CurrKey()).value := out.logReturn]
        && info == Some(InfoOf(old(CurrKey()).value, symbol, out.state.ledger, out.action, out.stop))
        && obs == Observe(old(obs), position, signals, CurrKey())
        && r.value == StepResult(obs, stepReward, out.done, out.done, info.value)
    {
      var made := ResponseOf(arg);
      if made.Failure? {
        return Failure(made.error);
      }
      var result := StepResponse(made.value);
      r := Success(result);
    }

    /** The first half of a step: mark the position to the bar, then resolve and apply the decision. */
    method MarkAndResolve(resp: AgentResponse, bar: Bar) returns (action: Action, stop: bool)
      requires Valid() && curr.Some?
      modifies this`position, this`lastPrice, this`totalReward, this`closedTransactions, this`wins,
               this`stepReward, this`transactionReward, this`logReturns
      ensures Valid()
      ensures var marked := RewardUpdate(old(CurrentLedger()), bar, pip);
        && (CurrentLedger(), action, stop) == Resolve(marked.0, resp, bar, pip)
        && logReturns == old(logReturns)[feed.index[curr.value] := marked.1]
    {
      assert Bar(bar.bid, bar.ask) == bar;
      UpdatePositionRewards(bar.bid, bar.ask);
      action, stop := GetAction(resp, bar.bid, bar.ask);
    }

    /** A step on a decision: the state moves exactly as StepSpec says, the info describes the row
        just processed, and the observation is recomputed at the new cursor. */
    method StepResponse(resp: AgentResponse) returns (result: StepResult)
      requires Valid() && curr.Some?
      modifies this`curr, this`stepCount, this`position, this`lastPrice, this`totalReward,
               this`closedTransactions, this`wins, this`stepReward, this`transactionReward,
               this`info, this`obs, this`logReturns
      ensures Valid() && curr.Some?
      ensures Engine() == StepSpec(pip, episodeWindow, feed, old(Engine()), resp).state
      ensures logReturns == old(logReturns)[old(CurrKey()).value := StepSpec(pip, episodeWindow, feed, old(Engine()), resp).logReturn]
      ensures var out := StepSpec(pip, episodeWindow, feed, old(Engine()), resp);
        info == Some(InfoOf(old(CurrKey()).value, symbol, out.state.ledger, out.action, out.stop))
      ensures obs == Observe(old(obs), position, signals, CurrKey())
      ensures var out := StepSpec(pip, episodeWindow, feed, old(Engine()), resp);
        result == StepResult(obs, stepReward, out.done, out.done, info.value)
    {
      var bar := BarAt(feed, curr.value);
      ghost var out := StepSpec(pip, episodeWindow, feed, old(Engine()), resp);
      var action, stop := MarkAndResolve(resp, bar);
      assert CurrentLedger() == out.state.ledger && action == out.action && stop == out.stop;
      result := Conclude(action, stop);
    }

    /** The second half of a step: decide termination, fill the info for the row just processed,
        advance the cursor unless done, and recompute the observation. */
    method Conclude(action: Action, stop: bool) returns (result: StepResult)
      requires Valid() && curr.Some?
      modifies this`curr, this`stepCount, this`info, this`obs
      ensures Valid() && curr.Some?
      ensures var done := EpisodeOver(episodeWindow, old(curr).value, |feed.index|, old(stepCount));
        && info == Some(InfoOf(feed.index[old(curr).value], symbol, CurrentLedger(), action, stop))
        && curr == (if done then old(curr) else Some(old(curr).value + 1))
        && stepCount == (if done then old(stepCount) else old(stepCount) + 1)
        && obs == Observe(old(obs), position, signals, CurrKey())
        && result == StepResult(obs, stepReward, done, done, info.value)
    {
      var done := IsDone();
      UpdateInfo(action, stop);
      if !done {
        curr := Some(curr.value + 1);
        stepCount := stepCount + 1;
      }
      CalcObs();
      result := StepResult(obs, stepReward, done, done, info.value);
    }

    /** Starts a new episode: flat, every counter and reward zeroed (the last price is kept), the
        cursor at the first label, or at `start` (the random draw) when an episode window is set. */
    method Reset(start: nat) returns (o: Observation, i: Option<Info>)
      requires Valid()
      requires |feed.index| > 0 && episodeWindow.Some? ==>
        start <= |feed.index| - episodeWindow.value && start < |feed.index|
      modifies this`curr, this`position, this`stepCount, this`totalReward, this`closedTransactions,
               this`wins, this`stepReward, this`transactionReward, this`obs
      ensures Valid()
      ensures curr == if |feed.index| == 0 then None else if episodeWindow.Some? then Some(start) else Some(0)
      ensures CurrentLedger() == Ledger(None, old(lastPrice), 0.0, 0, 0, 0.0, 0.0) && stepCount == 0
      ensures obs == Observe(old(obs), None, signals, CurrKey())
      ensures o == obs && i == info
    {
      if |feed.index| == 0 {
        curr := None;
      } else if episodeWindow.Some? {
        curr := Some(start);
      } else {
        curr := Some(0);
      }
      position := None;
      stepCount, totalReward, closedTransactions, wins, stepReward := 0, 0.0, 0, 0, 0.0;
      transactionReward := 0.0;
      assert CurrentLedger() == Ledger(None, old(lastPrice), 0.0, 0, 0, 0.0, 0.0);
      assert Valid();
      CalcObs();
      o, i := obs, info;
    }
  }
}
