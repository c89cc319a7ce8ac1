/** Properties of whole episodes: a run of steps over a sequence of decisions, what it realizes,
    when it terminates, and how the step rewards of a held position add up. */
module Episodes {
  import opened Wrappers
  import opened Market
  import opened Agent
  import opened Utils
  import opened Env
  import opened StepProperties

  /** The state after one step per response, in order. The cursor never leaves the feed, never moves
      back, and the ledger stays consistent. */
  function Run(pip: real, window: Option<int>, feed: Table<Bar>, s: EngineState, resps: seq<AgentResponse>): (r: EngineState)
    requires pip > 0.0 && WellFormed(feed) && s.cursor < |feed.index| && Consistent(s.ledger)
    ensures r.cursor < |feed.index| && Consistent(r.ledger)
    ensures s.cursor <= r.cursor <= s.cursor + |resps|
    ensures r.stepCount - s.stepCount == r.cursor - s.cursor
    decreases |resps|
  {
    if |resps| == 0 then s
    else Run(pip, window, feed, StepSpec(pip, window, feed, s, resps[0]).state, resps[1..])
  }

  /** The `done` flag of each step of a run. */
  function DoneFlags(pip: real, window: Option<int>, feed: Table<Bar>, s: EngineState, resps: seq<AgentResponse>): (r: seq<bool>)
    requires pip > 0.0 && WellFormed(feed) && s.cursor < |feed.index| && Consistent(s.ledger)
    ensures |r| == |resps|
    decreases |resps|
  {
    if |resps| == 0 then []
    else
      var out := StepSpec(pip, window, feed, s, resps[0]);
      [out.done] + DoneFlags(pip, window, feed, out.state, resps[1..])
  }

  /** The reward each step of a run realizes, if any. */
  function RealizedTrace(pip: real, window: Option<int>, feed: Table<Bar>, s: EngineState, resps: seq<AgentResponse>): (r: seq<Option<real>>)
    requires pip > 0.0 && WellFormed(feed) && s.cursor < |feed.index| && Consistent(s.ledger)
    ensures |r| == |resps|
    decreases |resps|
  {
    if |resps| == 0 then []
    else
      [Realized(pip, feed, s, resps[0])]
        + RealizedTrace(pip, window, feed, StepSpec(pip, window, feed, s, resps[0]).state, resps[1..])
  }

  /** The sum of the realized rewards. */
  function Sum(xs: seq<Option<real>>): real {
    if |xs| == 0 then 0.0 else xs[0].GetOr(0.0) + Sum(xs[1..])
  }

  /** The number of realizations. */
  function CountSome(xs: seq<Option<real>>): (n: nat)
    ensures n <= |xs|
  {
    if |xs| == 0 then 0 else (if xs[0].Some? then 1 else 0) + CountSome(xs[1..])
  }

  /** The number of realizations that were wins. */
  function CountWins(xs: seq<Option<real>>): (n: nat)
    ensures n <= CountSome(xs)
  {
    if |xs| == 0 then 0 else (if xs[0].Some? && xs[0].value > 0.0 then 1 else 0) + CountWins(xs[1..])
  }

  /** Over a whole run, the realized total grows by exactly the sum of the realized rewards, one
      trade is closed per realization, and a win is counted per positive realization: the total
      moves only on a close. */
  lemma {:induction false} Conservation(pip: real, window: Option<int>, feed: Table<Bar>, s: EngineState, resps: seq<AgentResponse>)
    requires pip > 0.0 && WellFormed(feed) && s.cursor < |feed.index| && Consistent(s.ledger)
    ensures var r := Run(pip, window, feed, s, resps).ledger;
      var trace := RealizedTrace(pip, window, feed, s, resps);
      && r.totalReward == s.ledger.totalReward + Sum(trace)
      && r.closedTransactions == s.ledger.closedTransactions + CountSome(trace)
      && r.wins == s.ledger.wins + CountWins(trace)
    decreases |resps|
  {
    if |resps| > 0 {
      var next := StepSpec(pip, window, feed, s, resps[0]).state;
      StepRealizes(pip, window, feed, s, resps[0]);
      Conservation(pip, window, feed, next, resps[1..]);
      var trace := RealizedTrace(pip, window, feed, s, resps);
      assert trace[1..] == RealizedTrace(pip, window, feed, next, resps[1..]);
    }
  }

  /** Without an episode window a run ends exactly at the last row of the feed: the i-th step is done
      exactly when it starts on the last row, and the cursor ends on the last row or after one step
      per response, whichever comes first. */
  lemma {:induction false} RunsToLastBar(pip: real, feed: Table<Bar>, s: EngineState, resps: seq<AgentResponse>)
    requires pip > 0.0 && WellFormed(feed) && s.cursor < |feed.index| && Consistent(s.ledger)
    ensures forall i :: 0 <= i < |resps| ==>
      (DoneFlags(pip, None, feed, s, resps)[i] <==> s.cursor + i >= |feed.index| - 1)
    ensures Run(pip, None, feed, s, resps).cursor ==
      if s.cursor + |resps| < |feed.index| - 1 then s.cursor + |resps| else |feed.index| - 1
    decreases |resps|
  {
    if |resps| > 0 {
      var out := StepSpec(pip, None, feed, s, resps[0]);
      var next := out.state;
      RunsToLastBar(pip, feed, next, resps[1..]);
      assert next.cursor == if out.done then s.cursor else s.cursor + 1;
      var flags := DoneFlags(pip, None, feed, s, resps);
      var rest := DoneFlags(pip, None, feed, next, resps[1..]);
      assert flags == [flags[0]] + rest;
      forall i | 1 <= i < |resps|
        ensures flags[i] <==> s.cursor + i >= |feed.index| - 1
      {
        assert flags[i] == rest[i - 1];
      }
    }
  }

  /** A full pass from the first row without an episode window takes as many steps as the feed has
      rows: every step but the last goes on, and the last one is done. */
  lemma FullPass(pip: real, feed: Table<Bar>, l: Ledger, resps: seq<AgentResponse>)
    requires pip > 0.0 && WellFormed(feed) && Consistent(l)
    requires |resps| == |feed.index| > 0
    ensures var flags := DoneFlags(pip, None, feed, EngineState(l, 0, 0), resps);
      && (forall i :: 0 <= i < |resps| - 1 ==> !flags[i])
      && flags[|resps| - 1]
    ensures Run(pip, None, feed, EngineState(l, 0, 0), resps).cursor == |feed.index| - 1
  {
    RunsToLastBar(pip, feed, EngineState(l, 0, 0), resps);
  }

  /** With an episode window w, and a start far enough from the end of the feed, the i-th step is done
      exactly when the step counter it starts with has reached w - 1. */
  lemma {:induction false} EpisodeLength(pip: real, w: int, feed: Table<Bar>, s: EngineState, resps: seq<AgentResponse>)
    requires pip > 0.0 && WellFormed(feed) && s.cursor < |feed.index| && Consistent(s.ledger)
    requires s.stepCount < w - 1 ==> s.cursor + (w - 1 - s.stepCount) <= |feed.index| - 1
    ensures forall i :: 0 <= i < |resps| ==>
      (DoneFlags(pip, Some(w), feed, s, resps)[i] <==> s.stepCount + i >= w - 1)
    decreases |resps|
  {
    if |resps| > 0 {
      var out := StepSpec(pip, Some(w), feed, s, resps[0]);
      var next := out.state;
      assert out.done <==> s.stepCount >= w - 1;
      assert next.stepCount == if out.done then s.stepCount else s.stepCount + 1;
      EpisodeLength(pip, w, feed, next, resps[1..]);
      var flags := DoneFlags(pip, Some(w), feed, s, resps);
      var rest := DoneFlags(pip, Some(w), feed, next, resps[1..]);
      assert flags == [flags[0]] + rest;
      forall i | 1 <= i < |resps|
        ensures flags[i] <==> s.stepCount + i >= w - 1
      {
        assert flags[i] == rest[i - 1];
      }
    }
  }

  /** After a reset with an episode window w, starting at any row the random draw may pick, the
      episode lasts exactly w steps: the first w - 1 go on and the w-th is done. */
  lemma WindowedEpisode(pip: real, w: int, feed: Table<Bar>, l: Ledger, start: nat, resps: seq<AgentResponse>)
    requires pip > 0.0 && WellFormed(feed) && Consistent(l)
    requires start <= |feed.index| - w && start < |feed.index|
    ensures var flags := DoneFlags(pip, Some(w), feed, EngineState(l, start, 0), resps);
      forall i :: 0 <= i < |resps| ==> (flags[i] <==> i >= w - 1)
  {
    EpisodeLength(pip, w, feed, EngineState(l, start, 0), resps);
  }

  /** Marking the ledger to each bar in turn, and the sum of the step rewards this yields. */
  function Accrue(l: Ledger, bars: seq<Bar>, pip: real): (r: (Ledger, real))
    requires pip > 0.0 && Consistent(l)
    ensures Consistent(r.0) && r.0.position == l.position
    ensures |bars| > 0 && l.position.Some? ==> r.0.lastPrice.Some?
    decreases |bars|
  {
    if |bars| == 0 then (l, 0.0)
    else
      var marked := RewardUpdate(l, bars[0], pip).0;
      var rest := Accrue(marked, bars[1..], pip);
      (rest.0, marked.stepReward + rest.1)
  }

  /** Accrue marks the first bar, then accrues over the rest from there. */
  lemma AccrueFirst(l: Ledger, bars: seq<Bar>, pip: real)
    requires pip > 0.0 && Consistent(l) && |bars| > 0
    ensures var marked := RewardUpdate(l, bars[0], pip).0;
      && Accrue(l, bars, pip).0 == Accrue(marked, bars[1..], pip).0
      && Accrue(l, bars, pip).1 == marked.stepReward + Accrue(marked, bars[1..], pip).1
  {
  }

  /** A sum of two consecutive moves, scaled alike, is the whole move scaled. */
  lemma Telescope(x: real, y: real, z: real, m: real)
    ensures (x - y) * m + (y - z) * m == (x - z) * m
  {
  }

  /** While a long position is held, the step rewards add up to the move of the bid since the last
      marked price, and the unrealized reward is the move of the last bid from the entry price. */
  lemma {:induction false} AccrueLong(l: Ledger, bars: seq<Bar>, pip: real)
    requires pip > 0.0 && Consistent(l) && IsLong(l) && l.lastPrice.Some? && |bars| > 0
    ensures var p := l.position.value;
      var mul := p.qty.value / pip;
      var last := bars[|bars| - 1];
      && Accrue(l, bars, pip).1 == (last.bid - l.lastPrice.value) * mul
      && Accrue(l, bars, pip).0.transactionReward == (last.bid - p.entryPrice.value) * mul
      && Accrue(l, bars, pip).0.lastPrice == Some(last.bid)
    decreases |bars|
  {
    var mul := l.position.value.qty.value / pip;
    var marked := RewardUpdate(l, bars[0], pip).0;
    AccrueFirst(l, bars, pip);
    assert marked.position == l.position && marked.lastPrice.Some?;
    if |bars| > 1 {
      AccrueLong(marked, bars[1..], pip);
      var last := bars[|bars| - 1];
      assert bars[1..][|bars[1..]| - 1] == last;
      calc {
        Accrue(l, bars, pip).1;
        marked.stepReward + Accrue(marked, bars[1..], pip).1;
        (bars[0].bid - l.lastPrice.value) * mul + (last.bid - bars[0].bid) * mul;
        { Telescope(last.bid, bars[0].bid, l.lastPrice.value, mul); }
        (last.bid - l.lastPrice.value) * mul;
      }
    }
  }

  /** While a short position is held, the step rewards add up to the fall of the ask since the last
      marked price, and the unrealized reward is the fall of the last ask from the entry price. */
  lemma {:induction false} AccrueShort(l: Ledger, bars: seq<Bar>, pip: real)
    requires pip > 0.0 && Consistent(l) && IsShort(l) && l.lastPrice.Some? && |bars| > 0
    ensures var p := l.position.value;
      var mul := p.qty.value / pip;
      var last := bars[|bars| - 1];
      && Accrue(l, bars, pip).1 == (l.lastPrice.value - last.ask) * mul
      && Accrue(l, bars, pip).0.transactionReward == (p.entryPrice.value - last.ask) * mul
      && Accrue(l, bars, pip).0.lastPrice == Some(last.ask)
    decreases |bars|
  {
    var mul := l.position.value.qty.value / pip;
    var marked := RewardUpdate(l, bars[0], pip).0;
    AccrueFirst(l, bars, pip);
    assert marked.position == l.position && marked.lastPrice.Some?;
    if |bars| > 1 {
      AccrueShort(marked, bars[1..], pip);
      var last := bars[|bars| - 1];
      assert bars[1..][|bars[1..]| - 1] == last;
      calc {
        Accrue(l, bars, pip).1;
        marked.stepReward + Accrue(marked, bars[1..], pip).1;
        (l.lastPrice.value - bars[0].ask) * mul + (bars[0].ask - last.ask) * mul;
        { Telescope(l.lastPrice.value, bars[0].ask, last.ask, mul); }
        (l.lastPrice.value - last.ask) * mul;
      }
    }
  }

  /** The bars of n consecutive rows from row c. */
  function Bars(feed: Table<Bar>, c: nat, n: nat): (r: seq<Bar>)
    requires WellFormed(feed) && c + n <= |feed.index|
    ensures |r| == n
    decreases n
  {
    if n == 0 then [] else [BarAt(feed, c)] + Bars(feed, c + 1, n - 1)
  }

  /** The step reward each step of a run reports. */
  function StepRewards(pip: real, window: Option<int>, feed: Table<Bar>, s: EngineState, resps: seq<AgentResponse>): (r: seq<real>)
    requires pip > 0.0 && WellFormed(feed) && s.cursor < |feed.index| && Consistent(s.ledger)
    ensures |r| == |resps|
    decreases |resps|
  {
    if |resps| == 0 then []
    else
      var out := StepSpec(pip, window, feed, s, resps[0]);
      [out.state.ledger.stepReward] + StepRewards(pip, window, feed, out.state, resps[1..])
  }

  function SumReals(xs: seq<real>): real {
    if |xs| == 0 then 0.0 else xs[0] + SumReals(xs[1..])
  }

  /** One HOLD step before the last row that does not trip the stop-loss only marks to market and
      moves on. */
  lemma HoldStep(pip: real, feed: Table<Bar>, s: EngineState, resp: AgentResponse)
    requires pip > 0.0 && WellFormed(feed) && Consistent(s.ledger)
    requires s.cursor + 1 < |feed.index| && resp.action == HOLD
    requires s.ledger.position.Some? ==> !StopCondition(s.ledger.position.value, BarAt(feed, s.cursor), pip)
    ensures StepSpec(pip, None, feed, s, resp).state ==
      EngineState(RewardUpdate(s.ledger, BarAt(feed, s.cursor), pip).0, s.cursor + 1, s.stepCount + 1)
  {
    var bar := BarAt(feed, s.cursor);
    if s.ledger.position.Some? {
      MarkedReward(s.ledger, bar, pip);
    }
    assert !StopHit(RewardUpdate(s.ledger, bar, pip).0, pip);
  }

  /** Holding through rows that do not trip the stop-loss, the engine does nothing but mark to
      market: its ledger is the one Accrue gives over the bars it visits, and the step rewards it
      reports add up to Accrue's sum. With AccrueLong and AccrueShort, the step rewards of a held
      position add up to the price move since the last mark. */
  lemma {:induction false} HoldRunAccrues(pip: real, feed: Table<Bar>, s: EngineState, resps: seq<AgentResponse>)
    requires pip > 0.0 && WellFormed(feed) && Consistent(s.ledger)
    requires s.cursor + |resps| < |feed.index|
    requires forall i :: 0 <= i < |resps| ==> resps[i].action == HOLD
    requires s.ledger.position.Some? ==>
      forall i :: 0 <= i < |resps| ==>
        !StopCondition(s.ledger.position.value, Bars(feed, s.cursor, |resps|)[i], pip)
    ensures Run(pip, None, feed, s, resps).ledger == Accrue(s.ledger, Bars(feed, s.cursor, |resps|), pip).0
    ensures SumReals(StepRewards(pip, None, feed, s, resps)) == Accrue(s.ledger, Bars(feed, s.cursor, |resps|), pip).1
    decreases |resps|
  {
    if |resps| > 0 {
      var bars := Bars(feed, s.cursor, |resps|);
      var bar := BarAt(feed, s.cursor);
      assert bars[0] == bar;
      HoldStep(pip, feed, s, resps[0]);
      var next := StepSpec(pip, None, feed, s, resps[0]).state;
      assert next.ledger == RewardUpdate(s.ledger, bar, pip).0;
      assert bars[1..] == Bars(feed, s.cursor + 1, |resps| - 1);
      HoldRunAccrues(pip, feed, next, resps[1..]);
      AccrueFirst(s.ledger, bars, pip);
      assert Run(pip, None, feed, s, resps) == Run(pip, None, feed, next, resps[1..]);
      assert StepRewards(pip, None, feed, s, resps)
        == [next.ledger.stepReward] + StepRewards(pip, None, feed, next, resps[1..]);
    }
  }
}
