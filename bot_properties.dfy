/**
 * What the backtest replay of `Source/Bot.py` guarantees, proved about the functions of
 * `BotModel`: the entry and exit rules of the position machine, the bookkeeping of the
 * running counters against the ledger of closed trades, capital conservation, the early
 * stop at the capital floor, and the summary.
 */
module BotProperties {
  import opened Wrappers
  import opened BotModel
  import opened TradeStats

  // ---------------------------------------------------------------------------
  // The position machine, one bar at a time
  // ---------------------------------------------------------------------------

  /**
   * A position opens only on a bar signalling a buy while flat. The stake is the staked
   * fraction of the capital less the fee on it, the coins are the stake over the close, and
   * the capital drops by the stake alone.
   */
  lemma EntryRule(s: RunState, b: Bar, cfg: Config)
    requires Step(s, b, cfg).Ok?
    ensures var n := Step(s, b, cfg).value.next;
            !IsLong(s) && IsLong(n) <==> !IsLong(s) && BuySignal(b)
    ensures var st := Step(s, b, cfg).value;
            var buyAmount := s.totalCapital * cfg.stakeAmount;
            !IsLong(s) && BuySignal(b) ==>
              && st.closed.None?
              && st.next.lastBuyTimestamp == Some(b.timestamp)
              && st.next.lastBuyStake == buyAmount - buyAmount * cfg.tradeFee
              && st.next.lastBuyCoins * b.close == st.next.lastBuyStake
              && st.next.totalCapital == s.totalCapital - st.next.lastBuyStake
              && st.next.trades == s.trades
  {
  }

  /**
   * The exit branch runs on a sell while long or on any stoploss hit, unless the bar opens a
   * position. It sells at the stoploss when that was hit and at the close otherwise, credits
   * the net proceeds to the capital, books the profit against the stake, counts the trade as
   * exactly one of a win or a loss, and leaves the position flat.
   */
  lemma ExitRule(s: RunState, b: Bar, cfg: Config)
    requires Step(s, b, cfg).Ok?
    ensures var st := Step(s, b, cfg).value;
            st.closed.Some? <==>
              !(BuySignal(b) && !IsLong(s)) && ((SellSignal(b) && IsLong(s)) || StoplossHit(b))
    ensures var st := Step(s, b, cfg).value;
            var n := st.next;
            st.closed.Some? ==>
              var t := st.closed.value;
              var sellAmount := t.exitPrice * s.lastBuyCoins;
              && t.exitPrice == (if StoplossHit(b) then b.stoploss else b.close)
              && t.byStoploss == StoplossHit(b)
              && t.exitTimestamp == b.timestamp
              && t.proceeds == sellAmount - sellAmount * cfg.tradeFee
              && t.profit == t.proceeds - s.lastBuyStake
              && t.percent == (t.proceeds / s.lastBuyStake - 1.0) * 100.0
              && n.totalCapital == s.totalCapital + t.proceeds
              && n.cumulativeProfit == s.cumulativeProfit + t.profit
              && !IsLong(n) && n.lastBuyStake == 0.0 && n.lastBuyCoins == 0.0
              && n.trades == s.trades + 1
              && (if t.profit > 0.0 then n.wins == s.wins + 1 && n.losses == s.losses
                  else n.wins == s.wins && n.losses == s.losses + 1)
  {
  }

  /** A stoploss hit on a sell bar while long exits at the stoploss, not at the close. */
  lemma StoplossWinsOverSell(s: RunState, b: Bar, cfg: Config)
    requires IsLong(s) && SellSignal(b) && StoplossHit(b)
    requires Step(s, b, cfg).Ok?
    ensures Step(s, b, cfg).value.closed.Some?
    ensures Step(s, b, cfg).value.closed.value.byStoploss
    ensures Step(s, b, cfg).value.closed.value.exitPrice == b.stoploss
  {
  }

  /** On the bar that opens a position the stoploss column is not looked at. */
  lemma EntryBarIgnoresStoploss(s: RunState, b: Bar, b': Bar, cfg: Config)
    requires !IsLong(s) && BuySignal(b)
    requires b' == b.(low := b'.low, stoploss := b'.stoploss)
    ensures Step(s, b, cfg) == Step(s, b', cfg)
  {
  }

  /**
   * With no stoploss hit, a buy while long, a sell while flat and any other signal (hold)
   * change nothing.
   */
  lemma NoOpBars(s: RunState, b: Bar, cfg: Config)
    requires !StoplossHit(b)
    requires (BuySignal(b) && IsLong(s)) || (SellSignal(b) && !IsLong(s))
             || (!BuySignal(b) && !SellSignal(b))
    ensures Step(s, b, cfg) == Ok(Stepped(s, None))
  {
  }

  // ---------------------------------------------------------------------------
  // Bookkeeping against the ledger of closed trades
  // ---------------------------------------------------------------------------

  /**
   * The locals agree with the closed trades: every counter is the matching aggregate of the
   * ledger, no signal is ever rejected, the capital plus the open stake is the starting
   * capital plus the cumulative profit, and a flat position holds no stake and no coins.
   */
  predicate Books(s: RunState, ledger: seq<Trade>, cfg: Config)
  {
    && s.trades == |ledger|
    && s.wins == CountWins(ledger)
    && s.losses == CountLosses(ledger)
    && s.totalGained == SumGained(ledger)
    && s.totalLost == SumLost(ledger)
    && s.cumulativeProfit == SumProfit(ledger)
    && s.cumulativePercent == SumPercent(ledger)
    && s.stoplossHits == CountStoploss(ledger)
    && Extreme(s.highestWinner, s.highestWinnerTimestamp) == Best(ledger)
    && Extreme(s.highestLoser, s.highestLoserTimestamp) == Worst(ledger)
    && s.rejectedSignals == 0
    && s.totalCapital + s.lastBuyStake == cfg.capital + s.cumulativeProfit
    && (!IsLong(s) ==> s.lastBuyStake == 0.0 && s.lastBuyCoins == 0.0)
  }

  /** Before the first bar the books are those of an empty ledger. */
  lemma InitialBooks(cfg: Config)
    ensures Books(Initial(cfg), [], cfg)
    ensures !IsLong(Initial(cfg)) && Initial(cfg).totalCapital == cfg.capital
  {
  }

  /** One bar keeps the books, with the trade it closed (if any) appended to the ledger. */
  lemma StepKeepsBooks(s: RunState, ledger: seq<Trade>, b: Bar, cfg: Config)
    requires Books(s, ledger, cfg)
    requires Step(s, b, cfg).Ok?
    ensures Books(Step(s, b, cfg).value.next, ledger + OptionToSeq(Step(s, b, cfg).value.closed), cfg)
  {
    var st := Step(s, b, cfg).value;
    if st.closed.Some? {
      var t := st.closed.value;
      var ledger' := ledger + [t];
      assert ledger'[..|ledger|] == ledger;
      assert ledger'[|ledger|] == t;
    } else {
      assert ledger + [] == ledger;
    }
  }

  /** The whole replay keeps the books. */
  lemma {:induction false} RunKeepsBooks(s: RunState, ledger: seq<Trade>, bars: seq<Bar>, cfg: Config)
    requires Books(s, ledger, cfg)
    requires RunFrom(s, bars, cfg).Ok?
    ensures Books(RunFrom(s, bars, cfg).value.state, ledger + RunFrom(s, bars, cfg).value.ledger, cfg)
    decreases |bars|
  {
    if |bars| == 0 {
      assert ledger + [] == ledger;
    } else {
      var st := Step(s, bars[0], cfg).value;
      StepKeepsBooks(s, ledger, bars[0], cfg);
      var ledger' := ledger + OptionToSeq(st.closed);
      if StopsAfter(st.next) {
      } else {
        var r := RunFrom(st.next, bars[1..], cfg).value;
        RunKeepsBooks(st.next, ledger', bars[1..], cfg);
        assert ledger' + r.ledger == ledger + (OptionToSeq(st.closed) + r.ledger);
      }
    }
  }

  /**
   * After a replay from the start, the counters are the aggregates of the trades it closed:
   * wins + losses = trades, gained + lost = cumulative profit, and the capital plus the open
   * stake is the starting capital plus the cumulative profit.
   */
  lemma BacktestBooks(bars: seq<Bar>, cfg: Config)
    requires RunFrom(Initial(cfg), bars, cfg).Ok?
    ensures var r := RunFrom(Initial(cfg), bars, cfg).value;
            && Books(r.state, r.ledger, cfg)
            && r.state.wins + r.state.losses == r.state.trades
            && r.state.totalGained + r.state.totalLost == r.state.cumulativeProfit
            && r.state.totalCapital + r.state.lastBuyStake == cfg.capital + r.state.cumulativeProfit
  {
    var r := RunFrom(Initial(cfg), bars, cfg).value;
    InitialBooks(cfg);
    RunKeepsBooks(Initial(cfg), [], bars, cfg);
    assert [] + r.ledger == r.ledger;
    WinsAndLossesPartition(r.ledger);
    GainedAndLostPartition(r.ledger);
  }

  /** A flat bar that hits its stoploss without a buy signal takes the exit branch with no stake. */
  lemma FlatStoplossHitFails(s: RunState, ledger: seq<Trade>, b: Bar, cfg: Config)
    requires Books(s, ledger, cfg)
    requires !IsLong(s) && !BuySignal(b) && StoplossHit(b)
    ensures Step(s, b, cfg) == Err(ZeroStake(b.timestamp))
  {
  }

  // ---------------------------------------------------------------------------
  // The early stop
  // ---------------------------------------------------------------------------

  /**
   * The replay stops exactly when a bar leaves the capital under the floor with no open
   * position: a stopped run ends in such a state, a run that ends in such a state after at
   * least one bar is a stopped one, and a run that did not stop processes every bar.
   */
  lemma {:induction false} StopIsCapitalFloor(s: RunState, bars: seq<Bar>, cfg: Config)
    requires RunFrom(s, bars, cfg).Ok?
    ensures var r := RunFrom(s, bars, cfg).value;
            && r.processed <= |bars|
            && (r.stopped ==> 1 <= r.processed && StopsAfter(r.state))
            && (!r.stopped ==> r.processed == |bars|)
            && (r.processed >= 1 && StopsAfter(r.state) ==> r.stopped)
    decreases |bars|
  {
    if |bars| > 0 {
      var st := Step(s, bars[0], cfg).value;
      if !StopsAfter(st.next) {
        StopIsCapitalFloor(st.next, bars[1..], cfg);
      }
    }
  }

  /**
   * The loop ends at the first bar after which the capital is under the floor with no open
   * position: if replaying the first k bars leaves such a state, the bars after them are
   * never looked at.
   */
  lemma StopAtFloor(s: RunState, bars: seq<Bar>, k: nat, cfg: Config)
    requires 1 <= k <= |bars|
    requires RunFrom(s, bars[..k], cfg).Ok? && StopsAfter(RunFrom(s, bars[..k], cfg).value.state)
    ensures RunFrom(s, bars, cfg) == RunFrom(s, bars[..k], cfg)
  {
    StopIsCapitalFloor(s, bars[..k], cfg);
    StopIgnoresLaterBars(s, bars[..k], bars[k..], cfg);
    assert bars[..k] + bars[k..] == bars;
  }

  /** Bars after the one that triggered the early stop affect nothing. */
  lemma {:induction false} StopIgnoresLaterBars(s: RunState, bars: seq<Bar>, more: seq<Bar>, cfg: Config)
    requires RunFrom(s, bars, cfg).Ok? && RunFrom(s, bars, cfg).value.stopped
    ensures RunFrom(s, bars + more, cfg) == RunFrom(s, bars, cfg)
    decreases |bars|
  {
    assert (bars + more)[0] == bars[0];
    assert (bars + more)[1..] == bars[1..] + more;
    var st := Step(s, bars[0], cfg).value;
    if !StopsAfter(st.next) {
      StopIgnoresLaterBars(st.next, bars[1..], more, cfg);
    }
  }

  // ---------------------------------------------------------------------------
  // The summary
  // ---------------------------------------------------------------------------

  /** The state of a replay that started with no capital: no trade, no capital, no stake. */
  predicate Idle(s: RunState)
  {
    s.trades == 0 && s.totalCapital == 0.0 && s.lastBuyStake == 0.0
  }

  /** Starting with no capital, any stake is zero, so no exit can complete: no trade is ever made. */
  lemma {:induction false} IdleRunMakesNoTrades(s: RunState, bars: seq<Bar>, cfg: Config)
    requires Idle(s)
    requires RunFrom(s, bars, cfg).Ok?
    ensures Idle(RunFrom(s, bars, cfg).value.state)
    decreases |bars|
  {
    if |bars| > 0 {
      var st := Step(s, bars[0], cfg).value;
      assert Idle(st.next);
      if !StopsAfter(st.next) {
        IdleRunMakesNoTrades(st.next, bars[1..], cfg);
      }
    }
  }

  /**
   * The summary of a successful replay: "No Trades Made" exactly when no trade was closed;
   * otherwise the statistics are the aggregates of the closed trades, the total is
   * wins + losses, the balance is the starting capital plus the cumulative profit (the open
   * stake folded back in), and no signal is reported as rejected. The division by the
   * initial capital never fails, because a replay with no capital closes no trade.
   */
  lemma SummaryTheorem(bars: seq<Bar>, cfg: Config)
    requires RunFrom(Initial(cfg), bars, cfg).Ok?
    ensures BacktestSpec(bars, cfg).Ok?
    ensures var ledger := RunFrom(Initial(cfg), bars, cfg).value.ledger;
            BacktestSpec(bars, cfg).value.NoTradesMade? <==> |ledger| == 0
    ensures var ledger := RunFrom(Initial(cfg), bars, cfg).value.ledger;
            var sum := BacktestSpec(bars, cfg).value;
            sum.Stats? ==>
              && sum.total == sum.wins + sum.losses == |ledger|
              && sum.wins == CountWins(ledger)
              && |ledger| > 0 && sum.winRatio == PercentOf(CountWins(ledger) as real, |ledger| as real)
              && sum.totalGained == SumGained(ledger)
              && sum.totalLost == SumLost(ledger)
              && Extreme(sum.bestProfit, sum.bestTimestamp) == Best(ledger)
              && Extreme(sum.worstProfit, sum.worstTimestamp) == Worst(ledger)
              && sum.totalBalance == cfg.capital + SumProfit(ledger)
              && sum.totalProfitAbsolute == SumProfit(ledger)
              && cfg.capital != 0.0
              && sum.totalProfitPercent == PercentChange(cfg.capital + SumProfit(ledger), cfg.capital)
              && sum.cumulativeProfit == SumProfit(ledger)
              && sum.cumulativePercent == SumPercent(ledger)
              && sum.rejectedSignals == 0
              && sum.stoplossHits == CountStoploss(ledger)
  {
    var r := RunFrom(Initial(cfg), bars, cfg).value;
    BacktestBooks(bars, cfg);
    if cfg.capital == 0.0 {
      IdleRunMakesNoTrades(Initial(cfg), bars, cfg);
    }
  }

  /** A replay from a flat, tradeless state over bars with no buy signal never trades. */
  lemma {:induction false} NoBuyRunStaysFlat(s: RunState, ledger: seq<Trade>, bars: seq<Bar>, cfg: Config)
    requires Books(s, ledger, cfg) && !IsLong(s) && s.trades == 0
    requires forall i :: 0 <= i < |bars| ==> !BuySignal(bars[i])
    ensures RunFrom(s, bars, cfg).Ok? ==>
              RunFrom(s, bars, cfg).value.state.trades == 0
              && RunFrom(s, bars, cfg).value.ledger == []
    ensures (forall i :: 0 <= i < |bars| ==> !StoplossHit(bars[i])) ==> RunFrom(s, bars, cfg).Ok?
    ensures RunFrom(s, bars, cfg).Err? ==> RunFrom(s, bars, cfg).error.ZeroStake?
    decreases |bars|
  {
    if |bars| > 0 {
      if !StoplossHit(bars[0]) {
        NoOpBars(s, bars[0], cfg);
        if !StopsAfter(s) {
          NoBuyRunStaysFlat(s, ledger, bars[1..], cfg);
        }
      }
    }
  }

  /**
   * A series without buy signals reports "No Trades Made"; if one of its bars hits its
   * stoploss the exit branch divides by the zero stake instead.
   */
  lemma NoBuyNoTrades(bars: seq<Bar>, cfg: Config)
    requires forall i :: 0 <= i < |bars| ==> !BuySignal(bars[i])
    ensures || BacktestSpec(bars, cfg) == Ok(NoTradesMade)
            || (BacktestSpec(bars, cfg).Err? && BacktestSpec(bars, cfg).error.ZeroStake?)
    ensures (forall i :: 0 <= i < |bars| ==> !StoplossHit(bars[i])) ==>
              BacktestSpec(bars, cfg) == Ok(NoTradesMade)
  {
    InitialBooks(cfg);
    NoBuyRunStaysFlat(Initial(cfg), [], bars, cfg);
  }

  // ---------------------------------------------------------------------------
  // Capital never goes negative under sensible parameters
  // ---------------------------------------------------------------------------

  /** A starting capital that is not negative, a stake fraction and a fee rate in [0, 1]. */
  predicate SensibleConfig(cfg: Config)
  {
    cfg.capital >= 0.0 && 0.0 <= cfg.stakeAmount <= 1.0 && 0.0 <= cfg.tradeFee <= 1.0
  }

  /** Prices that are not negative. */
  predicate SensibleBar(b: Bar)
  {
    b.close >= 0.0 && b.stoploss >= 0.0
  }

  predicate NonNegative(s: RunState)
  {
    s.totalCapital >= 0.0 && s.lastBuyStake >= 0.0 && s.lastBuyCoins >= 0.0
  }

  lemma ProductNonNegative(x: real, y: real)
    requires x >= 0.0 && y >= 0.0
    ensures x * y >= 0.0
  {
  }

  /** The entry keeps capital, stake and coins non-negative: the stake is at most the capital. */
  lemma EnterKeepsNonNegative(s: RunState, b: Bar, cfg: Config)
    requires SensibleConfig(cfg) && NonNegative(s) && b.close > 0.0
    ensures NonNegative(Enter(s, b, cfg))
  {
    var buyAmount := s.totalCapital * cfg.stakeAmount;
    var stake := buyAmount - buyAmount * cfg.tradeFee;
    ProductNonNegative(s.totalCapital, cfg.stakeAmount);
    ProductNonNegative(s.totalCapital, 1.0 - cfg.stakeAmount);
    assert buyAmount <= s.totalCapital;
    ProductNonNegative(buyAmount, 1.0 - cfg.tradeFee);
    ProductNonNegative(buyAmount, cfg.tradeFee);
    assert 0.0 <= stake <= s.totalCapital;
  }

  /** The exit keeps capital non-negative: the net proceeds are not negative. */
  lemma ExitKeepsNonNegative(s: RunState, b: Bar, cfg: Config)
    requires SensibleConfig(cfg) && SensibleBar(b) && NonNegative(s) && s.lastBuyStake != 0.0
    ensures ClosingTrade(s, b, cfg).proceeds >= 0.0
    ensures NonNegative(Exit(s, ClosingTrade(s, b, cfg)))
  {
    var price := ExitPrice(b);
    var sellAmount := price * s.lastBuyCoins;
    ProductNonNegative(price, s.lastBuyCoins);
    ProductNonNegative(sellAmount, 1.0 - cfg.tradeFee);
    assert sellAmount - sellAmount * cfg.tradeFee == sellAmount * (1.0 - cfg.tradeFee);
  }

  /** One bar keeps capital, stake and coins non-negative. */
  lemma StepKeepsNonNegative(s: RunState, b: Bar, cfg: Config)
    requires SensibleConfig(cfg) && SensibleBar(b) && NonNegative(s)
    requires Step(s, b, cfg).Ok?
    ensures NonNegative(Step(s, b, cfg).value.next)
  {
    if BuySignal(b) && !IsLong(s) {
      EnterKeepsNonNegative(s, b, cfg);
    } else if (SellSignal(b) && IsLong(s)) || StoplossHit(b) {
      ExitKeepsNonNegative(s, b, cfg);
    }
  }

  /** The whole replay keeps capital, stake and coins non-negative. */
  lemma {:induction false} CapitalNeverNegative(s: RunState, bars: seq<Bar>, cfg: Config)
    requires SensibleConfig(cfg) && NonNegative(s)
    requires forall i :: 0 <= i < |bars| ==> SensibleBar(bars[i])
    requires RunFrom(s, bars, cfg).Ok?
    ensures NonNegative(RunFrom(s, bars, cfg).value.state)
    decreases |bars|
  {
    if |bars| > 0 {
      StepKeepsNonNegative(s, bars[0], cfg);
      var st := Step(s, bars[0], cfg).value;
      if !StopsAfter(st.next) {
        CapitalNeverNegative(st.next, bars[1..], cfg);
      }
    }
  }

  // ---------------------------------------------------------------------------
  // A worked example
  // ---------------------------------------------------------------------------

  /** The entry of the worked example: a buy at close 100 with the default parameters. */
  lemma ScenarioEntry()
    ensures var s1 := Enter(Initial(DefaultConfig), Bar(1, 100.0, 95.0, 1.0, 90.0), DefaultConfig);
            && s1.lastBuyStake == 8976.6 && s1.lastBuyCoins == 89.766 && s1.totalCapital == 1023.4
            && Step(Initial(DefaultConfig), Bar(1, 100.0, 95.0, 1.0, 90.0), DefaultConfig)
               == Ok(Stepped(s1, None))
  {
  }

  /** The exit of the worked example: the next bar's low 85 is under its stoploss 90. */
  lemma ScenarioExit(s1: RunState)
    requires s1 == Enter(Initial(DefaultConfig), Bar(1, 100.0, 95.0, 1.0, 90.0), DefaultConfig)
    ensures var t := Trade(2, true, 90.0, 8057.934756, -918.665244, -10.234);
            && ClosingTrade(s1, Bar(2, 88.0, 85.0, 0.0, 90.0), DefaultConfig) == t
            && Exit(s1, t).totalCapital == 9081.334756
            && Step(s1, Bar(2, 88.0, 85.0, 0.0, 90.0), DefaultConfig) == Ok(Stepped(Exit(s1, t), Some(t)))
  {
    ScenarioEntry();
  }

  /** The replay of the worked example's two bars: one closed trade, no early stop. */
  lemma ScenarioRun()
    ensures var s1 := Enter(Initial(DefaultConfig), Bar(1, 100.0, 95.0, 1.0, 90.0), DefaultConfig);
            var t := Trade(2, true, 90.0, 8057.934756, -918.665244, -10.234);
            RunFrom(Initial(DefaultConfig), [Bar(1, 100.0, 95.0, 1.0, 90.0), Bar(2, 88.0, 85.0, 0.0, 90.0)],
                    DefaultConfig)
            == Ok(Run(Exit(s1, t), [t], 2, false))
  {
    var cfg := DefaultConfig;
    var bars := [Bar(1, 100.0, 95.0, 1.0, 90.0), Bar(2, 88.0, 85.0, 0.0, 90.0)];
    var s1 := Enter(Initial(cfg), bars[0], cfg);
    var t := Trade(2, true, 90.0, 8057.934756, -918.665244, -10.234);
    var s2 := Exit(s1, t);
    ScenarioEntry();
    ScenarioExit(s1);
    assert !StopsAfter(s1) && !StopsAfter(s2);
    var rest := bars[1..];
    assert rest[0] == bars[1] && rest[1..] == [];
    assert RunFrom(s2, rest[1..], cfg) == Ok(Run(s2, [], 0, false));
    assert OptionToSeq(Some(t)) + [] == [t];
    assert RunFrom(s1, bars[1..], cfg) == Ok(Run(s2, [t], 1, false));
    assert OptionToSeq(None) + [t] == [t];
  }

  /**
   * With the default parameters (10000, 0.9, 0.0026): a buy at close 100, then a bar whose
   * low 85 is under its stoploss 90. The entry stakes 8976.6 for 89.766 coins and leaves
   * 1023.4; the exit sells at 90 for 8057.934756 net, a loss of 918.665244 (-10.234 %),
   * and the balance ends at 9081.334756.
   */
  lemma StoplossScenario()
    ensures var bars := [Bar(1, 100.0, 95.0, 1.0, 90.0), Bar(2, 88.0, 85.0, 0.0, 90.0)];
            var t := Trade(2, true, 90.0, 8057.934756, -918.665244, -10.234);
            && RunFrom(Initial(DefaultConfig), bars, DefaultConfig).Ok?
            && RunFrom(Initial(DefaultConfig), bars, DefaultConfig).value.ledger == [t]
            && BacktestSpec(bars, DefaultConfig)
               == Ok(Stats(0, 1, 1, 0.0, 0.0, -918.665244, 0.0, None, -918.665244, Some(2),
                           9081.334756, -918.665244, -9.18665244, -918.665244, -10.234, 0, 1))
  {
    var s1 := Enter(Initial(DefaultConfig), Bar(1, 100.0, 95.0, 1.0, 90.0), DefaultConfig);
    ScenarioEntry();
    ScenarioExit(s1);
    ScenarioRun();
  }
}
