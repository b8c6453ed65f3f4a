/**
 * `backtest` of `Source/Bot.py`: the loop over the strategy's rows that replays its buy,
 * sell and stoploss signals against a simulated balance, written step by step on the same
 * locals as the source, and proved to compute `BotModel.BacktestSpec`.
 */
module Bot {
  import opened Wrappers
  import opened BotModel

  /** One loop iteration from the locals `s`, in terms of the replay of the remaining bars. */
  lemma FinalStateStep(s: RunState, bars: seq<Bar>, cfg: Config)
    requires |bars| > 0
    ensures Step(s, bars[0], cfg).Err? ==> FinalState(s, bars, cfg) == Err(Step(s, bars[0], cfg).error)
    ensures Step(s, bars[0], cfg).Ok? && StopsAfter(Step(s, bars[0], cfg).value.next) ==>
              FinalState(s, bars, cfg) == Ok(Step(s, bars[0], cfg).value.next)
    ensures Step(s, bars[0], cfg).Ok? && !StopsAfter(Step(s, bars[0], cfg).value.next) ==>
              FinalState(s, bars, cfg) == FinalState(Step(s, bars[0], cfg).value.next, bars[1..], cfg)
  {
  }

  /**
   * The loop of `backtest`: replays `bars` with the given starting capital, staked fraction
   * and fee rate, and returns the locals as the loop leaves them, or the division by zero
   * the source would run into.
   */
  method Replay(bars: seq<Bar>, capital: real, stakeAmount: real, tradeFee: real)
    returns (outcome: Result<RunState, BacktestError>)
    ensures outcome == FinalState(Initial(Config(capital, stakeAmount, tradeFee)), bars,
                                  Config(capital, stakeAmount, tradeFee))
  {
    ghost var cfg := Config(capital, stakeAmount, tradeFee);

    // the open position; reset when it is sold
    var lastBuyTimestamp: Option<int> := None;
    var lastBuyStakeAmount := 0.0;
    var lastBuyCoinAmount := 0.0;

    var totalCapital := capital;

    var cumulativeProfit := 0.0;
    var cumulativePercent := 0.0;

    var wins: nat := 0;
    var losses: nat := 0;
    var trades: nat := 0;
    var totalAmountGained := 0.0;
    var totalAmountLost := 0.0;
    var highestWinnerTimestamp: Option<int> := None;
    var highestWinner := 0.0;
    var highestLoserTimestamp: Option<int> := None;
    var highestLoser := 0.0;

    var rejectedSignals: nat := 0;
    var stoplossAmount: nat := 0;

    for i := 0 to |bars|
      invariant FinalState(Initial(cfg), bars, cfg) ==
                FinalState(RunState(totalCapital, lastBuyTimestamp, lastBuyStakeAmount, lastBuyCoinAmount,
                                    cumulativeProfit, cumulativePercent, wins, losses, trades,
                                    totalAmountGained, totalAmountLost, highestWinner, highestWinnerTimestamp,
                                    highestLoser, highestLoserTimestamp, rejectedSignals, stoplossAmount),
                           bars[i..], cfg)
    {
      ghost var before := RunState(totalCapital, lastBuyTimestamp, lastBuyStakeAmount, lastBuyCoinAmount,
                                   cumulativeProfit, cumulativePercent, wins, losses, trades,
                                   totalAmountGained, totalAmountLost, highestWinner, highestWinnerTimestamp,
                                   highestLoser, highestLoserTimestamp, rejectedSignals, stoplossAmount);
      FinalStateStep(before, bars[i..], cfg);
      assert bars[i..][0] == bars[i] && bars[i..][1..] == bars[i + 1..];

      var row := bars[i];
      var stoplossHit := row.low < row.stoploss;

      if row.signal == 1.0 && lastBuyTimestamp.None? {
        if row.close == 0.0 {
          outcome := Err(ZeroClose(row.timestamp));
          return;
        }
        lastBuyTimestamp := Some(row.timestamp);
        var buyAmount := StakeOf(totalCapital, stakeAmount);
        var feeAmount := FeeOn(buyAmount, tradeFee);
        lastBuyStakeAmount := buyAmount - feeAmount;
        lastBuyCoinAmount := CoinsFor(lastBuyStakeAmount, row.close);
        totalCapital := totalCapital - lastBuyStakeAmount;
        assert RunState(totalCapital, lastBuyTimestamp, lastBuyStakeAmount, lastBuyCoinAmount,
                        cumulativeProfit, cumulativePercent, wins, losses, trades,
                        totalAmountGained, totalAmountLost, highestWinner, highestWinnerTimestamp,
                        highestLoser, highestLoserTimestamp, rejectedSignals, stoplossAmount)
               == Enter(before, row, cfg);
      } else if (row.signal == -1.0 && lastBuyTimestamp.Some?) || stoplossHit {
        var price := row.close;
        if stoplossHit {
          stoplossAmount := stoplossAmount + 1;
          price := row.stoploss;
        }

        var sellAmount := SaleValue(price, lastBuyCoinAmount);
        var feeAmount := FeeOn(sellAmount, tradeFee);
        var currentSell := sellAmount - feeAmount;
        var currentProfit := currentSell - lastBuyStakeAmount;
        if lastBuyStakeAmount == 0.0 {
          outcome := Err(ZeroStake(row.timestamp));
          return;
        }
        var currentPercent := PercentChange(currentSell, lastBuyStakeAmount);
        ghost var t := ClosingTrade(before, row, cfg);
        assert t == Trade(row.timestamp, stoplossHit, price, currentSell, currentProfit, currentPercent);
        totalCapital := totalCapital + currentSell;

        cumulativeProfit := cumulativeProfit + currentProfit;
        cumulativePercent := cumulativePercent + currentPercent;

        if currentProfit > 0.0 {
          wins := wins + 1;
          totalAmountGained := totalAmountGained + currentProfit;
          if currentProfit > highestWinner {
            highestWinner := currentProfit;
            highestWinnerTimestamp := Some(row.timestamp);
          }
        } else {
          losses := losses + 1;
          totalAmountLost := totalAmountLost + currentProfit;
          if currentProfit < highestLoser {
            highestLoser := currentProfit;
            highestLoserTimestamp := Some(row.timestamp);
          }
        }

        trades := trades + 1;
        lastBuyTimestamp := None;
        lastBuyStakeAmount := 0.0;
        lastBuyCoinAmount := 0.0;
        assert RunState(totalCapital, lastBuyTimestamp, lastBuyStakeAmount, lastBuyCoinAmount,
                        cumulativeProfit, cumulativePercent, wins, losses, trades,
                        totalAmountGained, totalAmountLost, highestWinner, highestWinnerTimestamp,
                        highestLoser, highestLoserTimestamp, rejectedSignals, stoplossAmount)
               == Exit(before, t);
      }

      ghost var after := RunState(totalCapital, lastBuyTimestamp, lastBuyStakeAmount, lastBuyCoinAmount,
                                  cumulativeProfit, cumulativePercent, wins, losses, trades,
                                  totalAmountGained, totalAmountLost, highestWinner, highestWinnerTimestamp,
                                  highestLoser, highestLoserTimestamp, rejectedSignals, stoplossAmount);
      assert Step(before, row, cfg).Ok? && Step(before, row, cfg).value.next == after;

      // $10 is the usual minimum order size on exchanges
      if totalCapital < MinimumTradable && lastBuyTimestamp.None? {
        break;
      }
    }

    outcome := Ok(RunState(totalCapital, lastBuyTimestamp, lastBuyStakeAmount, lastBuyCoinAmount,
                           cumulativeProfit, cumulativePercent, wins, losses, trades,
                           totalAmountGained, totalAmountLost, highestWinner, highestWinnerTimestamp,
                           highestLoser, highestLoserTimestamp, rejectedSignals, stoplossAmount));
  }

  /**
   * `backtest` over a bar series: the replay, then the report, which folds the open stake
   * back into the capital and derives the totals when at least one trade was made.
   */
  method Backtest(bars: seq<Bar>, capital: real, stakeAmount: real, tradeFee: real)
    returns (report: Result<Summary, BacktestError>)
    ensures report == BacktestSpec(bars, Config(capital, stakeAmount, tradeFee))
  {
    var outcome := Replay(bars, capital, stakeAmount, tradeFee);
    if outcome.Err? {
      return Err(outcome.error);
    }
    var s := outcome.value;
    var totalCapital := s.totalCapital;
    if s.trades > 0 {
      totalCapital := totalCapital + s.lastBuyStake;
      if capital == 0.0 {
        return Err(ZeroCapital);
      }
      var totalProfitAbsolute := totalCapital - capital;
      var totalProfitPercent := PercentChange(totalCapital, capital);
      report := Ok(Stats(s.wins, s.losses, s.wins + s.losses, PercentOf(s.wins as real, s.trades as real),
                         s.totalGained, s.totalLost,
                         s.highestWinner, s.highestWinnerTimestamp, s.highestLoser, s.highestLoserTimestamp,
                         totalCapital, totalProfitAbsolute, totalProfitPercent,
                         s.cumulativeProfit, s.cumulativePercent, s.rejectedSignals, s.stoplossHits));
    } else {
      report := Ok(NoTradesMade);
    }
  }
}
