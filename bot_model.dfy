/**
 * The backtest replay of `Source/Bot.py` as functions: one step per bar, the replay of a
 * whole bar series with its early stop, and the end-of-run summary. These functions are the
 * specification the imperative `Bot.Backtest` method is proved against; the properties of
 * the replay are proved about them in `BotProperties`.
 *
 * Prices and amounts are `real`. Where the source divides by zero (an entry on a bar whose
 * close is 0, an exit with a zero stake, the final percentage with a zero initial capital)
 * the model stops with a `BacktestError` instead of continuing.
 */
module BotModel {
  import opened Wrappers

  /** One row of the strategy's data frame: the columns the replay reads. */
  datatype Bar = Bar(timestamp: int, close: real, low: real, signal: real, stoploss: real)

  /** The parameters of `backtest`: starting capital, fraction staked per entry, fee rate. */
  datatype Config = Config(capital: real, stakeAmount: real, tradeFee: real)

  /** The defaults of `backtest`. */
  const DefaultConfig := Config(10000.0, 0.9, 0.0026)

  /** Below this capital, with no open position, the replay stops ($10, a usual exchange minimum). */
  const MinimumTradable: real := 10.0

  /** A division by zero in the source, and the bar it happened on. */
  datatype BacktestError =
    | ZeroClose(timestamp: int)    // entry on a bar whose close is 0
    | ZeroStake(timestamp: int)    // exit branch taken with a zero stake
    | ZeroCapital                  // final percentage with a zero initial capital

  /** The local variables the replay loop updates, under their source names. */
  datatype RunState = RunState(
    totalCapital: real,
    lastBuyTimestamp: Option<int>,
    lastBuyStake: real,
    lastBuyCoins: real,
    cumulativeProfit: real,
    cumulativePercent: real,
    wins: nat,
    losses: nat,
    trades: nat,
    totalGained: real,
    totalLost: real,
    highestWinner: real,
    highestWinnerTimestamp: Option<int>,
    highestLoser: real,
    highestLoserTimestamp: Option<int>,
    rejectedSignals: nat,
    stoplossHits: nat)

  /** The values the locals hold before the first bar. */
  function Initial(cfg: Config): RunState
  {
    RunState(cfg.capital, None, 0.0, 0.0, 0.0, 0.0, 0, 0, 0, 0.0, 0.0, 0.0, None, 0.0, None, 0, 0)
  }

  /** A position is open exactly when a buy timestamp is remembered. */
  predicate IsLong(s: RunState)
  {
    s.lastBuyTimestamp.Some?
  }

  predicate BuySignal(b: Bar)
  {
    b.signal == 1.0
  }

  predicate SellSignal(b: Bar)
  {
    b.signal == -1.0
  }

  /** The bar's low went below the bar's own stoploss column. */
  predicate StoplossHit(b: Bar)
  {
    b.low < b.stoploss
  }

  // The source's formulas, named so that the specification and the loop share them.

  /** The amount put into a position: a fraction of the capital. */
  function StakeOf(capital: real, fraction: real): real
  {
    capital * fraction
  }

  /** The exchange fee on an amount at a fee rate. */
  function FeeOn(amount: real, rate: real): real
  {
    amount * rate
  }

  /** How many coins a stake buys at a price. */
  function CoinsFor(stake: real, price: real): real
    requires price != 0.0
  {
    stake / price
  }

  /** What coins sell for at a price. */
  function SaleValue(price: real, coins: real): real
  {
    price * coins
  }

  /** The change from `base` to `now`, in percent. */
  function PercentChange(now: real, base: real): real
    requires base != 0.0
  {
    (now / base - 1.0) * 100.0
  }

  /** `part` as a percentage of `whole`. */
  function PercentOf(part: real, whole: real): real
    requires whole != 0.0
  {
    (part / whole) * 100.0
  }

  /** A closed position, as the exit branch computes it. */
  datatype Trade = Trade(
    exitTimestamp: int,
    byStoploss: bool,
    exitPrice: real,
    proceeds: real,    // `current_sell`: sale value net of the fee
    profit: real,      // `current_profit`
    percent: real)     // `current_percent`

  /** The price the exit branch sells at: the stoploss when it was hit, the close otherwise. */
  function ExitPrice(b: Bar): real
  {
    if StoplossHit(b) then b.stoploss else b.close
  }

  /** The entry branch: stake the fee-adjusted fraction of the capital at the bar's close. */
  function Enter(s: RunState, b: Bar, cfg: Config): (r: RunState)
    requires b.close != 0.0
    ensures IsLong(r) && r.lastBuyTimestamp == Some(b.timestamp)
    ensures r.totalCapital + r.lastBuyStake == s.totalCapital
    ensures r.lastBuyCoins * b.close == r.lastBuyStake
    ensures r.trades == s.trades && r.cumulativeProfit == s.cumulativeProfit
  {
    var buyAmount := StakeOf(s.totalCapital, cfg.stakeAmount);
    var stake := buyAmount - FeeOn(buyAmount, cfg.tradeFee);
    s.(lastBuyTimestamp := Some(b.timestamp),
       lastBuyStake := stake,
       lastBuyCoins := CoinsFor(stake, b.close),
       totalCapital := s.totalCapital - stake)
  }

  /** The trade the exit branch closes on bar `b`. */
  function ClosingTrade(s: RunState, b: Bar, cfg: Config): (t: Trade)
    requires s.lastBuyStake != 0.0
    ensures t.exitTimestamp == b.timestamp && t.byStoploss == StoplossHit(b)
    ensures t.exitPrice == (if StoplossHit(b) then b.stoploss else b.close)
    ensures t.profit == t.proceeds - s.lastBuyStake
    ensures t.percent * s.lastBuyStake == t.profit * 100.0
  {
    var price := ExitPrice(b);
    var sellAmount := SaleValue(price, s.lastBuyCoins);
    var currentSell := sellAmount - FeeOn(sellAmount, cfg.tradeFee);
    Trade(b.timestamp, StoplossHit(b), price, currentSell, currentSell - s.lastBuyStake,
          PercentChange(currentSell, s.lastBuyStake))
  }

  /** The bookkeeping of the exit branch once trade `t` is closed. */
  function Exit(s: RunState, t: Trade): (r: RunState)
    ensures !IsLong(r) && r.lastBuyStake == 0.0 && r.lastBuyCoins == 0.0
    ensures r.trades == s.trades + 1 && r.wins + r.losses == s.wins + s.losses + 1
    ensures r.totalGained + r.totalLost - r.cumulativeProfit
         == s.totalGained + s.totalLost - s.cumulativeProfit
    ensures t.profit == t.proceeds - s.lastBuyStake ==>
              r.totalCapital + r.lastBuyStake - r.cumulativeProfit
              == s.totalCapital + s.lastBuyStake - s.cumulativeProfit
    ensures r.highestWinner >= s.highestWinner && r.highestLoser <= s.highestLoser
    ensures r.rejectedSignals == s.rejectedSignals
  {
    var win := t.profit > 0.0;
    s.(totalCapital := s.totalCapital + t.proceeds,
       cumulativeProfit := s.cumulativeProfit + t.profit,
       cumulativePercent := s.cumulativePercent + t.percent,
       wins := if win then s.wins + 1 else s.wins,
       losses := if win then s.losses else s.losses + 1,
       totalGained := if win then s.totalGained + t.profit else s.totalGained,
       totalLost := if win then s.totalLost else s.totalLost + t.profit,
       highestWinner := if win && t.profit > s.highestWinner then t.profit else s.highestWinner,
       highestWinnerTimestamp :=
         if win && t.profit > s.highestWinner then Some(t.exitTimestamp)
         else s.highestWinnerTimestamp,
       highestLoser := if !win && t.profit < s.highestLoser then t.profit else s.highestLoser,
       highestLoserTimestamp :=
         if !win && t.profit < s.highestLoser then Some(t.exitTimestamp)
         else s.highestLoserTimestamp,
       stoplossHits := if t.byStoploss then s.stoplossHits + 1 else s.stoplossHits,
       trades := s.trades + 1,
       lastBuyTimestamp := None,
       lastBuyStake := 0.0,
       lastBuyCoins := 0.0)
  }

  /** The locals after one bar, and the trade that bar closed, if any. */
  datatype Stepped = Stepped(next: RunState, closed: Option<Trade>)

  /**
   * One iteration of the loop body before the capital-floor test: the entry branch when the
   * bar signals a buy while flat; otherwise the exit branch on a sell while long or on any
   * stoploss hit; otherwise nothing.
   */
  function Step(s: RunState, b: Bar, cfg: Config): (r: Result<Stepped, BacktestError>)
    ensures r.Err? ==> r.error == ZeroClose(b.timestamp) || r.error == ZeroStake(b.timestamp)
    ensures r.Err? <==>
              || (BuySignal(b) && !IsLong(s) && b.close == 0.0)
              || (!(BuySignal(b) && !IsLong(s)) && ((SellSignal(b) && IsLong(s)) || StoplossHit(b))
                  && s.lastBuyStake == 0.0)
    ensures r.Ok? ==>
              (IsLong(r.value.next) <==> (IsLong(s) && r.value.closed.None?) || (!IsLong(s) && BuySignal(b)))
    ensures r.Ok? ==> r.value.next.trades == s.trades + |OptionToSeq(r.value.closed)|
  {
    if BuySignal(b) && !IsLong(s) then
      if b.close == 0.0 then Err(ZeroClose(b.timestamp))
      else Ok(Stepped(Enter(s, b, cfg), None))
    else if (SellSignal(b) && IsLong(s)) || StoplossHit(b) then
      if s.lastBuyStake == 0.0 then Err(ZeroStake(b.timestamp))
      else
        var t := ClosingTrade(s, b, cfg);
        Ok(Stepped(Exit(s, t), Some(t)))
    else
      Ok(Stepped(s, None))
  }

  /** The capital-floor test that ends the loop after a bar. */
  predicate StopsAfter(s: RunState)
  {
    s.totalCapital < MinimumTradable && !IsLong(s)
  }

  /**
   * A finished replay: the final locals, the trades closed in order, how many bars were
   * processed and whether the capital floor ended the loop early.
   */
  datatype Run = Run(state: RunState, ledger: seq<Trade>, processed: nat, stopped: bool)

  /** The loop over `bars` from the locals `s`. */
  function RunFrom(s: RunState, bars: seq<Bar>, cfg: Config): (r: Result<Run, BacktestError>)
    ensures r.Ok? ==> r.value.state.trades == s.trades + |r.value.ledger|
    ensures r.Ok? ==> |r.value.ledger| <= r.value.processed <= |bars|
    decreases |bars|
  {
    if |bars| == 0 then Ok(Run(s, [], 0, false))
    else
      match Step(s, bars[0], cfg)
      case Err(e) => Err(e)
      case Ok(st) =>
        if StopsAfter(st.next) then Ok(Run(st.next, OptionToSeq(st.closed), 1, true))
        else
          match RunFrom(st.next, bars[1..], cfg)
          case Err(e) => Err(e)
          case Ok(r) => Ok(Run(r.state, OptionToSeq(st.closed) + r.ledger, r.processed + 1, r.stopped))
  }

  /** Only the final locals of the loop, as the `backtest` method keeps them. */
  function FinalState(s: RunState, bars: seq<Bar>, cfg: Config): Result<RunState, BacktestError>
  {
    match RunFrom(s, bars, cfg)
    case Err(e) => Err(e)
    case Ok(r) => Ok(r.state)
  }

  /** The report printed at the end: either "No Trades Made" or the statistics. */
  datatype Summary =
    | NoTradesMade
    | Stats(
        wins: nat,
        losses: nat,
        total: nat,
        winRatio: real,
        totalGained: real,
        totalLost: real,
        bestProfit: real,
        bestTimestamp: Option<int>,
        worstProfit: real,
        worstTimestamp: Option<int>,
        totalBalance: real,
        totalProfitAbsolute: real,
        totalProfitPercent: real,
        cumulativeProfit: real,
        cumulativePercent: real,
        rejectedSignals: nat,
        stoplossHits: nat)

  /**
   * The summary after the loop: with at least one trade the open stake is folded back into
   * the capital and the totals are derived; with none the report says so.
   */
  function Summarize(s: RunState, cfg: Config): (r: Result<Summary, BacktestError>)
    ensures r == Ok(NoTradesMade) <==> s.trades == 0
    ensures r.Err? <==> s.trades > 0 && cfg.capital == 0.0
    ensures r.Ok? && r.value.Stats? ==>
              && r.value.total == s.wins + s.losses
              && r.value.totalBalance == s.totalCapital + s.lastBuyStake
              && r.value.totalProfitAbsolute == r.value.totalBalance - cfg.capital
  {
    if s.trades > 0 then
      var balance := s.totalCapital + s.lastBuyStake;
      if cfg.capital == 0.0 then Err(ZeroCapital)
      else
        Ok(Stats(s.wins, s.losses, s.wins + s.losses,
                 PercentOf(s.wins as real, s.trades as real),
                 s.totalGained, s.totalLost,
                 s.highestWinner, s.highestWinnerTimestamp,
                 s.highestLoser, s.highestLoserTimestamp,
                 balance, balance - cfg.capital, PercentChange(balance, cfg.capital),
                 s.cumulativeProfit, s.cumulativePercent,
                 s.rejectedSignals, s.stoplossHits))
    else
      Ok(NoTradesMade)
  }

  /** `backtest` over a bar series: the replay from the initial locals, then the summary. */
  function BacktestSpec(bars: seq<Bar>, cfg: Config): (r: Result<Summary, BacktestError>)
    ensures FinalState(Initial(cfg), bars, cfg).Err? ==> r == Err(FinalState(Initial(cfg), bars, cfg).error)
    ensures r.Ok? ==> FinalState(Initial(cfg), bars, cfg).Ok?
    ensures r.Ok? ==> (r.value.NoTradesMade? <==> FinalState(Initial(cfg), bars, cfg).value.trades == 0)
  {
    match FinalState(Initial(cfg), bars, cfg)
    case Err(e) => Err(e)
    case Ok(s) => Summarize(s, cfg)
  }
}
