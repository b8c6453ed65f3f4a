/**
 * Aggregates over the sequence of closed trades, each defined by recursion on the last
 * trade so that closing one more trade extends it by one step, as the replay loop's
 * running counters do. `BotProperties` proves that the counters equal these aggregates.
 */
module TradeStats {
  import opened Wrappers
  import opened BotModel

  predicate IsWin(t: Trade)
  {
    t.profit > 0.0
  }

  function CountWins(ledger: seq<Trade>): nat
  {
    if |ledger| == 0 then 0
    else CountWins(ledger[..|ledger| - 1]) + (if IsWin(ledger[|ledger| - 1]) then 1 else 0)
  }

  function CountLosses(ledger: seq<Trade>): nat
  {
    if |ledger| == 0 then 0
    else CountLosses(ledger[..|ledger| - 1]) + (if IsWin(ledger[|ledger| - 1]) then 0 else 1)
  }

  function CountStoploss(ledger: seq<Trade>): nat
  {
    if |ledger| == 0 then 0
    else CountStoploss(ledger[..|ledger| - 1]) + (if ledger[|ledger| - 1].byStoploss then 1 else 0)
  }

  function SumProfit(ledger: seq<Trade>): real
  {
    if |ledger| == 0 then 0.0 else SumProfit(ledger[..|ledger| - 1]) + ledger[|ledger| - 1].profit
  }

  function SumPercent(ledger: seq<Trade>): real
  {
    if |ledger| == 0 then 0.0 else SumPercent(ledger[..|ledger| - 1]) + ledger[|ledger| - 1].percent
  }

  /** The profits of the winning trades, summed. */
  function SumGained(ledger: seq<Trade>): real
  {
    if |ledger| == 0 then 0.0
    else
      var t := ledger[|ledger| - 1];
      SumGained(ledger[..|ledger| - 1]) + (if IsWin(t) then t.profit else 0.0)
  }

  /** The profits of the losing trades (zero or negative), summed. */
  function SumLost(ledger: seq<Trade>): real
  {
    if |ledger| == 0 then 0.0
    else
      var t := ledger[|ledger| - 1];
      SumLost(ledger[..|ledger| - 1]) + (if IsWin(t) then 0.0 else t.profit)
  }

  /** A best or worst performer: its profit and the timestamp of the bar that closed it. */
  datatype Extreme = Extreme(value: real, at: Option<int>)

  /** The largest winning profit, the earliest trade reaching it; (0, None) when none won. */
  function Best(ledger: seq<Trade>): Extreme
  {
    if |ledger| == 0 then Extreme(0.0, None)
    else
      var b := Best(ledger[..|ledger| - 1]);
      var t := ledger[|ledger| - 1];
      if IsWin(t) && t.profit > b.value then Extreme(t.profit, Some(t.exitTimestamp)) else b
  }

  /** The most negative losing profit, the earliest trade reaching it; (0, None) when none lost money. */
  function Worst(ledger: seq<Trade>): Extreme
  {
    if |ledger| == 0 then Extreme(0.0, None)
    else
      var w := Worst(ledger[..|ledger| - 1]);
      var t := ledger[|ledger| - 1];
      if !IsWin(t) && t.profit < w.value then Extreme(t.profit, Some(t.exitTimestamp)) else w
  }

  /** Every trade is exactly one of a win or a loss. */
  lemma {:induction false} WinsAndLossesPartition(ledger: seq<Trade>)
    ensures CountWins(ledger) + CountLosses(ledger) == |ledger|
  {
    if |ledger| > 0 {
      WinsAndLossesPartition(ledger[..|ledger| - 1]);
    }
  }

  /** What was gained and what was lost add up to the total profit. */
  lemma {:induction false} GainedAndLostPartition(ledger: seq<Trade>)
    ensures SumGained(ledger) + SumLost(ledger) == SumProfit(ledger)
    ensures SumGained(ledger) >= 0.0
    ensures SumLost(ledger) <= 0.0
  {
    if |ledger| > 0 {
      GainedAndLostPartition(ledger[..|ledger| - 1]);
    }
  }

  /**
   * The best performer is the maximum winning profit: at least every winner's profit,
   * reached by the trade whose timestamp it records, every earlier winner falling short of it
   * (a tie keeps the earliest trade), and (0, None) exactly when no trade won.
   */
  lemma {:induction false} BestIsMaximum(ledger: seq<Trade>)
    ensures Best(ledger).value >= 0.0
    ensures forall i :: 0 <= i < |ledger| && IsWin(ledger[i]) ==> ledger[i].profit <= Best(ledger).value
    ensures Best(ledger).at.None? <==> forall i :: 0 <= i < |ledger| ==> !IsWin(ledger[i])
    ensures Best(ledger).at.None? ==> Best(ledger).value == 0.0
    ensures Best(ledger).at.Some? ==>
              exists i :: 0 <= i < |ledger| && IsWin(ledger[i])
                          && ledger[i].profit == Best(ledger).value
                          && ledger[i].exitTimestamp == Best(ledger).at.value
                          && forall j :: 0 <= j < i && IsWin(ledger[j]) ==> ledger[j].profit < Best(ledger).value
  {
    if |ledger| > 0 {
      var init := ledger[..|ledger| - 1];
      BestIsMaximum(init);
      assert forall i :: 0 <= i < |init| ==> init[i] == ledger[i];
      var b := Best(init);
      var t := ledger[|ledger| - 1];
      if IsWin(t) && t.profit > b.value {
        assert IsWin(ledger[|ledger| - 1]) && ledger[|ledger| - 1].profit == Best(ledger).value;
      } else if b.at.Some? {
        var i :| 0 <= i < |init| && IsWin(init[i]) && init[i].profit == b.value
                 && init[i].exitTimestamp == b.at.value
                 && forall j :: 0 <= j < i && IsWin(init[j]) ==> init[j].profit < b.value;
        assert ledger[i] == init[i];
      }
    }
  }

  /**
   * The worst performer is the minimum losing profit: at most every loser's profit, reached
   * by the trade whose timestamp it records, every earlier loser staying above it (a tie keeps
   * the earliest trade), and (0, None) exactly when no trade lost money.
   */
  lemma {:induction false} WorstIsMinimum(ledger: seq<Trade>)
    ensures Worst(ledger).value <= 0.0
    ensures forall i :: 0 <= i < |ledger| && !IsWin(ledger[i]) ==> Worst(ledger).value <= ledger[i].profit
    ensures Worst(ledger).at.None? <==> forall i :: 0 <= i < |ledger| ==> ledger[i].profit >= 0.0
    ensures Worst(ledger).at.None? ==> Worst(ledger).value == 0.0
    ensures Worst(ledger).at.Some? ==>
              exists i :: 0 <= i < |ledger| && !IsWin(ledger[i])
                          && ledger[i].profit == Worst(ledger).value
                          && ledger[i].exitTimestamp == Worst(ledger).at.value
                          && forall j :: 0 <= j < i && !IsWin(ledger[j]) ==> ledger[j].profit > Worst(ledger).value
  {
    if |ledger| > 0 {
      var init := ledger[..|ledger| - 1];
      WorstIsMinimum(init);
      assert forall i :: 0 <= i < |init| ==> init[i] == ledger[i];
      var w := Worst(init);
      var t := ledger[|ledger| - 1];
      if !IsWin(t) && t.profit < w.value {
        assert !IsWin(ledger[|ledger| - 1]) && ledger[|ledger| - 1].profit == Worst(ledger).value;
      } else if w.at.Some? {
        var i :| 0 <= i < |init| && !IsWin(init[i]) && init[i].profit == w.value
                 && init[i].exitTimestamp == w.at.value
                 && forall j :: 0 <= j < i && !IsWin(init[j]) ==> init[j].profit > w.value;
        assert ledger[i] == init[i];
      }
    }
  }

  /** A trade that breaks even counts as a loss but leaves the worst performer as it was. */
  lemma BreakEvenLeavesWorst(ledger: seq<Trade>, t: Trade)
    requires t.profit == 0.0
    ensures Worst(ledger + [t]) == Worst(ledger)
    ensures CountLosses(ledger + [t]) == CountLosses(ledger) + 1
  {
    assert (ledger + [t])[..|ledger|] == ledger;
    WorstIsMinimum(ledger);
  }
}
