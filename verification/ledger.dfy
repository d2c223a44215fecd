/** The position ledger kept by `on_trade`: the volume-weighted average
    entry price, the signed position, and the cumulative realised profit. */
module PositionLedger {

  import opened Orders

  datatype Ledger = Ledger(avgPrice: real, currentPos: real, totalProfit: real)

  /** What a fill needs: a long fill must not bring the position to exactly
      zero, since the average price divides by the new position. */
  predicate CanFill(l: Ledger, trade: Trade)
  {
    trade.direction == Long ==> l.currentPos + trade.volume != 0.0
  }

  /** Books one fill. A long fill folds into the average price, with no
      special case for a flat position; a short fill lowers the position,
      keeps the average price and books the profit against it net of a fee
      charged on both legs at the exit price; a `Net` fill is ignored. */
  function Fill(l: Ledger, trade: Trade, fee: real): (r: Ledger)
    requires CanFill(l, trade)
    ensures trade.direction == Long ==>
      && r.currentPos == l.currentPos + trade.volume
      && r.avgPrice * r.currentPos == l.avgPrice * l.currentPos + trade.price * trade.volume
      && r.totalProfit == l.totalProfit
    ensures trade.direction == Long && l.currentPos == 0.0 ==> r.avgPrice == trade.price
    ensures trade.direction == Short ==>
      && r.currentPos == l.currentPos - trade.volume
      && r.avgPrice == l.avgPrice
      && r.totalProfit == l.totalProfit + (trade.price - l.avgPrice) * trade.volume
                          - trade.volume * trade.price * 2.0 * fee
    ensures trade.direction == Net ==> r == l
  {
    match trade.direction
    case Long =>
      var total := l.avgPrice * l.currentPos + trade.price * trade.volume;
      var pos := l.currentPos + trade.volume;
      Ledger(total / pos, pos, l.totalProfit)
    case Short =>
      var profit := (trade.price - l.avgPrice) * trade.volume - trade.volume * trade.price * 2.0 * fee;
      Ledger(l.avgPrice, l.currentPos - trade.volume, l.totalProfit + profit)
    case Net => l
  }

  /** Every fill is a long fill of positive volume. */
  predicate LongFills(trades: seq<Trade>)
  {
    forall i :: 0 <= i < |trades| ==> trades[i].direction == Long && trades[i].volume > 0.0
  }

  /** Total cost `sum(price * volume)` of a run of fills. */
  function Cost(trades: seq<Trade>): real
  {
    if |trades| == 0 then 0.0
    else Cost(trades[..|trades| - 1]) + trades[|trades| - 1].price * trades[|trades| - 1].volume
  }

  /** Total volume of a run of fills. */
  function Quantity(trades: seq<Trade>): real
  {
    if |trades| == 0 then 0.0
    else Quantity(trades[..|trades| - 1]) + trades[|trades| - 1].volume
  }

  lemma LongFillsPrefix(trades: seq<Trade>)
    requires LongFills(trades) && |trades| > 0
    ensures LongFills(trades[..|trades| - 1])
  {
    var prefix := trades[..|trades| - 1];
    forall i | 0 <= i < |prefix| ensures prefix[i].direction == Long && prefix[i].volume > 0.0 {
      assert prefix[i] == trades[i];
    }
  }

  /** Books a run of long fills, oldest first. From a non-negative position
      no fill divides by zero, and `avg_price * current_pos` stays the old
      value plus the cost of the fills: the running cost basis. */
  function ApplyLongFills(l: Ledger, trades: seq<Trade>, fee: real): (r: Ledger)
    requires l.currentPos >= 0.0 && LongFills(trades)
    ensures r.currentPos == l.currentPos + Quantity(trades)
    ensures r.avgPrice * r.currentPos == l.avgPrice * l.currentPos + Cost(trades)
    ensures r.currentPos >= l.currentPos
    ensures |trades| > 0 ==> r.currentPos > 0.0
    ensures r.totalProfit == l.totalProfit
    decreases |trades|
  {
    if |trades| == 0 then l
    else
      LongFillsPrefix(trades);
      var r0 := ApplyLongFills(l, trades[..|trades| - 1], fee);
      Fill(r0, trades[|trades| - 1], fee)
  }

  /** From a flat position, the average price after a run of long fills is
      their volume-weighted average price. */
  lemma AverageIsVolumeWeighted(l: Ledger, trades: seq<Trade>, fee: real)
    requires l.currentPos == 0.0 && LongFills(trades) && |trades| > 0
    ensures ApplyLongFills(l, trades, fee).currentPos == Quantity(trades)
    ensures ApplyLongFills(l, trades, fee).avgPrice == Cost(trades) / Quantity(trades)
  {
    var r := ApplyLongFills(l, trades, fee);
    assert r.avgPrice * r.currentPos == Cost(trades);
  }

  /** The realised profit of an exit fill: average 100, 10 units sold at 110
      with a 0.075% fee books 100 - 1.65 = 98.35. */
  lemma ExitProfitExample(l: Ledger)
    requires l.avgPrice == 100.0
    ensures Fill(l, Trade(Short, 110.0, 10.0), 0.00075).totalProfit == l.totalProfit + 98.35
  {
  }

}
