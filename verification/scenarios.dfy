/** End-to-end traces of the strategy on a two-bar window with a two-bar
    channel: a drawdown entry, its fill, a profitable exit and its fill; and
    from the same filled entry a further dip and bounce that adds to the
    position. Each step is stated as a transition between explicit states. */
module Scenarios {

  import opened Options
  import opened Orders
  import opened RollingWindow
  import opened Indicators
  import opened PositionLedger
  import opened Martingale

  /** The class defaults with a two-bar channel. */
  const P: Params := Defaults.(donchianWindow := 2)

  /** The engine's active statuses: submitting, not traded, part traded. */
  const EngineActive: Status -> bool := st => st == Submitting || st == NotTraded || st == PartTraded

  /** A bar whose open, high and close coincide. */
  function Candle(close: real, low: real): Bar
  {
    Bar(close, close, low, close, 1.0, 0.0)
  }

  /** The all-zero bar a fresh window is filled with. */
  const Zero: Bar := Bar(0.0, 0.0, 0.0, 0.0, 0.0, 0.0)

  // ---------------------------------------------------------------------
  // Two-bar windows
  // ---------------------------------------------------------------------

  /** A two-bar window that has absorbed `count` bars, the last two being
      `a` then `b`. */
  function Pair(count: nat, a: Bar, b: Bar): (w: Window)
    ensures w.Valid() && w.size == 2
  {
    Window(count, 2, count >= 2,
           [a.open, b.open], [a.high, b.high], [a.low, b.low],
           [a.close, b.close], [a.volume, b.volume], [a.openInterest, b.openInterest])
  }

  /** A fresh two-bar window holds two zero bars. */
  lemma FreshPair()
    ensures NewWindow(2) == Pair(0, Zero, Zero)
  {
    var w := NewWindow(2);
    forall f: Field ensures w.Array(f) == [0.0, 0.0] {
      assert w.Array(f)[0] == 0.0 && w.Array(f)[1] == 0.0;
    }
    assert w.openArray == w.Array(Open);
  }

  /** A bar pushes the older bar out of a two-bar window. */
  lemma PairShifts(count: nat, a: Bar, b: Bar, c: Bar)
    ensures UpdateBar(Pair(count, a, b), c) == Pair(count + 1, b, c)
  {
    var u := UpdateBar(Pair(count, a, b), c);
    var v := Pair(count + 1, b, c);
    forall f: Field ensures u.Array(f) == v.Array(f) {
      assert u.Array(f)[0] == Pair(count, a, b).Array(f)[1];
    }
    assert u.openArray == u.Array(Open) && v.openArray == v.Array(Open);
    assert u.highArray == u.Array(High) && v.highArray == v.Array(High);
    assert u.lowArray == u.Array(Low) && v.lowArray == v.Array(Low);
    assert u.closeArray == u.Array(Close) && v.closeArray == v.Array(Close);
    assert u.volumeArray == u.Array(Volume) && v.volumeArray == v.Array(Volume);
    assert u.openInterestArray == u.Array(OpenInterest) && v.openInterestArray == v.Array(OpenInterest);
  }

  /** The two-bar channel of a two-bar window spans both bars. */
  lemma PairChannel(count: nat, a: Bar, b: Bar)
    ensures Donchian(Pair(count, a, b), 2)
         == Some(Channel(if b.high > a.high then b.high else a.high,
                         if b.low < a.low then b.low else a.low))
  {
    var w := Pair(count, a, b);
    assert w.highArray[0..] == w.highArray;
    assert w.lowArray[0..] == w.lowArray;
    assert w.highArray[..1] == [a.high];
    assert w.lowArray[..1] == [a.low];
  }

  // ---------------------------------------------------------------------
  // Entry
  // ---------------------------------------------------------------------

  /** After one bar at 100: still warming up. */
  function Warm(): State
  {
    Init(2).(window := Pair(1, Zero, Candle(100.0, 100.0)))
  }

  /** After the entry at 96: the channel spans 100..96, a buy is tracked,
      the cycle counters are reset. */
  function Entered(): State
  {
    State(Pair(2, Candle(100.0, 100.0), Candle(96.0, 96.0)), Ledger(0.0, 0.0, 0.0),
          0.0, 0, Some(Channel(100.0, 96.0)), 0.0, ["b1"], [])
  }

  /** The first bar only fills the window: no intents, nothing else moves. */
  lemma WarmUpWaits()
    ensures OnBar(P, Init(2), Candle(100.0, 100.0), [], []) == Step(Warm(), [])
  {
    FreshPair();
    PairShifts(0, Zero, Zero, Candle(100.0, 100.0));
  }

  /** A bar at 96 after one at 100: the drawdown 100/96 - 1 (about 4.17%)
      reaches the 4% threshold, so the flat strategy cancels everything and
      buys 1000/96 at 96. */
  lemma DrawdownOpensPosition()
    ensures OnBar(P, Warm(), Candle(96.0, 96.0), ["b1"], [])
         == Step(Entered(), [CancelAll, SubmitBuy(96.0, 1000.0 / 96.0)])
  {
    var bar := Candle(96.0, 96.0);
    PairShifts(1, Zero, Candle(100.0, 100.0), bar);
    PairChannel(2, Candle(100.0, 100.0), bar);
    assert Flat(P, Warm(), bar);
    assert EntryGate(P, Warm(), bar);
  }

  /** After the entry order fills completely on the order side. */
  function Ordered(): State
  {
    Entered().(increasePosTimes := 1, lastEntryPrice := 96.0, entryLowest := 96.0, buyOrders := [])
  }

  /** After the entry trade: 1000/96 held at an average price of 96. */
  function Filled(): State
  {
    Ordered().(ledger := Ledger(96.0, 1000.0 / 96.0, 0.0))
  }

  /** The filled buy leaves the buy list, counts as the first increase and
      starts tracking lows from its price. */
  lemma EntryOrderFills()
    ensures OnOrder(Entered(), Order("b1", AllTraded, Long, 96.0), EngineActive) == Ordered()
  {
    var r := OnOrder(Entered(), Order("b1", AllTraded, Long, 96.0), EngineActive);
    assert |r.buyOrders| == |RemoveFirst(["b1"], "b1")| == 0;
  }

  /** The first fill sets the average price to the fill price. */
  lemma EntryTradeFills()
    ensures OnTrade(P, Ordered(), Trade(Long, 96.0, 1000.0 / 96.0)) == Filled()
  {
  }

  // ---------------------------------------------------------------------
  // Exit
  // ---------------------------------------------------------------------

  /** After the exit signal at 97.92: a short is tracked. */
  function Exiting(): State
  {
    Filled().(window := Pair(3, Candle(96.0, 96.0), Candle(97.92, 97.92)),
              channel := Some(Channel(97.92, 96.0)),
              sellOrders := ["s1"])
  }

  /** A close of 97.92 is exactly 2% above the average 96: the strategy
      sells the whole position at the close; the increase gate stays shut
      because the price never fell below the last entry. */
  lemma ProfitTargetClosesPosition()
    ensures OnBar(P, Filled(), Candle(97.92, 97.92), [], ["s1"])
         == Step(Exiting(), [CancelAll, SubmitShort(97.92, 1000.0 / 96.0)])
  {
    var s := Filled();
    var bar := Candle(97.92, 97.92);
    PairShifts(2, Candle(100.0, 100.0), Candle(96.0, 96.0), bar);
    PairChannel(3, Candle(96.0, 96.0), bar);
    assert !Flat(P, s, bar);
    assert ExitGate(P, s, bar);
    assert TrackedLowest(s, bar) == 96.0;
    assert !IncreaseGate(P, s, bar);
  }

  /** The exit fills: the short leaves the sell list, the position is flat
      again and the books gain
      (97.92 - 96) * 1000/96 - 1020 * 2 * 0.00075 = 18.47. */
  lemma ExitFillBooksProfit()
    ensures var ordered := OnOrder(Exiting(), Order("s1", AllTraded, Short, 97.92), EngineActive);
      && ordered == Exiting().(sellOrders := [])
      && OnTrade(P, ordered, Trade(Short, 97.92, 1000.0 / 96.0)).ledger == Ledger(96.0, 0.0, 18.47)
  {
    var ordered := OnOrder(Exiting(), Order("s1", AllTraded, Short, 97.92), EngineActive);
    assert |ordered.sellOrders| == |RemoveFirst(["s1"], "s1")| == 0;
  }

  // ---------------------------------------------------------------------
  // Increase
  // ---------------------------------------------------------------------

  /** After a dip to 90: nothing is submitted, the lowest low is 90. */
  function Dipped(): State
  {
    Filled().(window := Pair(3, Candle(96.0, 96.0), Candle(90.0, 90.0)),
              channel := Some(Channel(96.0, 90.0)),
              entryLowest := 90.0)
  }

  /** From the filled entry the price dips to 90, 6.25% under the last
      entry: with no bounce yet nothing happens, but the lowest low since
      the entry is now 90. */
  lemma DipWaits()
    ensures OnBar(P, Filled(), Candle(90.0, 90.0), [], []) == Step(Dipped(), [])
  {
    var s := Filled();
    var bar := Candle(90.0, 90.0);
    PairShifts(2, Candle(100.0, 100.0), Candle(96.0, 96.0), bar);
    PairChannel(3, Candle(96.0, 96.0), bar);
    assert !Flat(P, s, bar);
    assert !ExitGate(P, s, bar);
    assert TrackedLowest(s, bar) == 90.0;
    assert !IncreaseGate(P, s, bar);
  }

  /** Then a close at 91.5, 1.67% off the low: the strategy adds the second
      step of the ladder, 1000 * 1.3, at the close, and tracks the buy. */
  lemma BounceAddsToPosition()
    ensures OnBar(P, Dipped(), Candle(91.5, 91.5), ["b2"], [])
         == Step(Dipped().(window := Pair(4, Candle(90.0, 90.0), Candle(91.5, 91.5)),
                           channel := Some(Channel(91.5, 90.0)),
                           buyOrders := ["b2"]),
                 [CancelAll, SubmitBuy(91.5, 1000.0 * 1.3 / 91.5)])
  {
    var s := Dipped();
    var bar := Candle(91.5, 91.5);
    PairShifts(3, Candle(96.0, 96.0), Candle(90.0, 90.0), bar);
    PairChannel(4, Candle(90.0, 90.0), bar);
    assert !Flat(P, s, bar);
    assert !ExitGate(P, s, bar);
    assert TrackedLowest(s, bar) == 90.0;
    assert IncreaseGate(P, s, bar);
    assert IncreaseValue(P, 1) == 1000.0 * 1.3;
  }

}
