# Martingale position-averaging strategy, modelled in Dafny

This project models the trading core of `MartingleSpotStrategyV2` in
`class_25/strategies/martingle_future_strategyV2.py`. The core has three
parts, which fit together:

- **The rolling bar window `MyArrayManager`** (module `RollingWindow`,
  `window.dfy`). It keeps six parallel arrays of fixed length: open, high,
  low, close, volume and open interest. `update_bar` shifts every array left
  by one and writes the new bar into the last slot. A bar counter and an
  `inited` latch tell when the window is full.
- **The Donchian channel `donchian`** (module `Indicators`,
  `indicators.dfy`). The upper band is the highest of the last `n` highs and
  the lower band the lowest of the last `n` lows. The rolling max/min
  accept periods from 2 to 100000 and raise on any other. `None` stands for
  the not-a-number they return when `n` is larger than `size`.
- **The strategy's three callbacks**, each a pure transition (module
  `Martingale`, `strategy.dfy`):
  - `on_bar` returns the next state and the order intents it emits: cancel
    all, buy at a price and volume, or short at a price and volume.
  - `on_order` updates the increase counter and the order-id lists.
  - `on_trade` books fills in the position ledger (module `PositionLedger`,
    `ledger.dfy`), which holds the average price, the position and the
    realised profit.

The order ids the engine hands back for a submitted order are inputs to
`OnBar`: `buyIds` for a buy submitted on that bar, `sellIds` for a short.
`OrderData.is_active()` is a parameter of `OnOrder`, a predicate on the
order status, because its definition is not part of this model. Prices and
volumes are exact reals.

`properties.dfy` (module `MartingaleProperties`) states what `on_bar` does
across its branches and across events:
- exactly when a buy or a short is emitted;
- every order follows a cancel-all;
- an outstanding buy (or short) blocks the next one;
- an increase buy, its fill and a later increase buy climb the martingale
  ladder by one step of `trading_value_multiplier`.

`scenarios.dfy` (module `Scenarios`) follows one full cycle on a two-bar window
with a two-bar channel and the class defaults otherwise. Each step is proved
as a transition between explicit states: warm-up, drawdown entry, the entry
fill, the profit exit with its booked profit, and a dip-and-bounce increase.

Division guards become preconditions:
- `on_bar` needs a positive low and close once the window is ready (lines
  645, 662, 689), and then a channel period from 2 to 100000.
- `on_trade` needs a long fill not to bring the position to exactly zero
  (line 723).
- `update_bar` needs a window of at least one slot. With size zero the
  write to the last slot raises, and `on_bar` reads `close_array[-1]`.

Three details of the code that the model keeps:
- The code does not special-case a long fill into a flat position. It
  computes `(avg*0 + p*q)/q`, and `PositionLedger.Fill` proves this equals
  `p`.
- The exit fill leaves `avg_price` unchanged. The next flat entry resets it
  to 0 in `on_bar` (line 658), not in the fill.
- The code does not keep the position non-negative. A short fill lowers it
  by the fill volume, whatever the position is.

## Model

| member | source | states |
|---|---|---|
| RollingWindow.NewWindow | class_25/strategies/martingle_future_strategyV2.py:29-40 | a new window has the given size, arrays of that length holding zeros, no bars counted, and is not ready |
| RollingWindow.Shift | class_25/strategies/martingle_future_strategyV2.py:50-62 | the shifted array keeps its length, slot i holds the old slot i+1, and the last slot holds the new value |
| RollingWindow.UpdateBar | class_25/strategies/martingle_future_strategyV2.py:42-62 | the count goes up by one; the window is ready iff it was ready or the count reached the size; each array keeps its length, slot i holds the old slot i+1, and the last slot holds the new bar's field |
| RollingWindow.FeedKeepsLatest | class_25/strategies/martingle_future_strategyV2.py:50-62 | after any run of bars, each array is the old contents followed by the bars' values, cut to the last `size` entries |
| RollingWindow.ReadyNeverReverts | class_25/strategies/martingle_future_strategyV2.py:46-48 | once the window is ready it stays ready whatever bars follow |
| RollingWindow.FreshWindowHoldsLastBars | class_25/strategies/martingle_future_strategyV2.py:29-62 | a fresh window becomes ready exactly on its size-th bar, and from then on holds exactly the last `size` bars in arrival order |
| Indicators.SeqMax | class_25/strategies/martingle_future_strategyV2.py:436 | the rolling maximum's latest value is an element of the lookback and at least every element of it |
| Indicators.SeqMin | class_25/strategies/martingle_future_strategyV2.py:437 | the rolling minimum's latest value is an element of the lookback and at most every element of it |
| Indicators.Donchian | class_25/strategies/martingle_future_strategyV2.py:427-441 | for periods 2 <= n <= 100000, which the rolling max/min accept, a channel exists iff n <= size; its upper band is the highest of the last n highs and its lower band the lowest of the last n lows |
| Indicators.ChannelCoversLatestBar | class_25/strategies/martingle_future_strategyV2.py:436-441 | the channel computed right after a bar spans that bar's high and low |
| Indicators.ChannelOrdered | class_25/strategies/martingle_future_strategyV2.py:436-441 | if every bar in the lookback has low <= high, then the lower band is <= the upper band |
| Orders.RemoveFirst | class_25/strategies/martingle_future_strategyV2.py:707-712 | `list.remove` deletes exactly the first occurrence: the prefix before it is kept, the suffix after it moves up one, and the multiset loses one copy |
| PositionLedger.Fill | class_25/strategies/martingle_future_strategyV2.py:716-731 | long fill: position up by the volume, avg*pos up by price*volume, so from a flat position avg equals the fill price. Short fill: position down by the volume, avg kept, profit up by (price-avg)*volume - volume*price*2*fee. Any other direction changes nothing |
| PositionLedger.ApplyLongFills | class_25/strategies/martingle_future_strategyV2.py:720-723 | over any run of positive long fills from a non-negative position: no division by zero; avg*pos equals the old value plus the fills' total cost; the position grows by their total volume |
| PositionLedger.AverageIsVolumeWeighted | class_25/strategies/martingle_future_strategyV2.py:720-723 | from a flat position, the average price after long fills is their volume-weighted average price |
| PositionLedger.ExitProfitExample | class_25/strategies/martingle_future_strategyV2.py:724-729 | with avg 100, selling 10 at 110 with fee 0.00075 books 98.35 |
| Martingale.Init | class_25/strategies/martingle_future_strategyV2.py:561-595 | a new strategy has a fresh window of the given size (no bars counted, zero arrays, not ready), a zero ledger, a zero increase count, last entry price and entry lowest, both channel bands at 0, and empty order lists |
| Martingale.DefaultWarmUp | class_25/strategies/martingle_future_strategyV2.py:636-643 | with the class's 3000-bar window (line 588) and the default 2880-bar channel (line 548), the window becomes ready exactly on its 3000th bar, and from then on the channel exists |
| Martingale.Absorb | class_25/strategies/martingle_future_strategyV2.py:635-648 | a ready bar updates the window, recomputes the channel over the new window, and keeps entry_lowest at min(entry_lowest, low) only while it is positive |
| Martingale.EntryStep | class_25/strategies/martingle_future_strategyV2.py:653-664 | when the upper band is at least open_pos_when_drawdown_pct above the low and no buy is outstanding: exactly cancel-all plus a buy of initial_value/close at the close, with the counter, avg and entry_lowest reset to 0 and the new buy ids tracked; otherwise no intents and no change |
| Martingale.FlatBar | class_25/strategies/martingle_future_strategyV2.py:651-664 | flat branch: when the drawdown gate is open and no buy is outstanding, emits exactly cancel-all plus a buy of initial_value/close at the close, resets the counter, avg and entry_lowest to 0, and tracks the new buy ids; otherwise emits nothing and changes only the tracked fields |
| Martingale.ExitStep | class_25/strategies/martingle_future_strategyV2.py:667-675 | emits cancel-all plus a short of abs(position) at the close exactly when no sell is outstanding, avg > 0 and close/avg - 1 >= exit_profit_pct; only the sell list changes |
| Martingale.IncreaseStep | class_25/strategies/martingle_future_strategyV2.py:677-691 | emits cancel-all plus a buy of initial_value * multiplier^times / close exactly when entry_lowest > 0, no buy is outstanding, times <= max, and both the dump-down and bounce-back thresholds are met; only the buy list changes |
| Martingale.HoldingBar | class_25/strategies/martingle_future_strategyV2.py:665-691 | holding branch: the intents are the exit pair, if its gate is open, followed by the increase pair, if its gate is open (both gates judged on the state before the bar); each list grows by the new ids only when its order is emitted; the ledger is untouched |
| Martingale.OnBar | class_25/strategies/martingle_future_strategyV2.py:631-693 | the window always takes the bar; while not ready there are no intents and no other field changes; once ready the flat or holding branch is taken according to position*close < min_notional; entry_lowest never increases |
| Martingale.OnOrder | class_25/strategies/martingle_future_strategyV2.py:695-714 | a fully traded long increments the counter and sets last_entry_price and entry_lowest to the order price; a finished order's id leaves the sell list if it is there, else the buy list; an active or untracked order leaves both lists alone; nothing else changes |
| Martingale.OnTrade | class_25/strategies/martingle_future_strategyV2.py:716-731 | the ledger books the fill; every other field is unchanged |
| MartingaleProperties.IntentsByCase | class_25/strategies/martingle_future_strategyV2.py:636-691 | the intents of any bar: none while warming up; in the flat branch the entry pair iff the entry gate is open; in the holding branch the exit pair then the increase pair, each iff its gate is open |
| MartingaleProperties.ExitExactly | class_25/strategies/martingle_future_strategyV2.py:665-675 | a short is emitted iff the window is ready and the exit gate is open, and every short is for abs(position) at the close |
| MartingaleProperties.BuyExactly | class_25/strategies/martingle_future_strategyV2.py:651-691 | a buy is emitted iff the window is ready and either the flat-entry gate or the increase gate is open |
| MartingaleProperties.NoIncreaseBeyondCap | class_25/strategies/martingle_future_strategyV2.py:683 | while holding, no buy is ever emitted once the increase count exceeds its cap |
| MartingaleProperties.NoExitWithoutAveragePrice | class_25/strategies/martingle_future_strategyV2.py:667 | no short is emitted while avg_price <= 0 |
| MartingaleProperties.CancelPairsConcat | class_25/strategies/martingle_future_strategyV2.py:673-691 | two runs of cancel-all/order pairs in a row are again such a run |
| MartingaleProperties.OrdersFollowCancelAll | class_25/strategies/martingle_future_strategyV2.py:653-691 | the intents of any bar are at most two pairs, each a cancel-all followed by one order |
| MartingaleProperties.OutstandingBuyBlocksNextBuy | class_25/strategies/martingle_future_strategyV2.py:653-691 | if a bar emits a buy and the engine returns ids for it, the next bar emits no buy |
| MartingaleProperties.OutstandingShortBlocksNextShort | class_25/strategies/martingle_future_strategyV2.py:667-675 | if a bar emits a short and the engine returns ids for it, the next bar emits no short |
| MartingaleProperties.OrderEventsOnlyShrinkLists | class_25/strategies/martingle_future_strategyV2.py:707-712 | order events never add ids; a finished tracked order removes exactly one id from the two lists together |
| MartingaleProperties.IncreaseBuySpends | class_25/strategies/martingle_future_strategyV2.py:677-691 | a bar that finds the increase gate open ends with a buy whose price times volume is initial_value * multiplier^times |
| MartingaleProperties.FillScalesLadder | class_25/strategies/martingle_future_strategyV2.py:677-731 | after an increase buy fills in full (on_order) and its trade is booked (on_trade), the next increase value is that buy's price times volume times the multiplier |
| MartingaleProperties.IncreaseLadderSteps | class_25/strategies/martingle_future_strategyV2.py:677-731 | an increase buy on one bar, its full fill reported to on_order and booked by on_trade, then a later bar that finds the increase gate open: both bars end with a buy, and the second buy's price times volume is the first's times trading_value_multiplier |
| Scenarios.PairShifts | class_25/strategies/martingle_future_strategyV2.py:50-62 | in a two-bar window a new bar pushes out the older one |
| Scenarios.PairChannel | class_25/strategies/martingle_future_strategyV2.py:436-441 | the two-bar channel of a two-bar window spans both bars |
| Scenarios.WarmUpWaits | class_25/strategies/martingle_future_strategyV2.py:636-638 | the first bar into a fresh two-bar window emits nothing and changes only the window |
| Scenarios.DrawdownOpensPosition | class_25/strategies/martingle_future_strategyV2.py:640-664 | a bar at 96 after one at 100 opens the cycle: cancel-all, buy 1000/96 at 96, channel 100..96, buy id tracked |
| Scenarios.EntryOrderFills | class_25/strategies/martingle_future_strategyV2.py:699-712 | the filled entry buy leaves the buy list, sets the counter to 1 and sets last entry and entry lowest to 96 |
| Scenarios.EntryTradeFills | class_25/strategies/martingle_future_strategyV2.py:720-723 | the first fill sets the average price to the fill price 96 |
| Scenarios.ProfitTargetClosesPosition | class_25/strategies/martingle_future_strategyV2.py:665-691 | a close of 97.92 (exactly 2% over the average) emits cancel-all and a short of the whole position, and no increase |
| Scenarios.ExitFillBooksProfit | class_25/strategies/martingle_future_strategyV2.py:707-729 | the exit fill empties the sell list, flattens the position and books a profit of 18.47 |
| Scenarios.DipWaits | class_25/strategies/martingle_future_strategyV2.py:647-691 | a dip to 90 emits nothing and lowers entry_lowest to 90 |
| Scenarios.BounceAddsToPosition | class_25/strategies/martingle_future_strategyV2.py:677-691 | a bounce to 91.5 after the dip buys 1000*1.3/91.5 at 91.5 |

## Left out

- The talib wrapper indicators (`sma` through `bop`, including `boll`,
  `keltner` and `aroon`) and the array properties: the strategy never uses
  them, and they wrap a floating-point library that is not part of this
  model. Only `donchian`'s max/min meaning is modelled, with `array=False`.
- The `array=True` mode of `donchian`, which returns whole series: the
  strategy only reads the latest value.
- Engine glue: `on_init`/`load_bar`, `on_start`, `on_stop`, `on_tick`,
  `on_stop_order`, `put_event`, `write_log` and the commented-out account
  registration. These are I/O and UI.
- The bodies of `buy`, `short` and `cancel_all`, which are order transport.
  They appear only as emitted intents. `cancel_all` does not clear the
  order lists, and neither do the intents.
- `OrderData.is_active()` and the engine's `Status`/`Direction` enums are
  not part of this model. `is_active` is a parameter of `OnOrder`.
- `last_filled_order`, `tick`, `contract` and `account`: the core never
  reads them.
- Floating-point rounding and NaN propagation: the model uses exact reals.
  Only the not-a-number channel of a too-long lookback is kept, as `None`,
  which makes the drawdown gate fail as a NaN comparison does.
- The O(size) cost of the array shift: only its value semantics are modelled.
- Indicators.Donchian: requires a period from 2 to 100000. TA-Lib's rolling
  MAX and MIN reject any other period before looking at the data, so the
  code raises on every ready bar there, even when the period is longer
  than the window; that error path is not modelled.
- Martingale.OnBar: requires a window of at least one slot and, once the
  window is ready, a positive low and close and a channel period from 2 to
  100000. A zero-size window raises on the write to the last slot, and a
  period outside that range raises in the rolling max/min. A zero low or
  close never raises. Line 645 divides by a numpy float and gives inf or
  nan with a warning. A zero close makes `current_pos * close` equal 0,
  which is below `min_notional` (11, line 595), so the flat branch always
  runs (`MartingaleProperties.ZeroCloseIsFlat`). Line 662 then sizes the
  entry buy as `1000/0`, which is inf. A zero low is divided by only at
  line 645: line 648 just takes a minimum, and lines 680-681 are behind
  the guard `entry_lowest > 0`. Negative prices are also excluded, although
  the code accepts them and computes finite percentages.
- Martingale.OnTrade: requires that a long fill does not bring the position
  to exactly zero. The code raises `ZeroDivisionError` there.
