/** The martingale position-averaging strategy (`MartingleSpotStrategyV2`):
    its parameters and state, and its three callbacks as pure transitions.
    `on_bar` returns the new state together with the order intents it
    emitted; the order ids the engine hands back for a submitted order are
    inputs. */
module Martingale {

  import opened Options
  import opened Orders
  import opened RollingWindow
  import opened Indicators
  import opened PositionLedger

  /** Strategy parameters, plus the `min_notional` floor set in the
      constructor. */
  datatype Params = Params(
    donchianWindow: int,
    openPosWhenDrawdownPct: real,
    dumpDownPct: real,
    bounceBackPct: real,
    exitProfitPct: real,
    initialTradingValue: real,
    tradingValueMultiplier: real,
    maxIncreasePosTimes: int,
    tradingFee: real,
    minNotional: real)

  /** The class defaults. */
  const Defaults: Params := Params(2880, 0.04, 0.04, 0.01, 0.02, 1000.0, 1.3, 7, 0.00075, 11.0)

  /** Length of the strategy's bar window. */
  const WindowSize: nat := 3000

  /** The strategy's variables. `channel` holds `upband`/`downband`; `None`
      is the library's not-a-number. */
  datatype State = State(
    window: Window,
    ledger: Ledger,
    lastEntryPrice: real,
    increasePosTimes: nat,
    channel: Option<Channel>,
    entryLowest: real,
    buyOrders: seq<OrderId>,
    sellOrders: seq<OrderId>)

  /** The result of `on_bar`: the next state and the intents, in order. */
  datatype Step = Step(state: State, intents: seq<Intent>)

  /** A freshly constructed strategy over a window of `size` bars (the source
      uses `WindowSize`). */
  function Init(size: nat): (s: State)
    ensures s.window == NewWindow(size)
    ensures s.window.Valid() && s.window.size == size && s.window.count == 0 && !s.window.inited
    ensures s.ledger.currentPos == 0.0 && s.ledger.avgPrice == 0.0 && s.ledger.totalProfit == 0.0
    ensures s.lastEntryPrice == 0.0 && s.increasePosTimes == 0 && s.entryLowest == 0.0
    ensures s.channel == Some(Channel(0.0, 0.0))
    ensures s.buyOrders == [] && s.sellOrders == []
  {
    State(NewWindow(size), Ledger(0.0, 0.0, 0.0), 0.0, 0, Some(Channel(0.0, 0.0)), 0.0, [], [])
  }

  /** With the class's window of `WindowSize` bars and the default two-day
      channel, the window becomes ready exactly on its `WindowSize`-th bar,
      and from then on the channel always exists. */
  lemma DefaultWarmUp(bars: seq<Bar>)
    ensures Feed(Init(WindowSize).window, bars).inited <==> |bars| >= WindowSize
    ensures |bars| >= WindowSize ==> Donchian(Feed(Init(WindowSize).window, bars), Defaults.donchianWindow).Some?
  {
    FreshWindowHoldsLastBars(WindowSize, bars, High);
  }

  function Abs(x: real): real
  {
    if x < 0.0 then -x else x
  }

  function Min(a: real, b: real): real
  {
    if b < a then b else a
  }

  function Pow(b: real, e: nat): real
  {
    if e == 0 then 1.0 else b * Pow(b, e - 1)
  }

  /** Notional of the `k`-th increase: `initial_trading_value * multiplier ** k`. */
  function IncreaseValue(p: Params, k: nat): real
  {
    p.initialTradingValue * Pow(p.tradingValueMultiplier, k)
  }

  /** The last element of a non-empty array (`a[-1]`). */
  function Last(a: seq<real>): real
    requires |a| >= 1
  {
    a[|a| - 1]
  }

  /** After an update the last close and low are the bar's. */
  lemma LatestBarIsLast(w: Window, bar: Bar)
    requires w.Valid() && w.size >= 1
    ensures Last(UpdateBar(w, bar).closeArray) == bar.close
    ensures Last(UpdateBar(w, bar).lowArray) == bar.low
  {
    var u := UpdateBar(w, bar);
    assert u.Array(Close)[w.size - 1] == bar.close;
    assert u.Array(Low)[w.size - 1] == bar.low;
  }

  // ---------------------------------------------------------------------
  // Gates of on_bar, stated over the state before the bar and the bar.
  // ---------------------------------------------------------------------

  /** The state `on_bar` can be called in: a well-formed window that can take
      a bar, and — when this bar makes the window ready, so the strategy
      divides by them and computes the channel — a positive low and close
      and a channel period the rolling max/min accept. */
  predicate CanTakeBar(p: Params, s: State, bar: Bar)
  {
    && s.window.Valid()
    && s.window.size >= 1
    && (BecomesReady(s.window) ==> bar.low > 0.0 && bar.close > 0.0 && 2 <= p.donchianWindow <= MaxPeriod)
  }

  /** `entry_lowest` after tracking this bar's low while a cycle is active. */
  function TrackedLowest(s: State, bar: Bar): real
  {
    if s.entryLowest > 0.0 then Min(s.entryLowest, bar.low) else s.entryLowest
  }

  /** The position's notional at this bar's close is below the floor. */
  predicate Flat(p: Params, s: State, bar: Bar)
  {
    s.ledger.currentPos * bar.close < p.minNotional
  }

  /** The bar's low sits at least `open_pos_when_drawdown_pct` below the
      channel's upper band (a not-a-number band never qualifies). */
  predicate DrawdownSignal(p: Params, ch: Option<Channel>, bar: Bar)
    requires bar.low > 0.0
  {
    ch.Some? && ch.value.up / bar.low - 1.0 >= p.openPosWhenDrawdownPct
  }

  /** Flat entry: flat, drawdown deep enough, no buy outstanding. */
  predicate EntryGate(p: Params, s: State, bar: Bar)
    requires CanTakeBar(p, s, bar) && BecomesReady(s.window)
  {
    && Flat(p, s, bar)
    && DrawdownSignal(p, Donchian(UpdateBar(s.window, bar), p.donchianWindow), bar)
    && |s.buyOrders| == 0
  }

  /** The exit condition on the state the holding branch sees: no sell
      outstanding, an average price, and the close at least
      `exit_profit_pct` above it. */
  predicate ExitSignal(p: Params, s: State, close: real)
    requires close > 0.0
  {
    && |s.sellOrders| == 0
    && s.ledger.avgPrice > 0.0
    && close / s.ledger.avgPrice - 1.0 >= p.exitProfitPct
  }

  /** The increase condition given the tracked lowest low: a cycle active,
      no buy outstanding, the cap not exceeded, the price fell
      `dump_down_pct` below the last entry and has bounced `bounce_back_pct`
      off the lowest low since. */
  predicate IncreaseSignal(p: Params, s: State, lowest: real, close: real)
  {
    && lowest > 0.0
    && |s.buyOrders| == 0
    && s.increasePosTimes <= p.maxIncreasePosTimes
    && s.lastEntryPrice / lowest - 1.0 >= p.dumpDownPct
    && close / lowest - 1.0 >= p.bounceBackPct
  }

  /** Exit: holding and the exit condition holds. */
  predicate ExitGate(p: Params, s: State, bar: Bar)
    requires bar.close > 0.0
  {
    !Flat(p, s, bar) && ExitSignal(p, s, bar.close)
  }

  /** Increase: holding and the increase condition holds for the lowest low
      tracked through this bar. */
  predicate IncreaseGate(p: Params, s: State, bar: Bar)
  {
    !Flat(p, s, bar) && IncreaseSignal(p, s, TrackedLowest(s, bar), bar.close)
  }

  // ---------------------------------------------------------------------
  // on_bar
  // ---------------------------------------------------------------------

  /** The part of `on_bar` before the branch: absorb the bar, recompute
      the channel, track the lowest low of an active cycle. */
  function Absorb(p: Params, s: State, bar: Bar): (s1: State)
    requires CanTakeBar(p, s, bar) && BecomesReady(s.window)
    ensures s1.window == UpdateBar(s.window, bar)
    ensures Last(s1.window.closeArray) == bar.close && Last(s1.window.lowArray) == bar.low
    ensures s1.channel == Donchian(s1.window, p.donchianWindow)
    ensures s1.entryLowest == TrackedLowest(s, bar)
    ensures s1.ledger == s.ledger && s1.lastEntryPrice == s.lastEntryPrice
    ensures s1.increasePosTimes == s.increasePosTimes
    ensures s1.buyOrders == s.buyOrders && s1.sellOrders == s.sellOrders
  {
    var w := UpdateBar(s.window, bar);
    LatestBarIsLast(s.window, bar);
    s.(window := w, channel := Donchian(w, p.donchianWindow), entryLowest := TrackedLowest(s, bar))
  }

  /** The flat branch of a ready bar: a fresh cycle's first buy when the
      drawdown reaches `open_pos_when_drawdown_pct` and no buy is
      outstanding, otherwise nothing beyond tracking the bar. */
  function FlatBar(p: Params, s: State, bar: Bar, buyIds: seq<OrderId>): (r: Step)
    requires CanTakeBar(p, s, bar) && BecomesReady(s.window) && Flat(p, s, bar)
    ensures r.state.window == UpdateBar(s.window, bar)
    ensures r.state.channel == Donchian(r.state.window, p.donchianWindow)
    ensures r.state.ledger.currentPos == s.ledger.currentPos
    ensures r.state.ledger.totalProfit == s.ledger.totalProfit
    ensures r.state.lastEntryPrice == s.lastEntryPrice
    ensures r.state.sellOrders == s.sellOrders
    ensures EntryGate(p, s, bar) ==>
      && r.intents == [CancelAll, SubmitBuy(bar.close, p.initialTradingValue / bar.close)]
      && r.state.increasePosTimes == 0
      && r.state.ledger.avgPrice == 0.0
      && r.state.entryLowest == 0.0
      && r.state.buyOrders == buyIds
    ensures !EntryGate(p, s, bar) ==>
      && r.intents == []
      && r.state.increasePosTimes == s.increasePosTimes
      && r.state.ledger.avgPrice == s.ledger.avgPrice
      && r.state.entryLowest == TrackedLowest(s, bar)
      && r.state.buyOrders == s.buyOrders
  {
    var s1 := Absorb(p, s, bar);
    assert DrawdownSignal(p, s1.channel, bar) && |s1.buyOrders| == 0 <==> EntryGate(p, s, bar);
    EntryStep(p, s1, bar, buyIds)
  }

  /** The entry half of the flat branch, on the state after the bar is
      absorbed: `dump_pct` is not-a-number until the channel exists. */
  function EntryStep(p: Params, s: State, bar: Bar, buyIds: seq<OrderId>): (r: Step)
    requires bar.low > 0.0 && bar.close > 0.0
    requires s.window.Valid() && s.window.size >= 1
    requires Last(s.window.closeArray) == bar.close && Last(s.window.lowArray) == bar.low
    ensures DrawdownSignal(p, s.channel, bar) && |s.buyOrders| == 0 ==>
      r == Step(s.(increasePosTimes := 0, ledger := s.ledger.(avgPrice := 0.0), entryLowest := 0.0,
                   buyOrders := buyIds),
                [CancelAll, SubmitBuy(bar.close, p.initialTradingValue / bar.close)])
    ensures !(DrawdownSignal(p, s.channel, bar) && |s.buyOrders| == 0) ==> r == Step(s, [])
  {
    var currentClose := Last(s.window.closeArray);
    var currentLow := Last(s.window.lowArray);
    var dumpPct := if s.channel.Some? then Some(s.channel.value.up / currentLow - 1.0) else None;
    if dumpPct.Some? && dumpPct.value >= p.openPosWhenDrawdownPct && |s.buyOrders| == 0 then
      var price := currentClose;
      var vol := p.initialTradingValue / price;
      Step(s.(increasePosTimes := 0, ledger := s.ledger.(avgPrice := 0.0), entryLowest := 0.0,
              buyOrders := s.buyOrders + buyIds),
           [CancelAll, SubmitBuy(price, vol)])
    else
      Step(s, [])
  }

  /** The exit half of the holding branch. */
  function ExitStep(p: Params, s: State, close: real, sellIds: seq<OrderId>): (r: Step)
    requires close > 0.0
    ensures r.intents == if ExitSignal(p, s, close) then [CancelAll, SubmitShort(close, Abs(s.ledger.currentPos))] else []
    ensures r.state == s.(sellOrders := s.sellOrders + if ExitSignal(p, s, close) then sellIds else [])
  {
    if |s.sellOrders| <= 0 && s.ledger.avgPrice > 0.0 then
      var profitPercent := close / s.ledger.avgPrice - 1.0;
      if profitPercent >= p.exitProfitPct then
        Step(s.(sellOrders := s.sellOrders + sellIds), [CancelAll, SubmitShort(close, Abs(s.ledger.currentPos))])
      else
        Step(s, [])
    else
      Step(s, [])
  }

  /** The position-increase half of the holding branch; `s.entryLowest` is
      already tracked through the bar. */
  function IncreaseStep(p: Params, s: State, close: real, buyIds: seq<OrderId>): (r: Step)
    requires close > 0.0
    ensures r.intents ==
      if IncreaseSignal(p, s, s.entryLowest, close)
      then [CancelAll, SubmitBuy(close, IncreaseValue(p, s.increasePosTimes) / close)]
      else []
    ensures r.state == s.(buyOrders := s.buyOrders + if IncreaseSignal(p, s, s.entryLowest, close) then buyIds else [])
  {
    if s.entryLowest > 0.0 && |s.buyOrders| <= 0 then
      var dumpDown := s.lastEntryPrice / s.entryLowest - 1.0;
      var bounceBack := close / s.entryLowest - 1.0;
      if s.increasePosTimes <= p.maxIncreasePosTimes && dumpDown >= p.dumpDownPct && bounceBack >= p.bounceBackPct then
        var value := IncreaseValue(p, s.increasePosTimes);
        Step(s.(buyOrders := s.buyOrders + buyIds), [CancelAll, SubmitBuy(close, value / close)])
      else
        Step(s, [])
    else
      Step(s, [])
  }

  /** The exit and increase signals the holding branch evaluates on the
      absorbed state agree with the gates on the state before the bar. */
  lemma HoldingSignals(p: Params, s: State, bar: Bar, s1: State, s2: State)
    requires CanTakeBar(p, s, bar) && BecomesReady(s.window) && !Flat(p, s, bar)
    requires s1 == Absorb(p, s, bar)
    requires s2 == s1.(sellOrders := s2.sellOrders)
    ensures ExitSignal(p, s1, bar.close) == ExitGate(p, s, bar)
    ensures IncreaseSignal(p, s2, s2.entryLowest, bar.close) == IncreaseGate(p, s, bar)
  {
    assert s2.entryLowest == TrackedLowest(s, bar);
  }

  /** The holding branch of a ready bar: the exit half, then the increase
      half, each under its own gate. */
  function HoldingBar(p: Params, s: State, bar: Bar, buyIds: seq<OrderId>, sellIds: seq<OrderId>): (r: Step)
    requires CanTakeBar(p, s, bar) && BecomesReady(s.window) && !Flat(p, s, bar)
    ensures r.state.window == UpdateBar(s.window, bar)
    ensures r.state.channel == Donchian(r.state.window, p.donchianWindow)
    ensures r.state.ledger == s.ledger
    ensures r.state.lastEntryPrice == s.lastEntryPrice
    ensures r.state.increasePosTimes == s.increasePosTimes
    ensures r.state.entryLowest == TrackedLowest(s, bar)
    ensures r.intents ==
        (if ExitGate(p, s, bar) then [CancelAll, SubmitShort(bar.close, Abs(s.ledger.currentPos))] else [])
      + (if IncreaseGate(p, s, bar)
         then [CancelAll, SubmitBuy(bar.close, IncreaseValue(p, s.increasePosTimes) / bar.close)]
         else [])
    ensures r.state.sellOrders == s.sellOrders + (if ExitGate(p, s, bar) then sellIds else [])
    ensures r.state.buyOrders == s.buyOrders + (if IncreaseGate(p, s, bar) then buyIds else [])
  {
    var s1 := Absorb(p, s, bar);
    var exit := ExitStep(p, s1, bar.close, sellIds);
    HoldingSignals(p, s, bar, s1, exit.state);
    var increase := IncreaseStep(p, exit.state, bar.close, buyIds);
    Step(increase.state, exit.intents + increase.intents)
  }

  /** `on_bar`. `buyIds` are the ids the engine returns for a buy submitted on
      this bar, `sellIds` those for a short. */
  function OnBar(p: Params, s: State, bar: Bar, buyIds: seq<OrderId>, sellIds: seq<OrderId>): (r: Step)
    requires CanTakeBar(p, s, bar)
    // the window always absorbs the bar
    ensures r.state.window == UpdateBar(s.window, bar)
    // warm-up: no intents and no strategy field changes
    ensures !BecomesReady(s.window) ==>
      r.intents == [] && r.state == s.(window := UpdateBar(s.window, bar))
    // once ready, the branch is chosen by the notional at the close
    ensures BecomesReady(s.window) && Flat(p, s, bar) ==> r == FlatBar(p, s, bar, buyIds)
    ensures BecomesReady(s.window) && !Flat(p, s, bar) ==> r == HoldingBar(p, s, bar, buyIds, sellIds)
    // entry_lowest never increases
    ensures s.entryLowest >= 0.0 ==> r.state.entryLowest <= s.entryLowest
  {
    var w := UpdateBar(s.window, bar);
    if !w.inited then
      Step(s.(window := w), [])
    else
      LatestBarIsLast(s.window, bar);
      var currentClose := Last(w.closeArray);
      if s.ledger.currentPos * currentClose < p.minNotional then
        FlatBar(p, s, bar, buyIds)
      else
        HoldingBar(p, s, bar, buyIds, sellIds)
  }

  // ---------------------------------------------------------------------
  // on_order
  // ---------------------------------------------------------------------

  /** `on_order`. `isActive` is the engine's `OrderData.is_active()` as a
      predicate on the status. */
  function OnOrder(s: State, order: Order, isActive: Status -> bool): (r: State)
    // a fully filled buy counts as an increase and restarts the low tracking
    ensures order.status == AllTraded && order.direction == Long ==>
      && r.increasePosTimes == s.increasePosTimes + 1
      && r.lastEntryPrice == order.price
      && r.entryLowest == order.price
    ensures !(order.status == AllTraded && order.direction == Long) ==>
      && r.increasePosTimes == s.increasePosTimes
      && r.lastEntryPrice == s.lastEntryPrice
      && r.entryLowest == s.entryLowest
    // a finished order leaves the list it is tracked in, sell list first
    ensures !isActive(order.status) && order.id in s.sellOrders ==>
      r.sellOrders == RemoveFirst(s.sellOrders, order.id) && r.buyOrders == s.buyOrders
    ensures !isActive(order.status) && order.id !in s.sellOrders && order.id in s.buyOrders ==>
      r.buyOrders == RemoveFirst(s.buyOrders, order.id) && r.sellOrders == s.sellOrders
    // an active or untracked order leaves both lists alone
    ensures isActive(order.status) || (order.id !in s.sellOrders && order.id !in s.buyOrders) ==>
      r.buyOrders == s.buyOrders && r.sellOrders == s.sellOrders
    // nothing else changes
    ensures r.window == s.window && r.channel == s.channel
    ensures r.ledger.avgPrice == s.ledger.avgPrice && r.ledger.currentPos == s.ledger.currentPos
    ensures r.ledger.totalProfit == s.ledger.totalProfit
  {
    var s1 :=
      if order.status == AllTraded && order.direction == Long then
        s.(increasePosTimes := s.increasePosTimes + 1,
           lastEntryPrice := order.price,
           entryLowest := order.price)
      else s;
    if !isActive(order.status) then
      if order.id in s1.sellOrders then
        s1.(sellOrders := RemoveFirst(s1.sellOrders, order.id))
      else if order.id in s1.buyOrders then
        s1.(buyOrders := RemoveFirst(s1.buyOrders, order.id))
      else s1
    else s1
  }

  // ---------------------------------------------------------------------
  // on_trade
  // ---------------------------------------------------------------------

  /** `on_trade`: books the fill in the ledger; nothing else changes. */
  function OnTrade(p: Params, s: State, trade: Trade): (r: State)
    requires CanFill(s.ledger, trade)
    ensures r.ledger == Fill(s.ledger, trade, p.tradingFee)
    ensures r.buyOrders == s.buyOrders && r.sellOrders == s.sellOrders
    ensures r.increasePosTimes == s.increasePosTimes && r.lastEntryPrice == s.lastEntryPrice
    ensures r.entryLowest == s.entryLowest && r.window == s.window && r.channel == s.channel
  {
    s.(ledger := Fill(s.ledger, trade, p.tradingFee))
  }

}
