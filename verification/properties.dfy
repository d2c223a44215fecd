/** Properties of `on_bar` that relate its branches or several calls: which
    bars emit which orders, the cancel-all that precedes every order, and
    the outstanding-order lists that block repeated orders across bars. */
module MartingaleProperties {

  import opened Options
  import opened Orders
  import opened RollingWindow
  import opened Indicators
  import opened PositionLedger
  import opened Martingale

  // ---------------------------------------------------------------------
  // Gates across bars
  // ---------------------------------------------------------------------

  /** Some intent is a buy. */
  predicate EmitsBuy(intents: seq<Intent>)
  {
    exists i :: 0 <= i < |intents| && intents[i].SubmitBuy?
  }

  /** Some intent is a short. */
  predicate EmitsShort(intents: seq<Intent>)
  {
    exists i :: 0 <= i < |intents| && intents[i].SubmitShort?
  }

  /** While the position is not flat, no increase is ever emitted once the
      increase count has passed its cap. */
  lemma NoIncreaseBeyondCap(p: Params, s: State, bar: Bar, buyIds: seq<OrderId>, sellIds: seq<OrderId>)
    requires CanTakeBar(p, s, bar)
    requires s.increasePosTimes > p.maxIncreasePosTimes
    requires BecomesReady(s.window) ==> !Flat(p, s, bar)
    ensures !EmitsBuy(OnBar(p, s, bar, buyIds, sellIds).intents)
  {
    BuyExactly(p, s, bar, buyIds, sellIds);
  }

  /** No exit is emitted without an average price. */
  lemma NoExitWithoutAveragePrice(p: Params, s: State, bar: Bar, buyIds: seq<OrderId>, sellIds: seq<OrderId>)
    requires CanTakeBar(p, s, bar)
    requires s.ledger.avgPrice <= 0.0
    ensures !EmitsShort(OnBar(p, s, bar, buyIds, sellIds).intents)
  {
    ExitExactly(p, s, bar, buyIds, sellIds);
  }

  /** The intents of a bar, by case: nothing during warm-up; in the flat
      branch at most the entry pair; in the holding branch the exit pair
      and then the increase pair, each when its gate is open. */
  lemma IntentsByCase(p: Params, s: State, bar: Bar, buyIds: seq<OrderId>, sellIds: seq<OrderId>)
    requires CanTakeBar(p, s, bar)
    ensures var xs := OnBar(p, s, bar, buyIds, sellIds).intents;
      && (!BecomesReady(s.window) ==> xs == [])
      && (BecomesReady(s.window) && Flat(p, s, bar) ==>
            xs == if EntryGate(p, s, bar) then [CancelAll, SubmitBuy(bar.close, p.initialTradingValue / bar.close)] else [])
      && (BecomesReady(s.window) && !Flat(p, s, bar) ==>
            xs == (if ExitGate(p, s, bar) then [CancelAll, SubmitShort(bar.close, Abs(s.ledger.currentPos))] else [])
                + (if IncreaseGate(p, s, bar)
                   then [CancelAll, SubmitBuy(bar.close, IncreaseValue(p, s.increasePosTimes) / bar.close)]
                   else []))
  {
  }

  /** The orders in a pair-or-nothing sequence of the holding branch. */
  lemma HoldingOrders(exit: bool, increase: bool, short: Intent, buy: Intent)
    requires short.SubmitShort? && buy.SubmitBuy?
    ensures var xs := (if exit then [CancelAll, short] else []) + (if increase then [CancelAll, buy] else []);
      && (EmitsShort(xs) <==> exit)
      && (EmitsBuy(xs) <==> increase)
      && (forall i :: 0 <= i < |xs| && xs[i].SubmitShort? ==> xs[i] == short)
  {
    var xs := (if exit then [CancelAll, short] else []) + (if increase then [CancelAll, buy] else []);
    if exit {
      assert xs[1].SubmitShort?;
    }
    if increase {
      assert xs[|xs| - 1].SubmitBuy?;
    }
  }

  /** The orders in the flat branch's pair-or-nothing. */
  lemma FlatOrders(entry: bool, buy: Intent)
    requires buy.SubmitBuy?
    ensures var xs := if entry then [CancelAll, buy] else [];
      !EmitsShort(xs) && (EmitsBuy(xs) <==> entry)
  {
    if entry {
      assert [CancelAll, buy][1].SubmitBuy?;
    }
  }

  /** A short is emitted exactly when the bar finds the window ready and the
      exit gate open, and it is for the whole position at the close. */
  lemma ExitExactly(p: Params, s: State, bar: Bar, buyIds: seq<OrderId>, sellIds: seq<OrderId>)
    requires CanTakeBar(p, s, bar)
    ensures var r := OnBar(p, s, bar, buyIds, sellIds);
      EmitsShort(r.intents) <==> BecomesReady(s.window) && ExitGate(p, s, bar)
    ensures var r := OnBar(p, s, bar, buyIds, sellIds);
      forall i :: 0 <= i < |r.intents| && r.intents[i].SubmitShort? ==>
        r.intents[i] == SubmitShort(bar.close, Abs(s.ledger.currentPos))
  {
    IntentsByCase(p, s, bar, buyIds, sellIds);
    if BecomesReady(s.window) {
      if Flat(p, s, bar) {
        FlatOrders(EntryGate(p, s, bar), SubmitBuy(bar.close, p.initialTradingValue / bar.close));
      } else {
        HoldingOrders(ExitGate(p, s, bar), IncreaseGate(p, s, bar),
                      SubmitShort(bar.close, Abs(s.ledger.currentPos)),
                      SubmitBuy(bar.close, IncreaseValue(p, s.increasePosTimes) / bar.close));
      }
    }
  }

  /** A buy is emitted exactly when the bar finds the window ready and either
      the flat-entry gate or the increase gate open. */
  lemma BuyExactly(p: Params, s: State, bar: Bar, buyIds: seq<OrderId>, sellIds: seq<OrderId>)
    requires CanTakeBar(p, s, bar)
    ensures var r := OnBar(p, s, bar, buyIds, sellIds);
      EmitsBuy(r.intents) <==>
        BecomesReady(s.window) && (EntryGate(p, s, bar) || IncreaseGate(p, s, bar))
  {
    IntentsByCase(p, s, bar, buyIds, sellIds);
    if BecomesReady(s.window) {
      if Flat(p, s, bar) {
        FlatOrders(EntryGate(p, s, bar), SubmitBuy(bar.close, p.initialTradingValue / bar.close));
      } else {
        HoldingOrders(ExitGate(p, s, bar), IncreaseGate(p, s, bar),
                      SubmitShort(bar.close, Abs(s.ledger.currentPos)),
                      SubmitBuy(bar.close, IncreaseValue(p, s.increasePosTimes) / bar.close));
      }
    }
  }

  /** `xs` is a run of pairs, each a cancel-all followed by an order. */
  predicate CancelPairs(xs: seq<Intent>)
    decreases |xs|
  {
    |xs| == 0 || (|xs| >= 2 && xs[0] == CancelAll && !xs[1].CancelAll? && CancelPairs(xs[2..]))
  }

  lemma {:induction false} CancelPairsConcat(a: seq<Intent>, b: seq<Intent>)
    requires CancelPairs(a) && CancelPairs(b)
    ensures CancelPairs(a + b)
    decreases |a|
  {
    if |a| == 0 {
      assert a + b == b;
    } else {
      assert (a + b)[2..] == a[2..] + b;
      CancelPairsConcat(a[2..], b);
    }
  }

  lemma CancelPair(x: Intent)
    requires !x.CancelAll?
    ensures CancelPairs([CancelAll, x])
  {
  }

  /** Every order the strategy submits is preceded by a cancel-all: the
      intents of a bar are at most two cancel-all/order pairs. */
  lemma OrdersFollowCancelAll(p: Params, s: State, bar: Bar, buyIds: seq<OrderId>, sellIds: seq<OrderId>)
    requires CanTakeBar(p, s, bar)
    ensures var xs := OnBar(p, s, bar, buyIds, sellIds).intents;
      CancelPairs(xs) && |xs| <= 4
  {
    var xs := OnBar(p, s, bar, buyIds, sellIds).intents;
    IntentsByCase(p, s, bar, buyIds, sellIds);
    if !BecomesReady(s.window) {
      assert xs == [];
    } else if Flat(p, s, bar) {
      if EntryGate(p, s, bar) {
        CancelPair(SubmitBuy(bar.close, p.initialTradingValue / bar.close));
      }
    } else {
      var e := if ExitGate(p, s, bar) then [CancelAll, SubmitShort(bar.close, Abs(s.ledger.currentPos))] else [];
      var i := if IncreaseGate(p, s, bar)
               then [CancelAll, SubmitBuy(bar.close, IncreaseValue(p, s.increasePosTimes) / bar.close)]
               else [];
      CancelPair(SubmitShort(bar.close, Abs(s.ledger.currentPos)));
      CancelPair(SubmitBuy(bar.close, IncreaseValue(p, s.increasePosTimes) / bar.close));
      CancelPairsConcat(e, i);
    }
  }

  /** A buy batch the engine acknowledged blocks every further buy until an
      order event removes its ids: two bars in a row never both buy. */
  lemma OutstandingBuyBlocksNextBuy(p: Params, s: State, bar1: Bar, bar2: Bar,
                                    buyIds: seq<OrderId>, sellIds: seq<OrderId>,
                                    buyIds2: seq<OrderId>, sellIds2: seq<OrderId>)
    requires CanTakeBar(p, s, bar1)
    requires |buyIds| > 0
    requires EmitsBuy(OnBar(p, s, bar1, buyIds, sellIds).intents)
    requires CanTakeBar(p, OnBar(p, s, bar1, buyIds, sellIds).state, bar2)
    ensures !EmitsBuy(OnBar(p, OnBar(p, s, bar1, buyIds, sellIds).state, bar2, buyIds2, sellIds2).intents)
  {
    var s1 := OnBar(p, s, bar1, buyIds, sellIds).state;
    BuyExactly(p, s, bar1, buyIds, sellIds);
    assert |s1.buyOrders| > 0;
    BuyExactly(p, s1, bar2, buyIds2, sellIds2);
  }

  /** Likewise an acknowledged short blocks every further short. */
  lemma OutstandingShortBlocksNextShort(p: Params, s: State, bar1: Bar, bar2: Bar,
                                        buyIds: seq<OrderId>, sellIds: seq<OrderId>,
                                        buyIds2: seq<OrderId>, sellIds2: seq<OrderId>)
    requires CanTakeBar(p, s, bar1)
    requires |sellIds| > 0
    requires EmitsShort(OnBar(p, s, bar1, buyIds, sellIds).intents)
    requires CanTakeBar(p, OnBar(p, s, bar1, buyIds, sellIds).state, bar2)
    ensures !EmitsShort(OnBar(p, OnBar(p, s, bar1, buyIds, sellIds).state, bar2, buyIds2, sellIds2).intents)
  {
    var s1 := OnBar(p, s, bar1, buyIds, sellIds).state;
    ExitExactly(p, s, bar1, buyIds, sellIds);
    assert |s1.sellOrders| > 0;
    ExitExactly(p, s1, bar2, buyIds2, sellIds2);
  }

  /** Order events only ever shrink the order lists, and by exactly one id
      when a finished order is tracked; only `on_bar` adds ids. */
  lemma OrderEventsOnlyShrinkLists(s: State, order: Order, isActive: Status -> bool)
    ensures var r := OnOrder(s, order, isActive);
      && multiset(r.buyOrders) <= multiset(s.buyOrders)
      && multiset(r.sellOrders) <= multiset(s.sellOrders)
      && |r.buyOrders| + |r.sellOrders|
         == |s.buyOrders| + |s.sellOrders|
            - (if !isActive(order.status) && (order.id in s.sellOrders || order.id in s.buyOrders) then 1 else 0)
  {
  }

  /** With a positive notional floor, a zero close always finds the
      position flat, so `on_bar` never reaches the holding branch. */
  lemma ZeroCloseIsFlat(p: Params, s: State, bar: Bar)
    requires p.minNotional > 0.0 && bar.close == 0.0
    ensures Flat(p, s, bar)
  {
  }

  /** The last intent of a bar, when there is one. */
  function LastIntent(xs: seq<Intent>): Intent
    requires |xs| > 0
  {
    xs[|xs| - 1]
  }

  /** What an intent commits: price times volume for an order, nothing
      for a cancel-all. */
  function Notional(x: Intent): real
  {
    match x
    case CancelAll => 0.0
    case SubmitBuy(price, volume) => price * volume
    case SubmitShort(price, volume) => price * volume
  }

  /** A bar that finds the increase gate open ends with the increase buy,
      for the current ladder step's value at the close. */
  lemma IncreaseBuyIsLast(p: Params, s: State, bar: Bar, buyIds: seq<OrderId>, sellIds: seq<OrderId>)
    requires CanTakeBar(p, s, bar) && BecomesReady(s.window) && IncreaseGate(p, s, bar)
    ensures var xs := OnBar(p, s, bar, buyIds, sellIds).intents;
      |xs| > 0 && LastIntent(xs) == SubmitBuy(bar.close, IncreaseValue(p, s.increasePosTimes) / bar.close)
  {
    IntentsByCase(p, s, bar, buyIds, sellIds);
  }

  /** One step up the ladder: a notional scaled by `trading_value_multiplier`. */
  function NextStepValue(p: Params, v: real): real
  {
    v * p.tradingValueMultiplier
  }

  /** A filled increase buy moves the counter up by one, and booking its
      trade leaves the counter there. */
  lemma FillMovesLadder(p: Params, s: State, bar: Bar, id: OrderId, sellIds: seq<OrderId>,
                        fillPrice: real, isActive: Status -> bool, trade: Trade)
    requires CanTakeBar(p, s, bar) && BecomesReady(s.window) && !Flat(p, s, bar)
    requires CanFill(OnOrder(OnBar(p, s, bar, [id], sellIds).state, Order(id, AllTraded, Long, fillPrice), isActive).ledger, trade)
    ensures OnTrade(p, OnOrder(OnBar(p, s, bar, [id], sellIds).state, Order(id, AllTraded, Long, fillPrice), isActive), trade).increasePosTimes
         == s.increasePosTimes + 1
  {
  }

  /** The increase buy spends the ladder's current step value. */
  lemma IncreaseBuySpends(p: Params, s: State, bar: Bar, buyIds: seq<OrderId>, sellIds: seq<OrderId>)
    requires CanTakeBar(p, s, bar) && BecomesReady(s.window) && IncreaseGate(p, s, bar)
    ensures |OnBar(p, s, bar, buyIds, sellIds).intents| > 0
    ensures LastIntent(OnBar(p, s, bar, buyIds, sellIds).intents).SubmitBuy?
    ensures Notional(LastIntent(OnBar(p, s, bar, buyIds, sellIds).intents)) == IncreaseValue(p, s.increasePosTimes)
  {
    var v := IncreaseValue(p, s.increasePosTimes);
    IncreaseBuyIsLast(p, s, bar, buyIds, sellIds);
    BuyNotional(bar.close, v);
  }

  /** After the increase buy fills, the next step is worth its notional
      times the multiplier. */
  lemma FillScalesLadder(p: Params, s: State, bar: Bar, id: OrderId, sellIds: seq<OrderId>,
                         fillPrice: real, isActive: Status -> bool, trade: Trade)
    requires CanTakeBar(p, s, bar) && BecomesReady(s.window) && IncreaseGate(p, s, bar)
    requires CanFill(OnOrder(OnBar(p, s, bar, [id], sellIds).state, Order(id, AllTraded, Long, fillPrice), isActive).ledger, trade)
    ensures var r := OnBar(p, s, bar, [id], sellIds);
      && |r.intents| > 0 && LastIntent(r.intents).SubmitBuy?
      && IncreaseValue(p, OnTrade(p, OnOrder(r.state, Order(id, AllTraded, Long, fillPrice), isActive), trade).increasePosTimes)
         == NextStepValue(p, Notional(LastIntent(r.intents)))
  {
    var r := OnBar(p, s, bar, [id], sellIds);
    var s3 := OnTrade(p, OnOrder(r.state, Order(id, AllTraded, Long, fillPrice), isActive), trade);
    IncreaseBuySpends(p, s, bar, [id], sellIds);
    FillMovesLadder(p, s, bar, id, sellIds, fillPrice, isActive, trade);
    NextLadderStep(p, s.increasePosTimes, s3.increasePosTimes);
  }

  /** The martingale ladder across events: an increase buy on one bar, the
      full fill of that buy reported to `on_order` and booked by `on_trade`,
      then an increase buy on a later bar. The second buy's notional (price
      times volume) is the first one's times `trading_value_multiplier`,
      because the fill moved the increase counter up by one. */
  lemma IncreaseLadderSteps(p: Params, s: State, bar1: Bar, id: OrderId, sellIds: seq<OrderId>,
                            fillPrice: real, isActive: Status -> bool, trade: Trade,
                            bar2: Bar, buyIds2: seq<OrderId>, sellIds2: seq<OrderId>)
    requires CanTakeBar(p, s, bar1) && BecomesReady(s.window) && IncreaseGate(p, s, bar1)
    requires CanFill(OnOrder(OnBar(p, s, bar1, [id], sellIds).state, Order(id, AllTraded, Long, fillPrice), isActive).ledger, trade)
    ensures
      var r1 := OnBar(p, s, bar1, [id], sellIds);
      var s3 := OnTrade(p, OnOrder(r1.state, Order(id, AllTraded, Long, fillPrice), isActive), trade);
      CanTakeBar(p, s3, bar2) && BecomesReady(s3.window) && IncreaseGate(p, s3, bar2) ==>
        var r2 := OnBar(p, s3, bar2, buyIds2, sellIds2);
        && |r1.intents| > 0 && LastIntent(r1.intents).SubmitBuy?
        && |r2.intents| > 0 && LastIntent(r2.intents).SubmitBuy?
        && Notional(LastIntent(r2.intents)) == NextStepValue(p, Notional(LastIntent(r1.intents)))
  {
    var r1 := OnBar(p, s, bar1, [id], sellIds);
    var s3 := OnTrade(p, OnOrder(r1.state, Order(id, AllTraded, Long, fillPrice), isActive), trade);
    FillScalesLadder(p, s, bar1, id, sellIds, fillPrice, isActive, trade);
    if CanTakeBar(p, s3, bar2) && BecomesReady(s3.window) && IncreaseGate(p, s3, bar2) {
      IncreaseBuySpends(p, s3, bar2, buyIds2, sellIds2);
    }
  }

  /** The step after `k` is worth the value of step `k` times the multiplier. */
  lemma NextLadderStep(p: Params, k: nat, next: nat)
    requires next == k + 1
    ensures IncreaseValue(p, next) == NextStepValue(p, IncreaseValue(p, k))
  {
    assert Pow(p.tradingValueMultiplier, next) == p.tradingValueMultiplier * Pow(p.tradingValueMultiplier, k);
  }

  /** Buying `value / price` at `price` spends `value`. */
  lemma BuyNotional(price: real, value: real)
    requires price > 0.0
    ensures Notional(SubmitBuy(price, value / price)) == value
  {
  }

}
