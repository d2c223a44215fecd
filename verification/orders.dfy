/** Order and trade events delivered by the trading engine, the order
    intents the strategy emits, and the order-id list operations the
    strategy performs on its `buy_orders` / `sell_orders` lists. */
module Orders {

  /** The engine's `vt_orderid`. */
  type OrderId = string

  /** Lifecycle status of an order as reported by the engine. */
  datatype Status = Submitting | NotTraded | PartTraded | AllTraded | Cancelled | Rejected

  /** Side of an order or a fill. `Net` is the engine's third direction,
      which the strategy's handlers ignore. */
  datatype Direction = Long | Short | Net

  /** An order-status event. */
  datatype Order = Order(id: OrderId, status: Status, direction: Direction, price: real)

  /** A trade-fill event. */
  datatype Trade = Trade(direction: Direction, price: real, volume: real)

  /** What the strategy asks the engine to do: `cancel_all`, `buy` and `short`. */
  datatype Intent = CancelAll | SubmitBuy(price: real, volume: real) | SubmitShort(price: real, volume: real)

  /** Position of the first occurrence of `x` in `s`. */
  function FirstIndex<T(==)>(s: seq<T>, x: T): (i: nat)
    requires x in s
    ensures i < |s| && s[i] == x
    ensures forall j :: 0 <= j < i ==> s[j] != x
  {
    if s[0] == x then 0 else 1 + FirstIndex(s[1..], x)
  }

  /** Python's `list.remove(x)`: drops the first occurrence of `x` and keeps
      the order of everything else. */
  function RemoveFirst<T(==)>(s: seq<T>, x: T): (r: seq<T>)
    requires x in s
    ensures |r| == |s| - 1
    ensures multiset(r) == multiset(s) - multiset{x}
    ensures var k := FirstIndex(s, x);
            x !in s[..k] && r[..k] == s[..k] && r[k..] == s[k + 1..]
  {
    var k := FirstIndex(s, x);
    assert s == s[..k] + [s[k]] + s[k + 1..];
    s[..k] + s[k + 1..]
  }

}
