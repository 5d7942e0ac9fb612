/** A price-time-priority order book as a value: each side maps a price to its queue of orders,
    oldest first, and an index gives side and price of every resting id.

    The index of the source also holds a list iterator.  It always points at the order that was
    pushed last with that id, so here it is "the last order with that id at the indexed price". */
module BookSpec {
  import opened Bytes

  datatype Side = Buy | Sell

  datatype Order = Order(id: UInt64, side: Side, price: Int64, quantity: int, sequence: UInt64)

  datatype Fill = Fill(maker: UInt64, taker: UInt64, price: Int64, quantity: int, takerSide: Side)

  datatype PriceLevel = PriceLevel(price: Int64, totalQuantity: int, orderCount: nat)

  datatype Location = Location(side: Side, price: Int64)

  type Levels = map<Int64, seq<Order>>
  type Index = map<UInt64, Location>

  datatype Book = Book(symbol: seq<Byte>, bids: Levels, asks: Levels, index: Index)

  function Opposite(s: Side): Side { if s == Buy then Sell else Buy }

  /** Price p is served before price q on side s: bids highest first, asks lowest first. */
  predicate Better(s: Side, p: Int64, q: Int64) { if s == Buy then p > q else p < q }

  function LevelsOf(b: Book, s: Side): Levels { if s == Buy then b.bids else b.asks }

  function WithLevels(b: Book, s: Side, m: Levels): Book { if s == Buy then b.(bids := m) else b.(asks := m) }

  // ----- price order -----

  ghost predicate IsBest(s: Side, prices: set<Int64>, p: Int64) {
    p in prices && forall q :: q in prices ==> q == p || Better(s, p, q)
  }

  lemma {:induction false} SomeBest(s: Side, prices: set<Int64>)
    requires prices != {}
    ensures exists p :: IsBest(s, prices, p)
    decreases |prices|
  {
    var x :| x in prices;
    if prices == {x} {
      assert IsBest(s, prices, x);
    } else {
      SomeBest(s, prices - {x});
      var r :| IsBest(s, prices - {x}, r);
      assert forall q :: q in prices ==> q == x || q in prices - {x};
      assert IsBest(s, prices, if Better(s, x, r) then x else r);
    }
  }

  /** The price that is served first. */
  ghost function Best(s: Side, prices: set<Int64>): (p: Int64)
    requires prices != {}
    ensures IsBest(s, prices, p)
  {
    SomeBest(s, prices);
    var p :| IsBest(s, prices, p);
    p
  }

  lemma {:induction false} BestUnique(s: Side, prices: set<Int64>, p: Int64)
    requires IsBest(s, prices, p)
    ensures Best(s, prices) == p
  {
  }

  /** Every order of a side, best price first, oldest first within a price. */
  ghost function Flatten(s: Side, m: Levels): seq<Order>
    decreases |m|
  {
    if m == map[] then []
    else
      var p := Best(s, m.Keys);
      assert |m - {p}| < |m| by { FewerKeys(m, p); }
      m[p] + Flatten(s, m - {p})
  }

  /** The orders of the best level come first. */
  lemma {:induction false} FlattenFront(s: Side, m: Levels, p: Int64)
    requires IsBest(s, m.Keys, p)
    ensures Flatten(s, m) == m[p] + Flatten(s, m - {p})
  {
    BestUnique(s, m.Keys, p);
  }

  lemma {:induction false} FewerKeys(m: Levels, p: Int64)
    requires p in m
    ensures |m - {p}| == |m| - 1
  {
    assert (m - {p}).Keys == m.Keys - {p};
  }

  /** The whole book as a snapshot lists it. */
  ghost function AllOrders(b: Book): seq<Order> { Flatten(Buy, b.bids) + Flatten(Sell, b.asks) }

  function TotalQuantity(orders: seq<Order>): int {
    if orders == [] then 0 else orders[0].quantity + TotalQuantity(orders[1..])
  }

  /** The depth view: price, total and count per level, best first; 0 asks for all levels. */
  ghost function Depth(s: Side, m: Levels, maxLevels: nat): seq<PriceLevel>
    decreases |m|
  {
    if m == map[] then []
    else
      var p := Best(s, m.Keys);
      assert |m - {p}| < |m| by { FewerKeys(m, p); }
      [PriceLevel(p, TotalQuantity(m[p]), |m[p]|)] +
      if maxLevels == 1 then [] else Depth(s, m - {p}, if maxLevels == 0 then 0 else maxLevels - 1)
  }

  // ----- resting orders -----

  function AddTo(m: Levels, o: Order): Levels {
    m[o.price := (if o.price in m then m[o.price] else []) + [o]]
  }

  function AddResting(b: Book, o: Order): Book {
    WithLevels(b, o.side, AddTo(LevelsOf(b, o.side), o)).(index := b.index[o.id := Location(o.side, o.price)])
  }

  /** Without the last order of that id. */
  function RemoveLast(orders: seq<Order>, id: UInt64): seq<Order> {
    if orders == [] then []
    else if orders[|orders| - 1].id == id then orders[..|orders| - 1]
    else RemoveLast(orders[..|orders| - 1], id) + [orders[|orders| - 1]]
  }

  /** A level that runs empty is dropped. */
  function SetLevel(m: Levels, price: Int64, orders: seq<Order>): Levels {
    if orders == [] then m - {price} else m[price := orders]
  }

  function RemoveFrom(m: Levels, price: Int64, id: UInt64): Levels {
    if price in m then SetLevel(m, price, RemoveLast(m[price], id)) else m
  }

  function Cancel(b: Book, id: UInt64): Book {
    if id !in b.index then b
    else
      var loc := b.index[id];
      WithLevels(b, loc.side, RemoveFrom(LevelsOf(b, loc.side), loc.price, id)).(index := b.index - {id})
  }

  function Modify(b: Book, id: UInt64, price: Int64, quantity: int, sequence: UInt64): Book {
    if id !in b.index then b
    else
      var side := b.index[id].side;
      if quantity > 0 then AddResting(Cancel(b, id), Order(id, side, price, quantity, sequence)) else Cancel(b, id)
  }

  // ----- matching -----

  predicate Crosses(taker: Side, price: Int64, best: Int64) { if taker == Buy then price >= best else price <= best }

  /** What a taker traded and what it left: of one level's queue, or of a whole side. */
  datatype Matched<T> = Matched(fills: seq<Fill>, left: T, remaining: int, index: Index)

  /** The inner loop: trade against one level's queue from its front. */
  function Drain(taker: Side, takerId: UInt64, orders: seq<Order>, remaining: int, index: Index): Matched<seq<Order>> {
    if remaining <= 0 || orders == [] then Matched([], orders, remaining, index)
    else
      var maker := orders[0];
      var q := Min(remaining, maker.quantity);
      var fill := Fill(maker.id, takerId, maker.price, q, taker);
      if maker.quantity - q <= 0 then
        var d := Drain(taker, takerId, orders[1..], remaining - q, index - {maker.id});
        d.(fills := [fill] + d.fills)
      else
        Matched([fill], [maker.(quantity := maker.quantity - q)] + orders[1..], remaining - q, index)
  }

  /** The outer loop: level by level while the taker's limit reaches the best opposite price. */
  ghost function Match(taker: Side, price: Int64, takerId: UInt64, m: Levels, remaining: int, index: Index): Matched<Levels>
    decreases |m|
  {
    if remaining <= 0 || m == map[] || !Crosses(taker, price, Best(Opposite(taker), m.Keys))
    then Matched([], m, remaining, index)
    else
      var p := Best(Opposite(taker), m.Keys);
      var d := Drain(taker, takerId, m[p], remaining, index);
      if d.left != [] then Matched(d.fills, m[p := d.left], d.remaining, d.index)
      else
        assert |m - {p}| < |m| by { FewerKeys(m, p); }
        var rest := Match(taker, price, takerId, m - {p}, d.remaining, d.index);
        rest.(fills := d.fills + rest.fills)
  }

  /** A new order: what it trades, and the book with its residue resting. */
  ghost function NewOrder(b: Book, id: UInt64, side: Side, price: Int64, quantity: int, sequence: UInt64): (seq<Fill>, Book) {
    if quantity <= 0 || id in b.index then ([], b)
    else
      var opp := Opposite(side);
      var r := Match(side, price, id, LevelsOf(b, opp), quantity, b.index);
      var traded := WithLevels(b, opp, r.left).(index := r.index);
      (r.fills, if r.remaining > 0 then AddResting(traded, Order(id, side, price, r.remaining, sequence)) else traded)
  }
}
