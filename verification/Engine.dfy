/** The injected order book: either implementation behind one set of operations. */
module Engine {
  import opened Bytes
  import opened BookSpec
  import B = BookSpec
  import M = MapOrderBook
  import S = SkipListOrderBook

  datatype Engine = MapEngine(tree: M.MapOrderBook) | SkipEngine(skip: S.SkipListOrderBook) {

    /** What the engine may read and write. */
    ghost function Objects(): set<object>
      reads if MapEngine? then {tree} else {skip, skip.bids, skip.asks}
    {
      if MapEngine? then {tree} else skip.Footprint()
    }

    lemma {:induction false} OwnsItsParts()
      ensures (if MapEngine? then {tree} else {skip, skip.bids, skip.asks}) <= Objects()
    {
    }

    ghost predicate Valid()
      reads if MapEngine? then {tree} else {skip, skip.bids, skip.asks}
      reads Objects()
    {
      if MapEngine? then tree.Valid() else skip.Valid()
    }

    ghost function View(): Book
      reads if MapEngine? then {tree} else {skip, skip.bids, skip.asks}
    {
      if MapEngine? then tree.View() else skip.View()
    }

    method NewOrder(orderId: UInt64, side: Side, price: Int64, quantity: Int64, sequence: UInt64) returns (fills: seq<Fill>)
      requires Valid()
      modifies Objects()
      ensures Valid() && (forall o :: o in Objects() ==> o in old(Objects()) || fresh(o))
      ensures (fills, View()) == B.NewOrder(old(View()), orderId, side, price, quantity, sequence)
    {
      match this
      case MapEngine(t) => fills := t.NewOrder(orderId, side, price, quantity, sequence);
      case SkipEngine(k) => fills := k.NewOrder(orderId, side, price, quantity, sequence);
    }

    method CancelOrder(orderId: UInt64) returns (ok: bool)
      requires Valid()
      modifies Objects()
      ensures Valid() && (forall o :: o in Objects() ==> o in old(Objects()) || fresh(o))
      ensures View() == Cancel(old(View()), orderId) && ok == (orderId in old(View()).index)
    {
      match this
      case MapEngine(t) => ok := t.CancelOrder(orderId);
      case SkipEngine(k) => ok := k.CancelOrder(orderId);
    }

    method ModifyOrder(orderId: UInt64, newPrice: Int64, newQuantity: Int64, newSequence: UInt64) returns (ok: bool)
      requires Valid()
      modifies Objects()
      ensures Valid() && (forall o :: o in Objects() ==> o in old(Objects()) || fresh(o))
      ensures View() == Modify(old(View()), orderId, newPrice, newQuantity, newSequence) && ok == (orderId in old(View()).index)
    {
      match this
      case MapEngine(t) => ok := t.ModifyOrder(orderId, newPrice, newQuantity, newSequence);
      case SkipEngine(k) => ok := k.ModifyOrder(orderId, newPrice, newQuantity, newSequence);
    }

    method AddRestingOrder(o: Order)
      requires Valid()
      modifies Objects()
      ensures Valid() && (forall o :: o in Objects() ==> o in old(Objects()) || fresh(o)) && View() == AddResting(old(View()), o)
    {
      match this
      case MapEngine(t) => t.AddResting(o);
      case SkipEngine(k) => k.AddResting(o);
    }

    method Reset(symbol: seq<Byte>)
      requires Valid()
      modifies Objects()
      ensures Valid() && (forall o :: o in Objects() ==> o in old(Objects()) || fresh(o)) && View() == Book(symbol, map[], map[], map[])
    {
      match this
      case MapEngine(t) => t.Reset(symbol);
      case SkipEngine(k) => k.Reset(symbol);
    }

    method AllOrders() returns (out: seq<Order>)
      requires Valid()
      ensures out == B.AllOrders(View())
    {
      match this
      case MapEngine(t) => out := t.AllOrders();
      case SkipEngine(k) => out := k.AllOrders();
    }

    method Bids(maxLevels: nat) returns (out: seq<PriceLevel>)
      requires Valid()
      ensures out == Depth(Buy, View().bids, maxLevels)
    {
      match this
      case MapEngine(t) => out := t.Bids(maxLevels);
      case SkipEngine(k) => out := k.Bids(maxLevels);
    }

    method Asks(maxLevels: nat) returns (out: seq<PriceLevel>)
      requires Valid()
      ensures out == Depth(Sell, View().asks, maxLevels)
    {
      match this
      case MapEngine(t) => out := t.Asks(maxLevels);
      case SkipEngine(k) => out := k.Asks(maxLevels);
    }

    /** Whether getOrder finds the id. */
    predicate HasOrderId(orderId: UInt64)
      reads if MapEngine? then {tree} else {skip, skip.bids, skip.asks}
      ensures HasOrderId(orderId) == (orderId in View().index)
    {
      match this
      case MapEngine(t) => t.HasOrderId(orderId)
      case SkipEngine(k) => k.HasOrderId(orderId)
    }

    function Symbol(): (symbol: seq<Byte>)
      reads if MapEngine? then {tree} else {skip, skip.bids, skip.asks}
      ensures symbol == View().symbol
    {
      match this
      case MapEngine(t) => t.symbol
      case SkipEngine(k) => k.symbol
    }
  }
}
