/** The order book over two skip lists, whose nodes hold the queues of the price levels. */
module SkipListOrderBook {
  import opened Bytes
  import opened BookSpec
  import B = BookSpec
  import opened BookInvariant
  import opened BookTheorems
  import opened BookRules
  import opened BookSoundness
  import opened SkipList
  import S = SkipList
  import M = MapOrderBook

  type SideList = SkipList<seq<Order>>

  const MAX_LEVEL := 16

  // ----- one side -----

  /** The node of a price, inserted with an empty queue if need be. */
  method FindOrInsert(list: SideList, price: Int64) returns (node: Node<seq<Order>>)
    requires list.Valid()
    modifies list, list.all
    ensures list.Valid() && fresh(list.Repr() - old(list.Repr()))
    ensures node in list.all[1..] && (fresh(node) || node in old(list.all)) && node.key == price
    ensures list.contents == if price in old(list.contents) then old(list.contents) else old(list.contents)[price := []]
    ensures price in list.contents && node.value == list.contents[price]
  {
    hide RowOk;
    hide Linked;
    hide Holds;
    var n := list.Find(price);
    if n == null {
      var _ := list.Insert(price, []);
      n := list.Find(price);
    }
    node := n;
  }

  method AddOrder(list: SideList, o: Order)
    requires list.Valid()
    modifies list, list.all
    ensures list.Valid() && list.contents == AddTo(old(list.contents), o) && fresh(list.Repr() - old(list.Repr()))
  {
    hide RowOk;
    hide Linked;
    hide Holds;
    hide NodeSet;
    var node := FindOrInsert(list, o.price);
    Push(list, node, o);
  }

  method Push(list: SideList, node: Node<seq<Order>>, o: Order)
    requires list.Valid() && node in list.all[1..] && node.key in list.contents && node.value == list.contents[node.key]
    modifies list`contents, node`value
    ensures list.Valid() && list.contents == old(list.contents)[node.key := old(list.contents)[node.key] + [o]]
    ensures list.Repr() == old(list.Repr())
  {
    list.Store(node, node.value + [o]);
  }

  method RemoveOrder(list: SideList, price: Int64, id: UInt64)
    requires list.Valid()
    modifies list, list.all
    ensures list.Valid() && list.contents == RemoveFrom(old(list.contents), price, id) && list.Repr() <= old(list.Repr())
  {
    var node := list.Find(price);
    if node != null {
      SetQueue(list, node, RemoveLast(node.value, id));
    }
  }

  /** Leaves a queue at a node's price, and drops the level if it ran empty. */
  method SetQueue(list: SideList, node: Node<seq<Order>>, queue: seq<Order>)
    requires list.Valid() && node in list.all[1..]
    modifies list, list.all
    ensures list.Valid() && list.contents == SetLevel(old(list.contents), node.key, queue) && list.Repr() <= old(list.Repr())
  {
    hide RowOk;
    hide Linked;
    hide Holds;
    list.Store(node, queue);
    if queue == [] {
      var _ := list.Remove(node.key);
      assert list.contents == old(list.contents) - {node.key};
    }
  }

  // ----- walking a side -----

  /** `rest` is what m holds at the keys from place j on. */
  ghost predicate RestOf(all: seq<Node<seq<Order>>>, m: Levels, j: nat, rest: Levels) {
    && (forall i :: j <= i < |all| ==> all[i].key in rest)
    && (forall k :: k in rest ==> k in m && rest[k] == m[k] && HasKeyFrom(all, j, k))
  }

  ghost predicate HasKeyFrom(all: seq<Node<seq<Order>>>, j: nat, k: Int64) { exists i :: j <= i < |all| && all[i].key == k }

  /** The walk meets the best of the remaining prices next. */
  lemma {:induction false} RestFront(s: Side, all: seq<Node<seq<Order>>>, m: Levels, j: nat, rest: Levels)
    requires Sorted(s == Buy, all) && 1 <= j < |all| && RestOf(all, m, j, rest)
    ensures rest != map[] && Best(s, rest.Keys) == all[j].key && RestOf(all, m, j + 1, rest - {all[j].key})
  {
    var p := all[j].key;
    forall k | k in rest ensures k == p || (Better(s, p, k) && HasKeyFrom(all, j + 1, k)) {
      var i :| j <= i < |all| && all[i].key == k;
      assert i > j ==> S.Before(s == Buy, p, all[i].key);
    }
    BestUnique(s, rest.Keys, p);
    forall i | j + 1 <= i < |all| ensures all[i].key in rest - {p} {
      assert S.Before(s == Buy, p, all[i].key);
    }
  }

  /** One round of the walk: the node met next, its queue and its successor. */
  lemma {:induction false} WalkStep(s: Side, list: SideList, j: nat, rest: Levels)
    requires list.Valid() && list.descending == (s == Buy) && 1 <= j < |list.all| && RestOf(list.all, list.contents, j, rest)
    ensures var n := list.all[j];
            && n.key in rest && n.value == rest[n.key] && Best(s, rest.Keys) == n.key
            && |n.forward| >= 1 && n.forward[0] == At(list.all, j + 1)
            && RestOf(list.all, list.contents, j + 1, rest - {n.key})
  {
    RestFront(s, list.all, list.contents, j, rest);
    list.NextInRow(j);
  }

  lemma {:induction false} WalkStart(list: SideList)
    requires list.Valid()
    ensures RestOf(list.all, list.contents, 1, list.contents)
  {
    forall k | k in list.contents ensures HasKeyFrom(list.all, 1, k) {
      assert HasKey(list.all, k);
    }
  }

  lemma {:induction false} WalkEnds(list: SideList, j: nat, rest: Levels)
    requires At(list.all, j) == null && RestOf(list.all, list.contents, j, rest)
    ensures rest == map[]
  {
    assert rest.Keys == {};
  }

  method CollectList(s: Side, list: SideList) returns (out: seq<Order>)
    requires list.Valid() && list.descending == (s == Buy)
    ensures out == Flatten(s, list.contents)
  {
    hide Flatten;
    hide S.SkipList.Valid;
    hide RestOf;
    hide Best;
    WalkStart(list);
    out := [];
    var n := list.Best();
    ghost var j: nat, rest := 1, list.contents;
    while n != null
      invariant 1 <= j && n == At(list.all, j) && RestOf(list.all, list.contents, j, rest)
      invariant [] + Flatten(s, list.contents) == out + Flatten(s, rest)
      decreases |list.all| - j
    {
      WalkStep(s, list, j, rest);
      M.CollectRound(s, rest, n.key, out);
      out := M.AppendLevel(out, n.value);
      rest, j := rest - {n.key}, j + 1;
      n := n.forward[0];
    }
    WalkEnds(list, j, rest);
    M.FlattenEnds(s, out);
  }

  method CollectDepth(s: Side, list: SideList, maxLevels: nat) returns (out: seq<PriceLevel>)
    requires list.Valid() && list.descending == (s == Buy)
    ensures out == Depth(s, list.contents, maxLevels)
  {
    hide Depth;
    hide S.SkipList.Valid;
    hide RestOf;
    hide Best;
    hide TotalQuantity;
    WalkStart(list);
    out := [];
    var n := list.Best();
    ghost var j: nat, rest := 1, list.contents;
    while n != null
      invariant 1 <= j && n == At(list.all, j) && RestOf(list.all, list.contents, j, rest)
      invariant maxLevels == 0 || |out| < maxLevels
      invariant [] + Depth(s, list.contents, maxLevels) == out + Depth(s, rest, M.Left(maxLevels, |out|))
      decreases |list.all| - j
    {
      WalkStep(s, list, j, rest);
      M.DepthFront(s, rest, n.key, maxLevels, out);
      var pl := M.Summarize(n.key, n.value);
      out := out + [pl];
      if maxLevels != 0 && |out| >= maxLevels { return; }
      rest, j := rest - {n.key}, j + 1;
      n := n.forward[0];
    }
    WalkEnds(list, j, rest);
    M.DepthEnds(s, M.Left(maxLevels, |out|), out);
  }

  lemma {:induction false} ReprIsAll(list: SideList)
    ensures forall i :: 0 <= i < |list.all| ==> list.all[i] in list.Repr()
    ensures forall n :: n in list.Repr() ==> n in list.all
  {
  }

  method EmptySides() returns (bids: SideList, asks: SideList)
    ensures fresh(bids) && fresh(asks) && fresh(bids.Repr()) && fresh(asks.Repr()) && bids != asks && bids.Repr() !! asks.Repr()
    ensures bids.Valid() && bids.descending && bids.contents == map[]
    ensures asks.Valid() && !asks.descending && asks.contents == map[]
  {
    hide RowOk;
    hide Linked;
    hide Holds;
    bids := new SkipList<seq<Order>>(MAX_LEVEL, true);
    asks := new SkipList<seq<Order>>(MAX_LEVEL, false);
  }

  class SkipListOrderBook {
    var symbol: seq<Byte>
    var bids: SideList
    var asks: SideList
    var orderIndex: Index

    ghost function View(): Book
      reads this, bids, asks
    {
      Book(symbol, bids.contents, asks.contents, orderIndex)
    }

    /** Both lists are in order and share no node. */
    ghost predicate ListsOk()
      reads this, bids, asks, bids.all, asks.all
    {
      && bids != asks && bids.descending && !asks.descending
      && bids.Valid() && asks.Valid() && bids.Repr() !! asks.Repr()
    }

    ghost predicate Valid()
      reads this, bids, asks, bids.all, asks.all
    {
      ListsOk() && Sound(View())
    }

    ghost function Footprint(): (objects: set<object>)
      reads this, bids, asks
      ensures this in objects
    {
      {this, bids, asks} + bids.Repr() + asks.Repr()
    }

    constructor (symbol: seq<Byte>)
      ensures Valid() && View() == Book(symbol, map[], map[], map[]) && fresh(Footprint())
    {
      hide S.SkipList.Valid;
      hide Located;
      hide NodeSet;
      this.symbol, orderIndex := symbol, map[];
      var b, a := EmptySides();
      bids, asks := b, a;
    }

    method Reset(symbol: seq<Byte>)
      modifies this
      ensures Valid() && View() == Book(symbol, map[], map[], map[]) && fresh(Footprint() - {this})
    {
      hide S.SkipList.Valid;
      hide Located;
      hide NodeSet;
      this.symbol, orderIndex := symbol, map[];
      var b, a := EmptySides();
      bids, asks := b, a;
    }

    // ----- one side changes -----

    method AddToSide(o: Order)
      requires ListsOk()
      modifies Footprint() - {this}
      ensures ListsOk() && fresh(Footprint() - old(Footprint()))
      ensures View() == WithLevels(old(View()), o.side, AddTo(LevelsOf(old(View()), o.side), o))
    {
      hide S.SkipList.Valid;
      ReprIsAll(bids);
      ReprIsAll(asks);
      if o.side == Buy { AddOrder(bids, o); } else { AddOrder(asks, o); }
    }

    method RemoveFromSide(loc: Location, id: UInt64)
      requires ListsOk()
      modifies Footprint() - {this}
      ensures ListsOk() && fresh(Footprint() - old(Footprint()))
      ensures View() == WithLevels(old(View()), loc.side, RemoveFrom(LevelsOf(old(View()), loc.side), loc.price, id))
    {
      hide S.SkipList.Valid;
      ReprIsAll(bids);
      ReprIsAll(asks);
      if loc.side == Buy { RemoveOrder(bids, loc.price, id); } else { RemoveOrder(asks, loc.price, id); }
    }

    // ----- mutations -----

    method AddResting(o: Order)
      requires Valid()
      modifies Footprint()
      ensures Valid() && View() == B.AddResting(old(View()), o) && fresh(Footprint() - old(Footprint()))
    {
      hide S.SkipList.Valid;
      hide NodeSet;
      hide Sound;
      hide AddTo;
      AddKeepsSound(View(), o);
      AddToSide(o);
      orderIndex := orderIndex[o.id := Location(o.side, o.price)];
    }

    method CancelOrder(orderId: UInt64) returns (ok: bool)
      requires Valid()
      modifies Footprint()
      ensures Valid() && View() == Cancel(old(View()), orderId) && fresh(Footprint() - old(Footprint()))
      ensures ok == (orderId in old(orderIndex))
    {
      hide S.SkipList.Valid;
      hide NodeSet;
      hide Sound;
      hide RemoveFrom;
      if orderId !in orderIndex { return false; }
      CancelKeepsSound(View(), orderId);
      RemoveFromSide(orderIndex[orderId], orderId);
      orderIndex := orderIndex - {orderId};
      return true;
    }

    method ModifyOrder(orderId: UInt64, newPrice: Int64, newQuantity: Int64, newSequence: UInt64) returns (ok: bool)
      requires Valid()
      modifies Footprint()
      ensures Valid() && View() == Modify(old(View()), orderId, newPrice, newQuantity, newSequence)
      ensures ok == (orderId in old(orderIndex)) && fresh(Footprint() - old(Footprint()))
    {
      hide S.SkipList.Valid;
      hide ListsOk;
      hide Sound;
      hide B.AddResting;
      hide Cancel;
      if orderId !in orderIndex { return false; }
      var side := orderIndex[orderId].side;
      var _ := CancelOrder(orderId);
      if newQuantity > 0 {
        AddResting(Order(orderId, side, newPrice, newQuantity, newSequence));
      }
      return true;
    }

    method NewOrder(orderId: UInt64, side: Side, price: Int64, quantity: Int64, sequence: UInt64) returns (fills: seq<Fill>)
      requires Valid()
      modifies Footprint()
      ensures Valid() && (fills, View()) == B.NewOrder(old(View()), orderId, side, price, quantity, sequence)
      ensures fresh(Footprint() - old(Footprint()))
    {
      hide S.SkipList.Valid;
      hide ListsOk;
      hide Sound;
      hide B.AddResting;
      hide B.Match;
      fills := [];
      if quantity <= 0 { return; }
      if orderId in orderIndex { return; }
      var remaining;
      fills, remaining := Match(side, price, quantity, orderId);
      if remaining > 0 {
        AddResting(Order(orderId, side, price, remaining, sequence));
      }
    }

    // ----- matching -----

    /** The best node of a side; null if the side is empty. */
    method BestNode(s: Side) returns (node: Node?<seq<Order>>)
      requires ListsOk()
      ensures var m := LevelsOf(View(), s);
              && (node == null <==> m == map[])
              && (node != null ==> node.key in m && node.key == Best(s, m.Keys) && node.value == m[node.key])
      ensures node != null ==> node in (if s == Buy then bids else asks).all[1..]
    {
      hide S.SkipList.Valid;
      hide NodeSet;
      if s == Buy {
        node := bids.Best();
        if node != null { BestUnique(Buy, bids.contents.Keys, node.key); }
      } else {
        node := asks.Best();
        if node != null { BestUnique(Sell, asks.contents.Keys, node.key); }
      }
    }

    /** Leaves a queue at a node of one side, and drops the level if it ran empty. */
    method SetSide(s: Side, node: Node<seq<Order>>, queue: seq<Order>)
      requires ListsOk() && node in (if s == Buy then bids else asks).all[1..]
      modifies Footprint() - {this}
      ensures ListsOk() && fresh(Footprint() - old(Footprint()))
      ensures View() == WithLevels(old(View()), s, SetLevel(LevelsOf(old(View()), s), node.key, queue))
    {
      hide S.SkipList.Valid;
      ReprIsAll(bids);
      ReprIsAll(asks);
      if s == Buy { SetQueue(bids, node, queue); } else { SetQueue(asks, node, queue); }
    }

    /** One round of the outer loop: trade with the best opposite level, if the limit reaches it. */
    method TradeBest(takerSide: Side, takerPrice: Int64, quantity: int, takerId: UInt64)
      returns (stop: bool, fills: seq<Fill>, remaining: int)
      requires Valid() && quantity > 0
      modifies Footprint()
      ensures Valid() && fresh(Footprint() - old(Footprint()))
      ensures var b, opp := old(View()), Opposite(takerSide);
              var m := LevelsOf(b, opp);
              && stop == (m == map[] || !Crosses(takerSide, takerPrice, Best(opp, m.Keys)))
              && (stop ==> View() == b && fills == [] && remaining == quantity)
              && (!stop ==> var p := Best(opp, m.Keys);
                            var d := Drain(takerSide, takerId, m[p], quantity, b.index);
                            && fills == d.fills && remaining == d.remaining
                            && View() == Replaced(b, opp, SetLevel(m, p, d.left), d.index))
    {
      hide S.SkipList.Valid;
      hide Sound;
      hide Drain;
      hide SetLevel;
      var node := BestNode(Opposite(takerSide));
      if node == null { return true, [], quantity; }
      if takerSide == Buy {
        if takerPrice < node.key { return true, [], quantity; }
      } else {
        if takerPrice > node.key { return true, [], quantity; }
      }
      DrainKeepsSound(View(), takerSide, takerId, node.key, quantity);
      var level, index;
      fills, level, remaining, index := M.TradeLevel(takerSide, takerId, node.value, quantity, orderIndex);
      SetSide(Opposite(takerSide), node, level);
      orderIndex := index;
      stop := false;
    }

    /** Trades level by level while the limit reaches the best opposite price. */
    method Match(takerSide: Side, takerPrice: Int64, quantity: int, takerId: UInt64)
      returns (fills: seq<Fill>, remaining: int)
      requires Valid()
      modifies Footprint()
      ensures var opp := Opposite(takerSide);
              var r := B.Match(takerSide, takerPrice, takerId, LevelsOf(old(View()), opp), quantity, old(orderIndex));
              fills == r.fills && remaining == r.remaining && View() == Replaced(old(View()), opp, r.left, r.index)
      ensures Valid() && fresh(Footprint() - old(Footprint()))
    {
      hide S.SkipList.Valid;
      hide ListsOk;
      hide B.Match;
      hide Drain;
      hide Sound;
      hide Replaced;
      hide SetLevel;
      hide LevelsOf;
      ghost var b0, opp := View(), Opposite(takerSide);
      ghost var m := LevelsOf(b0, opp);
      ghost var goal := B.Match(takerSide, takerPrice, takerId, m, quantity, orderIndex);
      fills, remaining := [], quantity;
      ReplacedTwice(b0, opp, m, orderIndex, m, orderIndex);
      while remaining > 0
        invariant Valid() && View() == Replaced(b0, opp, m, orderIndex) && fresh(Footprint() - old(Footprint()))
        invariant After([], goal) == After(fills, B.Match(takerSide, takerPrice, takerId, m, remaining, orderIndex))
        decreases |m|, if remaining > 0 then 1 else 0
      {
        ghost var index := orderIndex;
        ReplacedTwice(b0, opp, m, index, m, index);
        var stop, traded, left := TradeBest(takerSide, takerPrice, remaining, takerId);
        if stop { break; }
        ghost var p := Best(opp, m.Keys);
        ghost var d := Drain(takerSide, takerId, m[p], remaining, index);
        ghost var m' := SetLevel(m, p, d.left);
        MatchRound(takerSide, takerPrice, takerId, m, remaining, index, p, fills);
        ReplacedTwice(b0, opp, m, index, m', d.index);
        ReplacedTwice(b0, opp, m', d.index, m', d.index);
        fills, remaining := fills + traded, left;
        m := m';
      }
      MatchStops(takerSide, takerPrice, takerId, m, remaining, orderIndex);
    }

    // ----- queries -----

    method AllOrders() returns (out: seq<Order>)
      requires Valid()
      ensures out == B.AllOrders(View())
    {
      var bs := CollectList(Buy, bids);
      var ss := CollectList(Sell, asks);
      out := bs + ss;
    }

    method Bids(maxLevels: nat) returns (out: seq<PriceLevel>)
      requires Valid()
      ensures out == Depth(Buy, View().bids, maxLevels)
    {
      out := CollectDepth(Buy, bids, maxLevels);
    }

    method Asks(maxLevels: nat) returns (out: seq<PriceLevel>)
      requires Valid()
      ensures out == Depth(Sell, View().asks, maxLevels)
    {
      out := CollectDepth(Sell, asks, maxLevels);
    }

    predicate HasOrderId(orderId: UInt64)
      reads this
    {
      orderId in orderIndex
    }
  }
}
