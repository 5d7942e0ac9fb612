/** The order book over ordered maps.  The fields are the source's: two maps from price to queue and
    the id index.  Iteration in map order is iteration from the best price on. */
module MapOrderBook {
  import opened Bytes
  import opened BookSpec
  import B = BookSpec
  import opened BookInvariant
  import opened BookTheorems
  import opened BookRules
  import opened BookSoundness
  import opened BookDepth

  /** The first key of an ordered map. */
  method Begin(s: Side, m: Levels) returns (p: Int64)
    requires m != map[]
    ensures p == Best(s, m.Keys)
  {
    SomeBest(s, m.Keys);
    p :| p in m.Keys && forall q :: q in m.Keys ==> q == p || Better(s, p, q);
    BestUnique(s, m.Keys, p);
  }

  /** Appends the orders of one level. */
  method AppendLevel(before: seq<Order>, level: seq<Order>) returns (out: seq<Order>)
    ensures out == before + level
  {
    out := before;
    for i := 0 to |level|
      invariant out == before + level[..i]
    {
      out := out + [level[i]];
    }
  }

  /** One round of collecting takes the best level. */
  lemma {:induction false} CollectRound(s: Side, m: Levels, p: Int64, before: seq<Order>)
    requires m != map[] && p == Best(s, m.Keys)
    ensures before + Flatten(s, m) == before + m[p] + Flatten(s, m - {p})
  {
    Associative(before, m[p], Flatten(s, m - {p}));
  }

  lemma {:induction false} FlattenEnds(s: Side, before: seq<Order>)
    ensures before + Flatten(s, map[]) == before
  {
  }

  /** Appends the orders of one side in book order. */
  method CollectSide(s: Side, m: Levels) returns (out: seq<Order>)
    ensures out == Flatten(s, m)
  {
    hide Flatten;
    hide Best;
    out := [];
    var rest := m;
    while rest != map[]
      invariant [] + Flatten(s, m) == out + Flatten(s, rest)
      decreases |rest|
    {
      var p := Begin(s, rest);
      FewerKeys(rest, p);
      CollectRound(s, rest, p, out);
      out := AppendLevel(out, rest[p]);
      rest := rest - {p};
    }
    FlattenEnds(s, out);
  }

  /** Price, total quantity and number of orders of one level. */
  method Summarize(p: Int64, level: seq<Order>) returns (pl: PriceLevel)
    ensures pl == PriceLevel(p, TotalQuantity(level), |level|)
  {
    pl := PriceLevel(p, 0, 0);
    for i := 0 to |level|
      invariant pl.price == p && pl.orderCount == i
      invariant pl.totalQuantity + TotalQuantity(level[i..]) == TotalQuantity(level)
    {
      assert level[i..][1..] == level[i + 1..];
      pl := pl.(totalQuantity := pl.totalQuantity + level[i].quantity, orderCount := pl.orderCount + 1);
    }
  }

  /** How many more levels a depth view asks for after n of them. */
  function Left(maxLevels: nat, n: nat): nat { if maxLevels <= n then 0 else maxLevels - n }

  lemma {:induction false} DepthFront(s: Side, m: Levels, p: Int64, maxLevels: nat, before: seq<PriceLevel>)
    requires m != map[] && p == Best(s, m.Keys) && (maxLevels == 0 || |before| < maxLevels)
    ensures var out := before + [PriceLevel(p, TotalQuantity(m[p]), |m[p]|)];
            before + Depth(s, m, Left(maxLevels, |before|)) ==
              if |out| == maxLevels then out else out + Depth(s, m - {p}, Left(maxLevels, |out|))
  {
    DepthUnfolds(s, m, p, Left(maxLevels, |before|));
    hide Depth;
    hide Best;
    hide TotalQuantity;
    var front := [PriceLevel(p, TotalQuantity(m[p]), |m[p]|)];
    Associative(before, front, if |before| + 1 == maxLevels then [] else Depth(s, m - {p}, Left(maxLevels, |before| + 1)));
  }

  lemma {:induction false} DepthEnds(s: Side, n: nat, before: seq<PriceLevel>)
    ensures before + Depth(s, map[], n) == before
  {
  }

  /** The depth view of one side, best price first, at most maxLevels levels unless that is 0. */
  method CollectDepth(s: Side, m: Levels, maxLevels: nat) returns (out: seq<PriceLevel>)
    ensures out == Depth(s, m, maxLevels)
  {
    hide Depth;
    hide Best;
    hide TotalQuantity;
    out := [];
    var rest := m;
    while rest != map[]
      invariant maxLevels == 0 || |out| < maxLevels
      invariant [] + Depth(s, m, maxLevels) == out + Depth(s, rest, Left(maxLevels, |out|))
      decreases |rest|
    {
      var p := Begin(s, rest);
      FewerKeys(rest, p);
      DepthFront(s, rest, p, maxLevels, out);
      var pl := Summarize(p, rest[p]);
      out := out + [pl];
      if maxLevels != 0 && |out| >= maxLevels { return; }
      rest := rest - {p};
    }
    DepthEnds(s, Left(maxLevels, |out|), out);
  }

  /** The inner loop of matching: trade against one level's queue from its front. */
  method TradeLevel(takerSide: Side, takerId: UInt64, queue: seq<Order>, quantity: int, orderIndex: Index)
    returns (fills: seq<Fill>, level: seq<Order>, remaining: int, index: Index)
    ensures Matched(fills, level, remaining, index) == Drain(takerSide, takerId, queue, quantity, orderIndex)
  {
    fills, level, remaining, index := [], queue, quantity, orderIndex;
    ghost var goal := Drain(takerSide, takerId, queue, quantity, orderIndex);
    while remaining > 0 && level != []
      invariant After([], goal) == After(fills, Drain(takerSide, takerId, level, remaining, index))
      decreases |level|, remaining
    {
      DrainRound(takerSide, takerId, level, remaining, index, fills);
      hide Drain;
      var maker := level[0];
      var matchQty := Min(remaining, maker.quantity);
      var f := Fill(maker.id, takerId, maker.price, matchQty, takerSide);
      fills := fills + [f];
      remaining := remaining - matchQty;
      if maker.quantity - matchQty <= 0 {
        index := index - {maker.id};
        level := level[1..];
      } else {
        level := level[0 := maker.(quantity := maker.quantity - matchQty)];
      }
    }
  }

  class MapOrderBook {
    var symbol: seq<Byte>
    var bids: Levels
    var asks: Levels
    var orderIndex: Index

    ghost function View(): Book
      reads this
    {
      Book(symbol, bids, asks, orderIndex)
    }

    ghost predicate Valid()
      reads this
    {
      Sound(View())
    }

    constructor (symbol: seq<Byte>)
      ensures Valid() && View() == Book(symbol, map[], map[], map[])
    {
      this.symbol := symbol;
      bids, asks, orderIndex := map[], map[], map[];
    }

    method Reset(symbol: seq<Byte>)
      modifies this
      ensures Valid() && View() == Book(symbol, map[], map[], map[])
    {
      bids, asks, orderIndex := map[], map[], map[];
      this.symbol := symbol;
    }

    // ----- mutations -----

    method AddResting(o: Order)
      requires Valid()
      modifies this
      ensures Valid() && View() == B.AddResting(old(View()), o)
    {
      if o.side == Buy {
        if o.price !in bids { bids := bids[o.price := []]; }
        bids := bids[o.price := bids[o.price] + [o]];
      } else {
        if o.price !in asks { asks := asks[o.price := []]; }
        asks := asks[o.price := asks[o.price] + [o]];
      }
      orderIndex := orderIndex[o.id := Location(o.side, o.price)];
      assert LevelsOf(View(), o.side) == AddTo(LevelsOf(old(View()), o.side), o);
      AddKeepsSound(old(View()), o);
    }

    method CancelOrder(orderId: UInt64) returns (ok: bool)
      requires Valid()
      modifies this
      ensures Valid() && View() == Cancel(old(View()), orderId)
      ensures ok == (orderId in old(orderIndex))
    {
      if orderId !in orderIndex { return false; }
      var loc := orderIndex[orderId];
      assert Located(View(), orderId);
      if loc.side == Buy {
        var level := RemoveLast(bids[loc.price], orderId);
        if level == [] { bids := bids - {loc.price}; } else { bids := bids[loc.price := level]; }
      } else {
        var level := RemoveLast(asks[loc.price], orderId);
        if level == [] { asks := asks - {loc.price}; } else { asks := asks[loc.price := level]; }
      }
      orderIndex := orderIndex - {orderId};
      CancelKeepsSound(old(View()), orderId);
      return true;
    }

    method ModifyOrder(orderId: UInt64, newPrice: Int64, newQuantity: Int64, newSequence: UInt64) returns (ok: bool)
      requires Valid()
      modifies this
      ensures Valid() && View() == Modify(old(View()), orderId, newPrice, newQuantity, newSequence)
      ensures ok == (orderId in old(orderIndex))
    {
      if orderId !in orderIndex { return false; }
      var side := orderIndex[orderId].side;
      var _ := CancelOrder(orderId);
      if newQuantity > 0 {
        AddResting(Order(orderId, side, newPrice, newQuantity, newSequence));
      }
      return true;
    }

    method NewOrder(orderId: UInt64, side: Side, price: Int64, quantity: Int64, sequence: UInt64) returns (fills: seq<Fill>)
      requires Valid()
      modifies this
      ensures Valid() && (fills, View()) == B.NewOrder(old(View()), orderId, side, price, quantity, sequence)
    {
      fills := [];
      if quantity <= 0 { return; }
      if orderId in orderIndex { return; }
      var remaining;
      fills, remaining := Match(side, price, quantity, orderId);
      if remaining > 0 {
        AddResting(Order(orderId, side, price, remaining, sequence));
      }
    }

    // ----- matching -----

    /** One round of the outer loop: trade with the best opposite level, if the limit reaches it. */
    method TradeBest(takerSide: Side, takerPrice: Int64, quantity: int, takerId: UInt64)
      returns (stop: bool, fills: seq<Fill>, remaining: int)
      requires Valid() && quantity > 0
      modifies this
      ensures Valid()
      ensures var b, opp := old(View()), Opposite(takerSide);
              var m := LevelsOf(b, opp);
              && stop == (m == map[] || !Crosses(takerSide, takerPrice, Best(opp, m.Keys)))
              && (stop ==> View() == b && fills == [] && remaining == quantity)
              && (!stop ==> var p := Best(opp, m.Keys);
                            var d := Drain(takerSide, takerId, m[p], quantity, b.index);
                            && fills == d.fills && remaining == d.remaining
                            && View() == Replaced(b, opp, SetLevel(m, p, d.left), d.index))
    {
      var bestPrice: Int64;
      var queue: seq<Order>;
      if takerSide == Buy {
        if asks == map[] { return true, [], quantity; }
        bestPrice := Begin(Sell, asks);
        if takerPrice < bestPrice { return true, [], quantity; }
        queue := asks[bestPrice];
      } else {
        if bids == map[] { return true, [], quantity; }
        bestPrice := Begin(Buy, bids);
        if takerPrice > bestPrice { return true, [], quantity; }
        queue := bids[bestPrice];
      }
      DrainKeepsSound(View(), takerSide, takerId, bestPrice, quantity);
      hide Drain;
      var level;
      fills, level, remaining, orderIndex := TradeLevel(takerSide, takerId, queue, quantity, orderIndex);
      if takerSide == Buy {
        asks := if level == [] then asks - {bestPrice} else asks[bestPrice := level];
      } else {
        bids := if level == [] then bids - {bestPrice} else bids[bestPrice := level];
      }
      stop := false;
    }

    /** Trades level by level while the limit reaches the best opposite price. */
    method Match(takerSide: Side, takerPrice: Int64, quantity: int, takerId: UInt64)
      returns (fills: seq<Fill>, remaining: int)
      requires Valid()
      modifies this
      ensures var opp := Opposite(takerSide);
              var r := B.Match(takerSide, takerPrice, takerId, LevelsOf(old(View()), opp), quantity, old(orderIndex));
              fills == r.fills && remaining == r.remaining && View() == Replaced(old(View()), opp, r.left, r.index)
      ensures Valid()
    {
      hide B.Match;
      hide Drain;
      hide Sound;
      hide Replaced;
      hide SetLevel;
      hide LevelsOf;
      ghost var b0, opp := View(), Opposite(takerSide);
      ghost var m := LevelsOf(b0, opp);
      ghost var goal := B.Match(takerSide, takerPrice, takerId, m, quantity, orderIndex);
      fills, remaining := [], quantity;
      ReplacedTwice(b0, opp, m, orderIndex, m, orderIndex);
      while remaining > 0
        invariant Valid() && View() == Replaced(b0, opp, m, orderIndex)
        invariant After([], goal) == After(fills, B.Match(takerSide, takerPrice, takerId, m, remaining, orderIndex))
        decreases |m|, if remaining > 0 then 1 else 0
      {
        ghost var index := orderIndex;
        ReplacedTwice(b0, opp, m, index, m, index);
        var stop, traded, left := TradeBest(takerSide, takerPrice, remaining, takerId);
        if stop { break; }
        ghost var p := Best(opp, m.Keys);
        ghost var d := Drain(takerSide, takerId, m[p], remaining, index);
        ghost var m' := SetLevel(m, p, d.left);
        MatchRound(takerSide, takerPrice, takerId, m, remaining, index, p, fills);
        ReplacedTwice(b0, opp, m, index, m', d.index);
        ReplacedTwice(b0, opp, m', d.index, m', d.index);
        fills, remaining := fills + traded, left;
        m := m';
      }
      MatchStops(takerSide, takerPrice, takerId, m, remaining, orderIndex);
    }

    // ----- queries -----

    method AllOrders() returns (out: seq<Order>)
      ensures out == B.AllOrders(View())
    {
      var bs := CollectSide(Buy, bids);
      var ss := CollectSide(Sell, asks);
      out := bs + ss;
    }

    method Bids(maxLevels: nat) returns (out: seq<PriceLevel>)
      ensures out == Depth(Buy, bids, maxLevels)
    {
      out := CollectDepth(Buy, bids, maxLevels);
    }

    method Asks(maxLevels: nat) returns (out: seq<PriceLevel>)
      ensures out == Depth(Sell, asks, maxLevels)
    {
      out := CollectDepth(Sell, asks, maxLevels);
    }

    predicate HasOrderId(orderId: UInt64)
      reads this
    {
      orderId in orderIndex
    }
  }
}
