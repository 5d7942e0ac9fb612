/** What cancelling and modifying leave: every other order, in its place. */
module BookCancel {
  import opened Bytes
  import opened BookSpec
  import opened BookInvariant

  /** The orders of other ids, in order. */
  ghost function Without(os: seq<Order>, id: UInt64): seq<Order> {
    if os == [] then []
    else if os[0].id == id then Without(os[1..], id)
    else [os[0]] + Without(os[1..], id)
  }

  lemma {:induction false} WithoutBoth(a: seq<Order>, b: seq<Order>, id: UInt64)
    ensures Without(a + b, id) == Without(a, id) + Without(b, id)
    decreases |a|
  {
    if a == [] {
      assert a + b == b;
    } else {
      assert (a + b)[1..] == a[1..] + b;
      WithoutBoth(a[1..], b, id);
    }
  }

  lemma {:induction false} NothingToDrop(os: seq<Order>, id: UInt64)
    requires !HasOrder(os, id)
    ensures Without(os, id) == os
  {
    if os != [] {
      assert os[0].id != id;
      forall k | 0 <= k < |os[1..]| ensures os[1..][k].id != id {
        assert os[k + 1].id != id;
      }
      NothingToDrop(os[1..], id);
    }
  }

  lemma {:induction false} RemoveLastIsWithout(os: seq<Order>, id: UInt64)
    requires DistinctIds(os)
    ensures RemoveLast(os, id) == Without(os, id)
    decreases |os|
  {
    if os != [] {
      var n := |os| - 1;
      var front, last := os[..n], os[n];
      assert os == front + [last];
      WithoutBoth(front, [last], id);
      assert [last][1..] == [];
      if last.id == id {
        assert forall k :: 0 <= k < n ==> front[k] == os[k];
        NothingToDrop(front, id);
      } else {
        RemoveLastIsWithout(front, id);
      }
    }
  }

  /** Only the level at `price` may hold the id. */
  ghost predicate OnlyAt(m: Levels, price: Int64, id: UInt64) { forall p :: p in m && p != price ==> !HasOrder(m[p], id) }

  lemma {:induction false} FlattenUntouched(s: Side, m: Levels, id: UInt64)
    requires forall p :: p in m ==> !HasOrder(m[p], id)
    ensures Without(Flatten(s, m), id) == Flatten(s, m)
    decreases |m|
  {
    if m != map[] {
      var p := Best(s, m.Keys);
      FewerKeys(m, p);
      var rest := Flatten(s, m - {p});
      WithoutBoth(m[p], rest, id);
      NothingToDrop(m[p], id);
      FlattenUntouched(s, m - {p}, id);
    }
  }

  /** The best level loses the id. */
  lemma {:induction false} BestLevelWithout(s: Side, m: Levels, p: Int64, id: UInt64)
    requires IsBest(s, m.Keys, p) && OnlyAt(m, p, id)
    ensures Flatten(s, SetLevel(m, p, Without(m[p], id))) == Without(Flatten(s, m), id)
  {
    var q, rest := Without(m[p], id), m - {p};
    FlattenFront(s, m, p);
    hide Flatten;
    WithoutBoth(m[p], Flatten(s, rest), id);
    FlattenUntouched(s, rest, id);
    if q == [] {
      assert [] + Flatten(s, rest) == Flatten(s, rest);
    } else {
      assert m[p := q].Keys == m.Keys;
      FlattenFront(s, m[p := q], p);
      assert m[p := q] - {p} == rest;
    }
  }

  lemma {:induction false} SetElsewhere(s: Side, m: Levels, p: Int64, price: Int64, q: seq<Order>)
    requires IsBest(s, m.Keys, p) && price in m && price != p
    ensures var m' := SetLevel(m, price, q);
            IsBest(s, m'.Keys, p) && m'[p] == m[p] && m' - {p} == SetLevel(m - {p}, price, q)
  {
  }

  lemma {:induction false} FlattenWithout(s: Side, m: Levels, price: Int64, id: UInt64)
    requires price in m && OnlyAt(m, price, id)
    ensures Flatten(s, SetLevel(m, price, Without(m[price], id))) == Without(Flatten(s, m), id)
    decreases |m|
  {
    var p := Best(s, m.Keys);
    if p == price {
      BestLevelWithout(s, m, p, id);
    } else {
      var q, rest := Without(m[price], id), m - {p};
      FewerKeys(m, p);
      SetElsewhere(s, m, p, price, q);
      FlattenFront(s, m, p);
      FlattenFront(s, SetLevel(m, price, q), p);
      WithoutBoth(m[p], Flatten(s, rest), id);
      NothingToDrop(m[p], id);
      hide Flatten;
      hide SetLevel;
      hide Without;
      hide HasOrder;
      FlattenWithout(s, rest, price, id);
    }
  }

  /** On a good book an id is nowhere but at its indexed place. */
  lemma {:induction false} NowhereElse(b: Book, s: Side, p: Int64, id: UInt64)
    requires BookOk(b) && p in LevelsOf(b, s) && HasOrder(LevelsOf(b, s)[p], id)
    ensures id in b.index && b.index[id] == Location(s, p)
  {
    var os := LevelsOf(b, s)[p];
    assert QueueOk(s, p, b.index, os);
    var k :| 0 <= k < |os| && os[k].id == id;
    assert OrderOk(s, p, b.index, os[k]);
  }

  lemma {:induction false} SideWithout(b: Book, id: UInt64, s: Side)
    requires BookOk(b) && id in b.index
    ensures Flatten(s, LevelsOf(Cancel(b, id), s)) == Without(Flatten(s, LevelsOf(b, s)), id)
  {
    hide HasOrder;
    hide Flatten;
    var loc, m := b.index[id], LevelsOf(b, s);
    forall p | p in m && HasOrder(m[p], id) ensures loc == Location(s, p) {
      NowhereElse(b, s, p, id);
    }
    if s == loc.side {
      assert Located(b, id);
      assert QueueOk(s, loc.price, b.index, m[loc.price]);
      RemoveLastIsWithout(m[loc.price], id);
      FlattenWithout(s, m, loc.price, id);
    } else {
      FlattenUntouched(s, m, id);
    }
  }

  /** Cancelling takes exactly the order of that id out of the book's list, and nothing else moves. */
  lemma {:induction false} CancelRemovesOnly(b: Book, id: UInt64)
    requires BookOk(b)
    ensures AllOrders(Cancel(b, id)) == Without(AllOrders(b), id)
  {
    hide Flatten;
    hide Cancel;
    var bids, asks := Flatten(Buy, b.bids), Flatten(Sell, b.asks);
    WithoutBoth(bids, asks, id);
    if id in b.index {
      SideWithout(b, id, Buy);
      SideWithout(b, id, Sell);
    } else {
      CancelUnknown(b, id);
    }
  }

  lemma {:induction false} CancelUnknown(b: Book, id: UInt64)
    requires BookOk(b) && id !in b.index
    ensures Cancel(b, id) == b
    ensures Without(Flatten(Buy, b.bids), id) == Flatten(Buy, b.bids) && Without(Flatten(Sell, b.asks), id) == Flatten(Sell, b.asks)
  {
    forall p | p in b.bids ensures !HasOrder(b.bids[p], id) {
      if HasOrder(b.bids[p], id) { NowhereElse(b, Buy, p, id); }
    }
    forall p | p in b.asks ensures !HasOrder(b.asks[p], id) {
      if HasOrder(b.asks[p], id) { NowhereElse(b, Sell, p, id); }
    }
    FlattenUntouched(Buy, b.bids, id);
    FlattenUntouched(Sell, b.asks, id);
  }

  // ----- modifying -----

  /** Cancelling an order that was just added gives back the book before it. */
  lemma {:induction false} CancelUndoesAdd(b: Book, o: Order)
    requires BookOk(b) && o.id !in b.index
    ensures Cancel(AddResting(b, o), o.id) == b
  {
    var m := LevelsOf(b, o.side);
    var queue := if o.price in m then m[o.price] else [];
    PushThenRemove(queue, o);
    assert o.price in m ==> QueueOk(o.side, o.price, b.index, m[o.price]) && queue != [];
    LevelGivenBack(m, o);
    var b' := AddResting(b, o);
    assert b'.index - {o.id} == b.index;
    assert b'.index[o.id] == Location(o.side, o.price);
    RestsAtItsSide(b, o);
    hide AddTo;
    hide RemoveFrom;
    hide BookOk;
  }

  lemma {:induction false} PushThenRemove(queue: seq<Order>, o: Order)
    ensures RemoveLast(queue + [o], o.id) == queue
  {
    assert (queue + [o])[..|queue|] == queue;
  }

  lemma {:induction false} LevelGivenBack(m: Levels, o: Order)
    requires o.price in m ==> m[o.price] != []
    ensures RemoveFrom(AddTo(m, o), o.price, o.id) == m
  {
    var queue := if o.price in m then m[o.price] else [];
    PushThenRemove(queue, o);
    assert o.price !in m ==> AddTo(m, o) - {o.price} == m;
    assert o.price in m ==> AddTo(m, o)[o.price := queue] == m;
  }

  /** Modifying, also with no quantity or an unknown id, leaves every other order in its place. */
  lemma {:induction false} ModifyLeavesOthers(b: Book, id: UInt64, price: Int64, quantity: Int64, sequence: UInt64)
    requires BookOk(b)
    ensures Without(AllOrders(Modify(b, id, price, quantity, sequence)), id) == Without(AllOrders(b), id)
  {
    hide AllOrders;
    hide Without;
    hide Cancel;
    hide AddResting;
    if id in b.index {
      var kept := Cancel(b, id);
      CancelKeeps(b, id);
      CancelForgets(b, id);
      CancelRemovesOnly(b, id);
      if quantity > 0 {
        var o := Order(id, b.index[id].side, price, quantity, sequence);
        AddKeeps(kept, o);
        CancelUndoesAdd(kept, o);
        CancelRemovesOnly(AddResting(kept, o), id);
      } else {
        CancelTwice(b, id);
        CancelRemovesOnly(kept, id);
      }
    }
  }

  lemma {:induction false} CancelForgets(b: Book, id: UInt64)
    ensures id !in Cancel(b, id).index
  {
  }

  lemma {:induction false} CancelTwice(b: Book, id: UInt64)
    ensures Cancel(Cancel(b, id), id) == Cancel(b, id)
  {
  }

  /** A modified order leaves its old place and goes to the end of its new level; every other order
      keeps its place. */
  lemma {:induction false} ModifyMovesOnly(b: Book, id: UInt64, price: Int64, quantity: Int64, sequence: UInt64)
    requires BookOk(b) && id in b.index && quantity > 0
    ensures var side := b.index[id].side;
            var kept, b' := Cancel(b, id), Modify(b, id, price, quantity, sequence);
            && Without(AllOrders(b'), id) == Without(AllOrders(b), id) == AllOrders(kept)
            && LevelsOf(b', Opposite(side)) == LevelsOf(kept, Opposite(side))
            && LevelsOf(b', side) == AddTo(LevelsOf(kept, side), Order(id, side, price, quantity, sequence))
  {
    CancelRemovesOnly(b, id);
    ModifyLeavesOthers(b, id, price, quantity, sequence);
    RestsAtItsSide(Cancel(b, id), Order(id, b.index[id].side, price, quantity, sequence));
    hide *;
    ModifyIs(b, id, price, quantity, sequence);
  }

  lemma {:induction false} RestsAtItsSide(b: Book, o: Order)
    ensures var b' := AddResting(b, o);
            && LevelsOf(b', o.side) == AddTo(LevelsOf(b, o.side), o)
            && LevelsOf(b', Opposite(o.side)) == LevelsOf(b, Opposite(o.side))
  {
  }

  lemma {:induction false} ModifyIs(b: Book, id: UInt64, price: Int64, quantity: Int64, sequence: UInt64)
    requires id in b.index && quantity > 0
    ensures Modify(b, id, price, quantity, sequence)
         == AddResting(Cancel(b, id), Order(id, b.index[id].side, price, quantity, sequence))
  {
  }
}
