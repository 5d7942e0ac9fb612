/** The uncrossed book and arrival order, through every operation. */
module BookRules {
  import opened Bytes
  import opened BookSpec
  import opened BookInvariant
  import opened BookTheorems

  // ----- the uncrossed book -----

  /** Every bid is below every ask. */
  ghost predicate Uncrossed(b: Book) { forall p, q :: p in b.bids && q in b.asks ==> p < q }

  /** A level is only left standing when the taker is done. */
  lemma {:induction false} DrainEnds(taker: Side, takerId: UInt64, os: seq<Order>, remaining: int, index: Index)
    ensures var d := Drain(taker, takerId, os, remaining, index); d.left != [] ==> d.remaining <= 0
    decreases |os|
  {
    if remaining > 0 && os != [] {
      var q := Min(remaining, os[0].quantity);
      if os[0].quantity - q <= 0 { DrainEnds(taker, takerId, os[1..], remaining - q, index - {os[0].id}); }
    }
  }

  /** Where the outer loop ends, there is nothing more to do. */
  lemma {:induction false} MatchStops(taker: Side, price: Int64, takerId: UInt64, m: Levels, remaining: int, index: Index)
    ensures remaining <= 0 || m == map[] || !Crosses(taker, price, Best(Opposite(taker), m.Keys))
            ==> Match(taker, price, takerId, m, remaining, index) == Matched([], m, remaining, index)
  {
  }

  /** One round of the outer loop. */
  lemma {:induction false} MatchStep(taker: Side, price: Int64, takerId: UInt64, m: Levels, remaining: int, index: Index, p: Int64)
    requires remaining > 0 && m != map[] && p == Best(Opposite(taker), m.Keys) && Crosses(taker, price, p)
    ensures var d := Drain(taker, takerId, m[p], remaining, index);
            var next := Match(taker, price, takerId, SetLevel(m, p, d.left), d.remaining, d.index);
            && Match(taker, price, takerId, m, remaining, index) == next.(fills := d.fills + next.fills)
            && |SetLevel(m, p, d.left)| <= |m| && (d.remaining > 0 ==> |SetLevel(m, p, d.left)| < |m|)
  {
    DrainEnds(taker, takerId, m[p], remaining, index);
    FewerKeys(m, p);
    var d := Drain(taker, takerId, m[p], remaining, index);
    assert m[p := d.left].Keys == m.Keys;
    assert |m[p := d.left]| == |m[p := d.left].Keys| == |m.Keys| == |m|;
  }

  /** A match that continues after `fills`. */
  function After<T>(fills: seq<Fill>, r: Matched<T>): (whole: Matched<T>)
    ensures fills == [] ==> whole == r
    ensures r.fills == [] ==> whole.fills == fills
  {
    r.(fills := fills + r.fills)
  }

  /** One round of the inner loop. */
  lemma {:induction false} DrainRound(taker: Side, takerId: UInt64, level: seq<Order>, remaining: int, index: Index, fills: seq<Fill>)
    requires remaining > 0 && level != []
    ensures var maker := level[0];
            var q := Min(remaining, maker.quantity);
            var fill := Fill(maker.id, takerId, maker.price, q, taker);
            After(fills, Drain(taker, takerId, level, remaining, index)) ==
            if maker.quantity - q <= 0
            then After(fills + [fill], Drain(taker, takerId, level[1..], remaining - q, index - {maker.id}))
            else After(fills + [fill], Drain(taker, takerId, level[0 := maker.(quantity := maker.quantity - q)], remaining - q, index))
  {
    var maker := level[0];
    var q := Min(remaining, maker.quantity);
    var fill := Fill(maker.id, takerId, maker.price, q, taker);
    if maker.quantity - q <= 0 {
      Associative(fills, [fill], Drain(taker, takerId, level[1..], remaining - q, index - {maker.id}).fills);
    } else {
      var maker' := maker.(quantity := maker.quantity - q);
      assert level[0 := maker'] == [maker'] + level[1..];
    }
  }

  lemma {:induction false} MatchRound(taker: Side, price: Int64, takerId: UInt64, m: Levels, remaining: int, index: Index,
                                      p: Int64, fills: seq<Fill>)
    requires remaining > 0 && m != map[] && p == Best(Opposite(taker), m.Keys) && Crosses(taker, price, p)
    ensures var d := Drain(taker, takerId, m[p], remaining, index);
            var m' := SetLevel(m, p, d.left);
            && After(fills, Match(taker, price, takerId, m, remaining, index))
               == After(fills + d.fills, Match(taker, price, takerId, m', d.remaining, d.index))
            && |m'| <= |m| && (d.remaining > 0 ==> |m'| < |m|)
  {
    MatchStep(taker, price, takerId, m, remaining, index, p);
    hide Match;
    hide Drain;
    hide SetLevel;
    var d := Drain(taker, takerId, m[p], remaining, index);
    var next := Match(taker, price, takerId, SetLevel(m, p, d.left), d.remaining, d.index);
    Associative(fills, d.fills, next.fills);
  }

  /** Matching opens no level, and a taker with something left has nothing left to trade with. */
  lemma {:induction false} MatchLeavesNoCross(taker: Side, price: Int64, takerId: UInt64, m: Levels, remaining: int, index: Index)
    ensures var r := Match(taker, price, takerId, m, remaining, index);
            && r.left.Keys <= m.Keys
            && (r.remaining > 0 ==> forall q :: q in r.left ==> !Crosses(taker, price, q))
    decreases |m|
  {
    if remaining > 0 && m != map[] && Crosses(taker, price, Best(Opposite(taker), m.Keys)) {
      var p := Best(Opposite(taker), m.Keys);
      var d := Drain(taker, takerId, m[p], remaining, index);
      DrainEnds(taker, takerId, m[p], remaining, index);
      if d.left == [] {
        FewerKeys(m, p);
        MatchLeavesNoCross(taker, price, takerId, m - {p}, d.remaining, d.index);
      }
    }
  }

  /** On any book, crossed or not, what rests of a new order does not cross the opposite side. */
  lemma {:induction false} ResidueDoesNotCross(b: Book, id: UInt64, side: Side, price: Int64, quantity: Int64, sequence: UInt64)
    requires quantity > 0 && id !in b.index
    ensures var opp := Opposite(side);
            var r := Match(side, price, id, LevelsOf(b, opp), quantity, b.index);
            var b' := NewOrder(b, id, side, price, quantity, sequence).1;
            && LevelsOf(b', opp).Keys <= LevelsOf(b, opp).Keys
            && LevelsOf(b', side).Keys <= LevelsOf(b, side).Keys + {price}
            && (r.remaining > 0 ==> forall q :: q in LevelsOf(b', opp) ==> !Crosses(side, price, q))
            && (r.remaining <= 0 ==> LevelsOf(b', side) == LevelsOf(b, side))
  {
    hide Match;
    MatchLeavesNoCross(side, price, id, LevelsOf(b, Opposite(side)), quantity, b.index);
    if side == Buy {
      assert Opposite(side) == Sell;
    } else {
      assert Opposite(side) == Buy;
    }
  }

  lemma {:induction false} NewKeepsUncrossed(b: Book, id: UInt64, side: Side, price: Int64, quantity: Int64, sequence: UInt64)
    requires Uncrossed(b)
    ensures Uncrossed(NewOrder(b, id, side, price, quantity, sequence).1)
  {
    if quantity > 0 && id !in b.index {
      hide Match;
      ResidueDoesNotCross(b, id, side, price, quantity, sequence);
      hide NewOrder;
      var b' := NewOrder(b, id, side, price, quantity, sequence).1;
      forall p, q | p in b'.bids && q in b'.asks ensures p < q {
        assert side == Buy ==> q in b.asks;
        assert side == Sell ==> p in b.bids;
      }
    }
  }

  lemma {:induction false} CancelKeepsUncrossed(b: Book, id: UInt64)
    requires Uncrossed(b)
    ensures Uncrossed(Cancel(b, id))
  {
  }

  /** A modification rests its order without matching, so it keeps an uncrossed book uncrossed exactly
      when nothing on the other side reaches the new price. */
  lemma {:induction false} ModifyKeepsUncrossedExactlyWhen(b: Book, id: UInt64, price: Int64, quantity: Int64, sequence: UInt64)
    requires Uncrossed(b) && id in b.index && quantity > 0
    ensures var side := b.index[id].side;
            Uncrossed(Modify(b, id, price, quantity, sequence))
            <==> forall q :: q in LevelsOf(b, Opposite(side)) ==> !Crosses(side, price, q)
  {
    var side := b.index[id].side;
    var c := Cancel(b, id);
    var b' := Modify(b, id, price, quantity, sequence);
    CancelKeepsUncrossed(b, id);
    assert price in LevelsOf(b', side);
    assert LevelsOf(b', Opposite(side)) == LevelsOf(b, Opposite(side));
    assert LevelsOf(b', side).Keys == LevelsOf(c, side).Keys + {price};
    if side == Buy {
      assert Uncrossed(b') <==> forall q :: q in b.asks ==> price < q;
    } else {
      assert Uncrossed(b') <==> forall p :: p in b.bids ==> p < price;
    }
  }

  /** Such modifications exist. */
  lemma {:induction false} ModifyCanCross()
    ensures exists b, id, price ::
              BookOk(b) && Uncrossed(b) && id in b.index && !Uncrossed(Modify(b, id, price, 1, 3))
  {
    hide Modify;
    var bid, ask := Order(1, Buy, 10, 5, 1), Order(2, Sell, 20, 5, 2);
    var b0 := Book([], map[], map[], map[]);
    var b1 := AddResting(b0, bid);
    var b := AddResting(b1, ask);
    AddKeeps(b0, bid);
    AddKeeps(b1, ask);
    hide BookOk;
    assert b.bids.Keys == {10} && b.asks.Keys == {20} && b.index[1] == Location(Buy, 10);
    hide AddResting;
    ModifyKeepsUncrossedExactlyWhen(b, 1, 30, 1, 3);
    assert 20 in LevelsOf(b, Sell) && Crosses(Buy, 30, 20);
  }

  // ----- arrival order -----

  /** Both sides in arrival order, with all sequence numbers below `next`. */
  ghost predicate BookInOrder(b: Book, next: nat) { InArrivalOrder(b.bids, next) && InArrivalOrder(b.asks, next) }

  lemma {:induction false} PushKeepsOrder(queue: seq<Order>, o: Order)
    requires Increasing(queue) && forall k :: 0 <= k < |queue| ==> queue[k].sequence < o.sequence
    ensures Increasing(queue + [o]) && forall k :: 0 <= k < |queue + [o]| ==> (queue + [o])[k].sequence < o.sequence + 1
  {
  }

  lemma {:induction false} LevelsLater(m: Levels, next: nat, next': nat)
    requires InArrivalOrder(m, next) && next <= next'
    ensures InArrivalOrder(m, next')
  {
  }

  /** An order arriving with the next sequence number goes behind everything at its price. */
  lemma {:induction false} AddKeepsOrder(b: Book, o: Order)
    requires BookInOrder(b, o.sequence)
    ensures BookInOrder(AddResting(b, o), o.sequence + 1)
    ensures var q := LevelsOf(AddResting(b, o), o.side)[o.price];
            q[|q| - 1] == o && forall k :: 0 <= k < |q| - 1 ==> q[k].sequence < o.sequence
  {
    var m, next := LevelsOf(b, o.side), o.sequence + 1;
    var queue := if o.price in m then m[o.price] else [];
    PushKeepsOrder(queue, o);
    LevelsLater(b.bids, o.sequence, next);
    LevelsLater(b.asks, o.sequence, next);
    hide Increasing;
    var m' := AddTo(m, o);
    forall p | p in m' ensures Increasing(m'[p]) && forall k :: 0 <= k < |m'[p]| ==> m'[p][k].sequence < next {
      assert p != o.price ==> m'[p] == m[p];
    }
    assert forall k :: 0 <= k < |queue| ==> (queue + [o])[k] == queue[k];
  }

  /** Removal keeps the order of what stays. */
  lemma {:induction false} RemoveLastKeepsOrder(os: seq<Order>, id: UInt64, next: nat)
    requires Increasing(os) && forall k :: 0 <= k < |os| ==> os[k].sequence < next
    ensures var r := RemoveLast(os, id); Increasing(r) && forall k :: 0 <= k < |r| ==> r[k] in os && r[k].sequence < next
    decreases |os|
  {
    if os != [] {
      var last := |os| - 1;
      if os[last].id != id {
        RemoveLastKeepsOrder(os[..last], id, os[last].sequence);
      }
    }
  }

  lemma {:induction false} CancelKeepsOrder(b: Book, id: UInt64, next: nat)
    requires BookInOrder(b, next)
    ensures BookInOrder(Cancel(b, id), next)
  {
    if id in b.index {
      var loc := b.index[id];
      var m := LevelsOf(b, loc.side);
      if loc.price in m { RemoveLastKeepsOrder(m[loc.price], id, next); }
    }
  }

  /** What stays of a drained level is its back part, with the same sequence numbers. */
  lemma {:induction false} DrainKeepsOrder(taker: Side, takerId: UInt64, os: seq<Order>, remaining: int, index: Index, next: nat)
    requires Increasing(os) && forall k :: 0 <= k < |os| ==> os[k].sequence < next
    ensures var d := Drain(taker, takerId, os, remaining, index);
            Increasing(d.left) && forall k :: 0 <= k < |d.left| ==> d.left[k].sequence < next
    decreases |os|
  {
    if remaining > 0 && os != [] {
      var q := Min(remaining, os[0].quantity);
      if os[0].quantity - q <= 0 {
        DrainKeepsOrder(taker, takerId, os[1..], remaining - q, index - {os[0].id}, next);
      } else {
        var os' := [os[0].(quantity := os[0].quantity - q)] + os[1..];
        assert forall k :: 0 <= k < |os'| ==> os'[k].sequence == os[k].sequence;
      }
    }
  }

  lemma {:induction false} MatchKeepsOrder(taker: Side, price: Int64, takerId: UInt64, m: Levels, remaining: int, index: Index, next: nat)
    requires InArrivalOrder(m, next)
    ensures InArrivalOrder(Match(taker, price, takerId, m, remaining, index).left, next)
    decreases |m|
  {
    if remaining > 0 && m != map[] && Crosses(taker, price, Best(Opposite(taker), m.Keys)) {
      var p := Best(Opposite(taker), m.Keys);
      var d := Drain(taker, takerId, m[p], remaining, index);
      DrainKeepsOrder(taker, takerId, m[p], remaining, index, next);
      if d.left == [] {
        FewerKeys(m, p);
        MatchKeepsOrder(taker, price, takerId, m - {p}, d.remaining, d.index, next);
      }
    }
  }

  lemma {:induction false} LaterKeepsOrder(b: Book, next: nat, next': nat)
    requires BookInOrder(b, next) && next <= next'
    ensures BookInOrder(b, next')
  {
  }

  /** A new order with the next sequence number keeps arrival order. */
  lemma {:induction false} NewKeepsOrder(b: Book, id: UInt64, side: Side, price: Int64, quantity: Int64, sequence: UInt64)
    requires BookInOrder(b, sequence)
    ensures BookInOrder(NewOrder(b, id, side, price, quantity, sequence).1, sequence + 1)
  {
    LaterKeepsOrder(b, sequence, sequence + 1);
    if quantity > 0 && id !in b.index {
      hide Match;
      hide InArrivalOrder;
      var opp := Opposite(side);
      var r := Match(side, price, id, LevelsOf(b, opp), quantity, b.index);
      MatchKeepsOrder(side, price, id, LevelsOf(b, opp), quantity, b.index, sequence);
      var b1 := Replaced(b, opp, r.left, r.index);
      assert BookInOrder(b1, sequence);
      LaterKeepsOrder(b1, sequence, sequence + 1);
      if r.remaining > 0 { AddKeepsOrder(b1, Order(id, side, price, r.remaining, sequence)); }
    }
  }

  /** A modified order goes behind everything at its new price. */
  lemma {:induction false} ModifyKeepsOrder(b: Book, id: UInt64, price: Int64, quantity: Int64, sequence: UInt64)
    requires BookInOrder(b, sequence)
    ensures BookInOrder(Modify(b, id, price, quantity, sequence), sequence + 1)
    ensures id in b.index && quantity > 0 ==>
              var b' := Modify(b, id, price, quantity, sequence);
              var side := b.index[id].side;
              && b'.index[id] == Location(side, price) && price in LevelsOf(b', side)
              && var q := LevelsOf(b', side)[price];
                 && |q| > 0 && q[|q| - 1] == Order(id, side, price, quantity, sequence)
                 && forall k :: 0 <= k < |q| - 1 ==> q[k].sequence < sequence
  {
    CancelKeepsOrder(b, id, sequence);
    LaterKeepsOrder(b, sequence, sequence + 1);
    LaterKeepsOrder(Cancel(b, id), sequence, sequence + 1);
    if id in b.index && quantity > 0 {
      AddKeepsOrder(Cancel(b, id), Order(id, b.index[id].side, price, quantity, sequence));
    }
  }
}
