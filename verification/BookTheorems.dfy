/** What a new order does to the whole book. */
module BookTheorems {
  import opened Bytes
  import opened BookSpec
  import opened BookInvariant
  import opened BookMatching

  // ----- the invariant through matching -----

  ghost predicate Subindex(index': Index, index: Index) { forall id :: id in index' ==> id in index && index'[id] == index[id] }

  /** Dropping the front order from queue and index. */
  lemma {:induction false} PopKeepsQueue(s: Side, price: Int64, index: Index, os: seq<Order>)
    requires QueueOk(s, price, index, os) && os != []
    ensures QueueOk(s, price, index - {os[0].id}, os[1..])
    ensures AgreesBut(index, index - {os[0].id}, Location(s, price))
    ensures forall id :: id != os[0].id && HasOrder(os, id) ==> HasOrder(os[1..], id)
  {
    var index', rest := index - {os[0].id}, os[1..];
    assert OrderOk(s, price, index, os[0]);
    forall k | 0 <= k < |rest| ensures OrderOk(s, price, index', rest[k]) {
      assert OrderOk(s, price, index, os[k + 1]);
    }
    forall id | id != os[0].id && HasOrder(os, id) ensures HasOrder(rest, id) {
      var k :| 0 <= k < |os| && os[k].id == id;
      assert rest[k - 1].id == id;
    }
  }

  /** Taking part of the front order. */
  lemma {:induction false} PartKeepsQueue(s: Side, price: Int64, index: Index, os: seq<Order>, q: int)
    requires QueueOk(s, price, index, os) && os != [] && 0 < q < os[0].quantity
    ensures var os' := [os[0].(quantity := os[0].quantity - q)] + os[1..];
            QueueOk(s, price, index, os') && forall id :: HasOrder(os, id) ==> HasOrder(os', id)
  {
    var os' := [os[0].(quantity := os[0].quantity - q)] + os[1..];
    forall k | 0 <= k < |os'| ensures OrderOk(s, price, index, os'[k]) && os'[k].id == os[k].id {
      assert OrderOk(s, price, index, os[k]);
    }
    forall id | HasOrder(os, id) ensures HasOrder(os', id) {
      var k :| 0 <= k < |os| && os[k].id == id;
      assert os'[k].id == id;
    }
  }

  ghost predicate DrainedOk(s: Side, price: Int64, os: seq<Order>, index: Index, d: Matched<seq<Order>>) {
    && QueueOk(s, price, d.index, d.left)
    && Subindex(d.index, index) && AgreesBut(index, d.index, Location(s, price))
    && forall id :: id in d.index && HasOrder(os, id) ==> HasOrder(d.left, id)
  }

  lemma {:induction false} DrainKeepsQueue(s: Side, price: Int64, taker: Side, takerId: UInt64, os: seq<Order>, remaining: int, index: Index)
    requires QueueOk(s, price, index, os)
    ensures DrainedOk(s, price, os, index, Drain(taker, takerId, os, remaining, index))
    decreases |os|
  {
    if remaining > 0 && os != [] {
      assert OrderOk(s, price, index, os[0]);
      var q := Min(remaining, os[0].quantity);
      if os[0].quantity - q <= 0 {
        PopKeepsQueue(s, price, index, os);
        DrainKeepsQueue(s, price, taker, takerId, os[1..], remaining - q, index - {os[0].id});
        hide HasOrder;
        hide QueueOk;
      } else {
        PartKeepsQueue(s, price, index, os, q);
      }
    }
  }

  lemma {:induction false} DrainKeepsBook(b: Book, taker: Side, takerId: UInt64, p: Int64, remaining: int)
    requires BookOk(b) && p in LevelsOf(b, Opposite(taker))
    ensures var opp := Opposite(taker);
            var d := Drain(taker, takerId, LevelsOf(b, opp)[p], remaining, b.index);
            && Subindex(d.index, b.index)
            && BookOk(WithLevels(b, opp, SetLevel(LevelsOf(b, opp), p, d.left)).(index := d.index))
  {
    var opp := Opposite(taker);
    var os := LevelsOf(b, opp)[p];
    DrainKeepsQueue(opp, p, taker, takerId, os, remaining, b.index);
    var d := Drain(taker, takerId, os, remaining, b.index);
    hide Drain;
    hide HasOrder;
    hide QueueOk;
    forall id | id in d.index && d.index[id] == Location(opp, p) ensures HasOrder(d.left, id) {
      assert Located(b, id);
    }
    QueueReplaced(b, opp, p, d.left, d.index);
  }

  /** The book with one side's levels and the index replaced. */
  function Replaced(b: Book, s: Side, m: Levels, index: Index): Book { WithLevels(b, s, m).(index := index) }

  lemma {:induction false} ReplacedTwice(b: Book, s: Side, m: Levels, index: Index, m': Levels, index': Index)
    ensures var b1 := Replaced(b, s, m, index);
            && LevelsOf(b1, s) == m && b1.index == index && Replaced(b1, s, m', index') == Replaced(b, s, m', index')
    ensures Replaced(b, s, LevelsOf(b, s), b.index) == b
  {
  }

  lemma {:induction false} MatchKeepsBook(b: Book, taker: Side, price: Int64, takerId: UInt64, remaining: int)
    requires BookOk(b)
    ensures var opp := Opposite(taker);
            var r := Match(taker, price, takerId, LevelsOf(b, opp), remaining, b.index);
            Subindex(r.index, b.index) && BookOk(Replaced(b, opp, r.left, r.index))
    decreases |LevelsOf(b, Opposite(taker))|
  {
    hide Drain;
    hide BookOk;
    var opp := Opposite(taker);
    var m := LevelsOf(b, opp);
    ReplacedTwice(b, opp, m, b.index, m, b.index);
    if remaining > 0 && m != map[] && Crosses(taker, price, Best(opp, m.Keys)) {
      var p := Best(opp, m.Keys);
      var d := Drain(taker, takerId, m[p], remaining, b.index);
      DrainKeepsBook(b, taker, takerId, p, remaining);
      hide WithLevels;
      hide LevelsOf;
      if d.left == [] {
        FewerKeys(m, p);
        var b1 := Replaced(b, opp, m - {p}, d.index);
        var r := Match(taker, price, takerId, m - {p}, d.remaining, d.index);
        ReplacedTwice(b, opp, m - {p}, d.index, r.left, r.index);
        MatchKeepsBook(b1, taker, price, takerId, d.remaining);
      }
    }
  }

  // ----- the flat list -----

  /** Whatever holds of every order of every level holds along the flat list. */
  lemma {:induction false} FlattenForall(s: Side, m: Levels, P: Order -> bool)
    requires forall p :: p in m ==> forall k :: 0 <= k < |m[p]| ==> P(m[p][k])
    ensures forall i :: 0 <= i < |Flatten(s, m)| ==> P(Flatten(s, m)[i])
    decreases |m|
  {
    if m != map[] {
      var p := Best(s, m.Keys);
      FewerKeys(m, p);
      FlattenForall(s, m - {p}, P);
      assert Flatten(s, m) == m[p] + Flatten(s, m - {p});
    }
  }

  /** Served earlier: a better price, or the same price and an earlier sequence. */
  ghost predicate Before(s: Side, a: Order, b: Order) {
    Better(s, a.price, b.price) || (a.price == b.price && a.sequence < b.sequence)
  }

  ghost predicate Increasing(os: seq<Order>) { forall i, j :: 0 <= i < j < |os| ==> os[i].sequence < os[j].sequence }

  /** Each level is in arrival order, and all sequence numbers are below `next`. */
  ghost predicate InArrivalOrder(m: Levels, next: nat) {
    forall p :: p in m ==> Increasing(m[p]) && forall k :: 0 <= k < |m[p]| ==> m[p][k].sequence < next
  }

  /** The flat list is in price-time order. */
  lemma {:induction false} FlattenIsOrdered(s: Side, m: Levels, next: nat)
    requires Priced(m) && InArrivalOrder(m, next)
    ensures forall i, j :: 0 <= i < j < |Flatten(s, m)| ==> Before(s, Flatten(s, m)[i], Flatten(s, m)[j])
    decreases |m|
  {
    if m != map[] {
      var p := Best(s, m.Keys);
      var rest := Flatten(s, m - {p});
      FewerKeys(m, p);
      FlattenIsOrdered(s, m - {p}, next);
      FlattenForall(s, m - {p}, (o: Order) => Better(s, p, o.price));
      assert Flatten(s, m) == m[p] + rest;
      forall i, j | 0 <= i < j < |m[p] + rest| ensures Before(s, (m[p] + rest)[i], (m[p] + rest)[j]) {
        assert j < |m[p]| || (m[p] + rest)[j] == rest[j - |m[p]|];
        assert i < |m[p]| || (m[p] + rest)[i] == rest[i - |m[p]|];
      }
    }
  }

  // ----- conservation -----

  lemma {:induction false} SweepConserves(taker: Side, price: Int64, takerId: UInt64, makers: seq<Order>, remaining: int)
    ensures var s := Sweep(taker, price, takerId, makers, remaining);
            && TotalQuantity(makers) == TotalQuantity(s.rest) + FillTotal(s.fills)
            && remaining == s.remaining + FillTotal(s.fills)
    decreases |makers|
  {
    if remaining > 0 && makers != [] && Crosses(taker, price, makers[0].price) {
      var q := Min(remaining, makers[0].quantity);
      var f := Fill(makers[0].id, takerId, makers[0].price, q, taker);
      if makers[0].quantity - q <= 0 {
        SweepConserves(taker, price, takerId, makers[1..], remaining - q);
        var t := Sweep(taker, price, takerId, makers[1..], remaining - q);
        assert ([f] + t.fills)[1..] == t.fills;
      } else {
        var part := makers[0].(quantity := makers[0].quantity - q);
        assert ([part] + makers[1..])[1..] == makers[1..];
        assert FillTotal([f]) == q + FillTotal([f][1..]);
      }
    }
  }

  /** Positive fills: no partial sum exceeds the whole. */
  lemma {:induction false} PartialTotals(fills: seq<Fill>, k: nat)
    requires k <= |fills| && forall i :: 0 <= i < |fills| ==> fills[i].quantity > 0
    ensures 0 <= FillTotal(fills[..k]) <= FillTotal(fills)
    decreases |fills|
  {
    if fills != [] {
      PartialTotals(fills[1..], if k == 0 then 0 else k - 1);
      if k > 0 {
        assert fills[..k][1..] == fills[1..][..k - 1];
      } else {
        assert fills[..0] == [] && fills[1..][..0] == [];
      }
    }
  }

  // ----- a new order -----

  lemma {:induction false} LevelsArePriced(s: Side, index: Index, m: Levels)
    requires LevelsOk(s, index, m)
    ensures Priced(m) && Positive(Flatten(s, m))
  {
    forall p, k | p in m && 0 <= k < |m[p]| ensures m[p][k].price == p && m[p][k].quantity > 0 {
      assert OrderOk(s, p, index, m[p][k]);
    }
    FlattenForall(s, m, (o: Order) => o.quantity > 0);
  }

  /** Matching against a good book, on the flat opposite side. */
  lemma {:induction false} MatchTrades(b: Book, id: UInt64, side: Side, price: Int64, quantity: Int64)
    requires BookOk(b) && quantity > 0
    ensures var opp := Opposite(side);
            var makers, r := Flatten(opp, LevelsOf(b, opp)), Match(side, price, id, LevelsOf(b, opp), quantity, b.index);
            && PriceTime(side, price, id, makers, quantity, Swept(r.fills, Flatten(opp, r.left), r.remaining))
            && TotalQuantity(makers) == TotalQuantity(Flatten(opp, r.left)) + FillTotal(r.fills)
            && r.remaining == quantity - FillTotal(r.fills)
  {
    hide PriceTime;
    var opp := Opposite(side);
    var m := LevelsOf(b, opp);
    LevelsArePriced(opp, b.index, m);
    MatchIsSweep(side, price, id, m, quantity, b.index);
    SweepIsPriceTime(side, price, id, Flatten(opp, m), quantity);
    SweepConserves(side, price, id, Flatten(opp, m), quantity);
    hide Sweep;
    hide Match;
    hide Flatten;
  }

  /** What a new order on a good book does: it trades with the opposite side by price-time priority;
      the trades and what is left add up; what is left rests, and only then is the id in the book. */
  lemma {:induction false} NewOrderTrades(b: Book, id: UInt64, side: Side, price: Int64, quantity: Int64, sequence: UInt64)
    requires BookOk(b) && id !in b.index && quantity > 0
    ensures var (fills, b') := NewOrder(b, id, side, price, quantity, sequence);
            var opp, left := Opposite(side), quantity - FillTotal(fills);
            var makers, rest := Flatten(opp, LevelsOf(b, opp)), Flatten(opp, LevelsOf(b', opp));
            && PriceTime(side, price, id, makers, quantity, Swept(fills, rest, left))
            && TotalQuantity(makers) == TotalQuantity(rest) + FillTotal(fills)
            && (left > 0 <==> id in b'.index)
            && LevelsOf(b', side) == if left > 0 then AddTo(LevelsOf(b, side), Order(id, side, price, left, sequence))
                                     else LevelsOf(b, side)
  {
    hide PriceTime;
    hide Match;
    hide AddTo;
    hide Flatten;
    hide BookOk;
    hide FillTotal;
    hide TotalQuantity;
    MatchTrades(b, id, side, price, quantity);
    MatchKeepsBook(b, side, price, id, quantity);
    var opp := Opposite(side);
    var r := Match(side, price, id, LevelsOf(b, opp), quantity, b.index);
    assert id !in r.index;
    if side == Buy {
      assert opp == Sell;
    } else {
      assert opp == Buy;
    }
  }

  lemma {:induction false} NewOrderKeeps(b: Book, id: UInt64, side: Side, price: Int64, quantity: Int64, sequence: UInt64)
    requires BookOk(b)
    ensures BookOk(NewOrder(b, id, side, price, quantity, sequence).1)
  {
    if quantity > 0 && id !in b.index {
      var opp := Opposite(side);
      var m := LevelsOf(b, opp);
      var r := Match(side, price, id, m, quantity, b.index);
      MatchKeepsBook(b, side, price, id, quantity);
      LevelsArePriced(opp, b.index, m);
      MatchIsSweep(side, price, id, m, quantity, b.index);
      SweepConserves(side, price, id, Flatten(opp, m), quantity);
      assert r.remaining <= quantity by {
        SweepIsPriceTime(side, price, id, Flatten(opp, m), quantity);
        SweptAtMost(side, price, id, Flatten(opp, m), quantity, Sweep(side, price, id, Flatten(opp, m), quantity));
      }
      hide BookOk;
      hide Match;
      if r.remaining > 0 {
        AddKeeps(Replaced(b, opp, r.left, r.index), Order(id, side, price, r.remaining, sequence));
      }
    }
  }

  lemma {:induction false} SweptAtMost(taker: Side, price: Int64, takerId: UInt64, makers: seq<Order>, remaining: int, s: Swept)
    requires PriceTime(taker, price, takerId, makers, remaining, s)
    ensures 0 <= FillTotal(s.fills) <= remaining && s.remaining <= remaining
    ensures forall i :: 0 <= i < |s.fills| ==> s.fills[i].quantity > 0
  {
    forall i | 0 <= i < |s.fills| ensures s.fills[i].quantity > 0 {
      assert Trades(taker, price, takerId, makers[i], s.fills[i]);
    }
    PartialTotals(s.fills, 0);
    assert s.fills[..0] == [];
  }
}
