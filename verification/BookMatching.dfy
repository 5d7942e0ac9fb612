/** Matching: the fills are the greedy ones over the opposite side, best price first and oldest
    first; quantity is conserved; the book invariant and the uncrossed book are kept. */
module BookMatching {
  import opened Bytes
  import opened BookSpec

  // ----- the independent reference: a sweep over a flat list of makers -----

  datatype Swept = Swept(fills: seq<Fill>, rest: seq<Order>, remaining: int)

  function Sweep(taker: Side, price: Int64, takerId: UInt64, makers: seq<Order>, remaining: int): Swept {
    if remaining <= 0 || makers == [] || !Crosses(taker, price, makers[0].price) then Swept([], makers, remaining)
    else
      var maker := makers[0];
      var q := Min(remaining, maker.quantity);
      var fill := Fill(maker.id, takerId, maker.price, q, taker);
      if maker.quantity - q <= 0 then
        var s := Sweep(taker, price, takerId, makers[1..], remaining - q);
        s.(fills := [fill] + s.fills)
      else
        Swept([fill], [maker.(quantity := maker.quantity - q)] + makers[1..], remaining - q)
  }

  function FillTotal(fills: seq<Fill>): int {
    if fills == [] then 0 else fills[0].quantity + FillTotal(fills[1..])
  }

  ghost predicate Positive(os: seq<Order>) { forall k :: 0 <= k < |os| ==> os[k].quantity > 0 }

  /** Fill f trades some of the maker at the maker's price, within the taker's limit. */
  ghost predicate Trades(taker: Side, price: Int64, takerId: UInt64, maker: Order, f: Fill) {
    && f == Fill(maker.id, takerId, maker.price, f.quantity, taker)
    && Crosses(taker, price, maker.price)
    && 0 < f.quantity <= maker.quantity
  }

  /** The fills trade with the makers from the front; all makers but the last are taken whole. */
  ghost predicate FromTheFront(taker: Side, price: Int64, takerId: UInt64, makers: seq<Order>, fills: seq<Fill>) {
    && |fills| <= |makers|
    && (forall i :: 0 <= i < |fills| ==> Trades(taker, price, takerId, makers[i], fills[i]))
    && (forall i :: 0 <= i < |fills| - 1 ==> fills[i].quantity == makers[i].quantity)
  }

  /** What stays: the untouched makers, behind the last one if that was taken in part. */
  ghost predicate Leaves(makers: seq<Order>, fills: seq<Fill>, rest: seq<Order>)
    requires |fills| <= |makers|
  {
    var n := |fills|;
    if n == 0 || fills[n - 1].quantity == makers[n - 1].quantity then rest == makers[n..]
    else rest == [makers[n - 1].(quantity := makers[n - 1].quantity - fills[n - 1].quantity)] + makers[n..]
  }

  /** Price-time priority: from the front, nothing left undone that the limit allows. */
  ghost predicate PriceTime(taker: Side, price: Int64, takerId: UInt64, makers: seq<Order>, remaining: int, s: Swept) {
    var n := |s.fills|;
    && FromTheFront(taker, price, takerId, makers, s.fills)
    && Leaves(makers, s.fills, s.rest)
    && s.remaining == remaining - FillTotal(s.fills) && s.remaining >= 0
    && (s.remaining > 0 ==>
          && (n == |makers| || !Crosses(taker, price, makers[n].price))
          && (n > 0 ==> s.fills[n - 1].quantity == makers[n - 1].quantity))
  }

  /** One maker taken whole in front. */
  lemma {:induction false} FrontMaker(taker: Side, price: Int64, takerId: UInt64, maker: Order, makers: seq<Order>,
                                      f: Fill, fills: seq<Fill>, rest: seq<Order>)
    requires FromTheFront(taker, price, takerId, makers, fills) && Leaves(makers, fills, rest)
    requires Trades(taker, price, takerId, maker, f) && f.quantity == maker.quantity
    ensures FromTheFront(taker, price, takerId, [maker] + makers, [f] + fills) && Leaves([maker] + makers, [f] + fills, rest)
  {
    var ms, fs := [maker] + makers, [f] + fills;
    forall i | 0 <= i < |fs| ensures Trades(taker, price, takerId, ms[i], fs[i]) {
      assert i > 0 ==> Trades(taker, price, takerId, makers[i - 1], fills[i - 1]);
    }
    assert ms[|fs|..] == makers[|fills|..];
  }

  lemma {:induction false} PriceTimeWhole(taker: Side, price: Int64, takerId: UInt64, maker: Order, makers: seq<Order>, remaining: int, t: Swept)
    requires Crosses(taker, price, maker.price) && maker.quantity > 0
    requires PriceTime(taker, price, takerId, makers, remaining - maker.quantity, t)
    ensures var f := Fill(maker.id, takerId, maker.price, maker.quantity, taker);
            PriceTime(taker, price, takerId, [maker] + makers, remaining, Swept([f] + t.fills, t.rest, t.remaining))
  {
    var f := Fill(maker.id, takerId, maker.price, maker.quantity, taker);
    FrontMaker(taker, price, takerId, maker, makers, f, t.fills, t.rest);
    hide FromTheFront;
    hide Leaves;
    assert ([f] + t.fills)[1..] == t.fills;
    assert |t.fills| < |makers| ==> ([maker] + makers)[|t.fills| + 1] == makers[|t.fills|];
  }

  lemma {:induction false} PriceTimePart(taker: Side, price: Int64, takerId: UInt64, maker: Order, makers: seq<Order>, remaining: nat)
    requires Crosses(taker, price, maker.price) && 0 < remaining < maker.quantity
    ensures var f := Fill(maker.id, takerId, maker.price, remaining, taker);
            PriceTime(taker, price, takerId, [maker] + makers, remaining,
                      Swept([f], [maker.(quantity := maker.quantity - remaining)] + makers, 0))
  {
    var f := Fill(maker.id, takerId, maker.price, remaining, taker);
    assert FillTotal([f]) == f.quantity + FillTotal([f][1..]);
    assert ([maker] + makers)[1..] == makers;
  }

  lemma {:induction false} PriceTimeNothing(taker: Side, price: Int64, takerId: UInt64, makers: seq<Order>, remaining: nat)
    requires remaining == 0 || makers == [] || !Crosses(taker, price, makers[0].price)
    ensures PriceTime(taker, price, takerId, makers, remaining, Swept([], makers, remaining))
  {
  }

  /** The sweep obeys price-time priority, for every list of makers and every quantity. */
  lemma {:induction false} SweepIsPriceTime(taker: Side, price: Int64, takerId: UInt64, makers: seq<Order>, remaining: nat)
    requires Positive(makers)
    ensures PriceTime(taker, price, takerId, makers, remaining, Sweep(taker, price, takerId, makers, remaining))
    decreases |makers|
  {
    hide PriceTime;
    if remaining > 0 && makers != [] && Crosses(taker, price, makers[0].price) {
      var maker := makers[0];
      assert makers == [maker] + makers[1..];
      if maker.quantity <= remaining {
        var t := Sweep(taker, price, takerId, makers[1..], remaining - maker.quantity);
        SweepIsPriceTime(taker, price, takerId, makers[1..], remaining - maker.quantity);
        PriceTimeWhole(taker, price, takerId, maker, makers[1..], remaining, t);
      } else {
        PriceTimePart(taker, price, takerId, maker, makers[1..], remaining);
      }
    } else {
      PriceTimeNothing(taker, price, takerId, makers, remaining);
    }
  }

  // ----- draining a level is sweeping it -----

  lemma {:induction false} SweepThroughLevel(taker: Side, price: Int64, takerId: UInt64, level: seq<Order>, tail: seq<Order>,
                                             remaining: int, index: Index)
    requires forall k :: 0 <= k < |level| ==> Crosses(taker, price, level[k].price)
    ensures var d := Drain(taker, takerId, level, remaining, index);
            Sweep(taker, price, takerId, level + tail, remaining) ==
              if d.left == []
              then var s := Sweep(taker, price, takerId, tail, d.remaining); s.(fills := d.fills + s.fills)
              else Swept(d.fills, d.left + tail, d.remaining)
    decreases |level|
  {
    if level == [] {
      assert level + tail == tail;
    } else if remaining > 0 {
      var makers := level + tail;
      assert makers[0] == level[0] && makers[1..] == level[1..] + tail;
      var q := Min(remaining, level[0].quantity);
      if level[0].quantity - q <= 0 {
        SweepThroughLevel(taker, price, takerId, level[1..], tail, remaining - q, index - {level[0].id});
        var f, d := [Fill(level[0].id, takerId, level[0].price, q, taker)],
                    Drain(taker, takerId, level[1..], remaining - q, index - {level[0].id});
        var s := Sweep(taker, price, takerId, tail, d.remaining);
        assert f + (d.fills + s.fills) == (f + d.fills) + s.fills;
      } else {
        var part := [level[0].(quantity := level[0].quantity - q)];
        assert part + makers[1..] == (part + level[1..]) + tail;
      }
    }
  }

  /** Every order knows the price of its level. */
  ghost predicate Priced(m: Levels) {
    forall p :: p in m ==> m[p] != [] && forall k :: 0 <= k < |m[p]| ==> m[p][k].price == p
  }

  /** Swapping the queue of the best level swaps the front of the flat list. */
  lemma {:induction false} FlattenSwapped(s: Side, m: Levels, p: Int64, os: seq<Order>)
    requires IsBest(s, m.Keys, p)
    ensures Flatten(s, m[p := os]) == os + Flatten(s, m - {p})
  {
    FlattenFront(s, m[p := os], p);
    assert m[p := os].Keys == m.Keys;
    assert m[p := os] - {p} == m - {p};
  }

  /** Matching level by level is the sweep of the whole opposite side. */
  lemma {:induction false} MatchIsSweep(taker: Side, price: Int64, takerId: UInt64, m: Levels, remaining: int, index: Index)
    requires Priced(m)
    ensures var r, s := Match(taker, price, takerId, m, remaining, index),
                        Sweep(taker, price, takerId, Flatten(Opposite(taker), m), remaining);
            r.fills == s.fills && r.remaining == s.remaining && Flatten(Opposite(taker), r.left) == s.rest
    decreases |m|
  {
    var opp := Opposite(taker);
    if m != map[] {
      var p := Best(opp, m.Keys);
      var flat := Flatten(opp, m);
      FlattenFront(opp, m, p);
      assert flat[0] == m[p][0];
      if remaining > 0 && Crosses(taker, price, p) {
        var d := Drain(taker, takerId, m[p], remaining, index);
        SweepThroughLevel(taker, price, takerId, m[p], Flatten(opp, m - {p}), remaining, index);
        if d.left == [] {
          FewerKeys(m, p);
          MatchIsSweep(taker, price, takerId, m - {p}, d.remaining, d.index);
        } else {
          FlattenSwapped(opp, m, p, d.left);
        }
      }
    }
  }
}
