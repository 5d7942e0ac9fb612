/** The exchange as a clerk with one sheet of paper would keep it: a single list of orders, bids from the
    highest price down and then asks from the lowest up, older ones first at a price.  No levels, no index.
    Whatever bytes are applied, the engine answers as the clerk does and holds the clerk's list. */
module Ledger {
  import opened Bytes
  import opened BookSpec
  import opened BookInvariant
  import opened BookMatching
  import opened BookTheorems
  import opened BookCancel
  import opened OrderProtocol
  import opened ResultProtocol
  import opened WireBuffer
  import opened WireFormat
  import opened LobSpec
  import opened LobSnapshot
  import opened LobTheorems

  // ----- the clerk -----

  /** Order a stays in front of o, which comes later. */
  predicate Ahead(a: Order, o: Order) {
    match (a.side, o.side)
    case (Buy, Sell) => true
    case (Sell, Buy) => false
    case (Buy, Buy) => a.price >= o.price
    case (Sell, Sell) => a.price <= o.price
  }

  function Insert(list: seq<Order>, o: Order): seq<Order> {
    if list == [] || !Ahead(list[0], o) then [o] + list else [list[0]] + Insert(list[1..], o)
  }

  /** The taker may trade with this maker. */
  predicate Meets(taker: Order, maker: Order) {
    taker.side != maker.side && if taker.side == Buy then maker.price <= taker.price else maker.price >= taker.price
  }

  datatype Trading = Trading(fills: seq<Fill>, list: seq<Order>, left: int)

  /** Down the list, trading with everybody the taker meets until it has enough. */
  function Trade(list: seq<Order>, taker: Order, left: int): Trading {
    if left <= 0 || list == [] then Trading([], list, left)
    else
      var maker := list[0];
      if !Meets(taker, maker) then
        var t := Trade(list[1..], taker, left);
        t.(list := [maker] + t.list)
      else if maker.quantity > left then
        Trading([Fill(maker.id, taker.id, maker.price, left, taker.side)],
                [maker.(quantity := maker.quantity - left)] + list[1..], 0)
      else
        var t := Trade(list[1..], taker, left - maker.quantity);
        t.(fills := [Fill(maker.id, taker.id, maker.price, maker.quantity, taker.side)] + t.fills)
  }

  ghost function OrderOf(list: seq<Order>, id: UInt64): (o: Order)
    requires HasOrder(list, id)
    ensures o.id == id && o in list
  {
    var k :| 0 <= k < |list| && list[k].id == id; list[k]
  }

  /** One command: the reply, and the list afterwards. */
  ghost function Enter(list: seq<Order>, c: Command, sequence: UInt64): (seq<Byte>, seq<Order>) {
    match c
    case New(id, side, price, quantity) =>
      if quantity <= 0 || HasOrder(list, id) then ([0], list)
      else
        var o := Order(id, side, price, quantity, sequence);
        var t := Trade(list, o, quantity);
        (EncodeResult(t.fills, t.left > 0, t.left), if t.left > 0 then Insert(t.list, o.(quantity := t.left)) else t.list)
    case Cancel(id) => ([if HasOrder(list, id) then 1 else 0], Without(list, id))
    case Modify(id, price, quantity) =>
      if !HasOrder(list, id) then ([0], list)
      else if quantity <= 0 then ([1], Without(list, id))
      else ([1], Insert(Without(list, id), Order(id, OrderOf(list, id).side, price, quantity, sequence)))
  }

  /** The clerk numbers every message that is not empty, also one that cannot be read. */
  ghost function Serve(list: seq<Order>, next: UInt64, data: seq<Byte>): (seq<Byte>, seq<Order>, UInt64) {
    if data == [] then ([0], list, next)
    else
      var (reply, list') := match Decoded(data) case None => ([0], list) case Some(c) => Enter(list, c, next);
      (reply, list', if next == 0xFFFF_FFFF_FFFF_FFFF then 0 else next + 1)
  }

  ghost function ServeAll(list: seq<Order>, next: UInt64, commands: seq<seq<Byte>>): (seq<seq<Byte>>, seq<Order>, UInt64) {
    if commands == [] then ([], list, next)
    else
      var last := |commands| - 1;
      var (replies, list1, next1) := ServeAll(list, next, commands[..last]);
      var (reply, list2, next2) := Serve(list1, next1, commands[last]);
      (replies + [reply], list2, next2)
  }

  // ----- inserting -----

  lemma {:induction false} InsertBehind(a: seq<Order>, b: seq<Order>, o: Order)
    requires forall k :: 0 <= k < |a| ==> Ahead(a[k], o)
    ensures Insert(a + b, o) == a + Insert(b, o)
    decreases |a|
  {
    if a == [] {
      assert a + b == b;
    } else {
      assert (a + b)[0] == a[0] && (a + b)[1..] == a[1..] + b;
      InsertBehind(a[1..], b, o);
    }
  }

  lemma {:induction false} InsertBefore(a: seq<Order>, b: seq<Order>, o: Order)
    requires b == [] || !Ahead(b[0], o)
    ensures Insert(a + b, o) == Insert(a, o) + b
    decreases |a|
  {
    hide Ahead;
    if a == [] {
      assert a + b == b;
    } else {
      assert (a + b)[0] == a[0] && (a + b)[1..] == a[1..] + b;
      InsertBefore(a[1..], b, o);
      Associative([a[0]], Insert(a[1..], o), b);
      Associative([o], a, b);
    }
  }

  /** The levels of one side: sides and prices are the levels', and no level is empty. */
  ghost predicate OneSide(s: Side, m: Levels) {
    forall p :: p in m ==> m[p] != [] && forall k :: 0 <= k < |m[p]| ==> m[p][k].side == s && m[p][k].price == p
  }

  lemma {:induction false} SideOk(s: Side, index: Index, m: Levels)
    requires LevelsOk(s, index, m)
    ensures OneSide(s, m)
  {
    LevelsArePriced(s, index, m);
    forall p | p in m ensures forall k :: 0 <= k < |m[p]| ==> m[p][k].side == s { assert QueueOk(s, p, index, m[p]); }
  }

  /** The flat list of a side starts with its best price. */
  lemma {:induction false} FlattenStarts(s: Side, m: Levels)
    requires OneSide(s, m) && m != map[]
    ensures Flatten(s, m) != [] && Flatten(s, m)[0].price == Best(s, m.Keys) && Flatten(s, m)[0].side == s
  {
    FlattenFront(s, m, Best(s, m.Keys));
  }

  lemma {:induction false} AddFirst(s: Side, o: Order)
    ensures Flatten(s, AddTo(map[], o)) == [o]
  {
    var m: Levels := AddTo(map[], o);
    assert m[o.price] == [o] by { assert [] + [o] == [o]; }
    assert m.Keys == {o.price};
    FlattenFront(s, m, o.price);
    assert m - {o.price} == map[];
  }

  /** At the best price there is: behind its queue. */
  lemma {:induction false} AddAtBest(s: Side, m: Levels, o: Order)
    requires OneSide(s, m) && o.side == s && IsBest(s, m.Keys, o.price)
    ensures Flatten(s, AddTo(m, o)) == Insert(Flatten(s, m), o)
  {
    var p := o.price;
    FlattenFront(s, m, p);
    var rest := Flatten(s, m - {p});
    if m - {p} != map[] { FlattenStarts(s, m - {p}); }
    FlattenSwapped(s, m, p, m[p] + [o]);
    hide Flatten;
    assert Insert(rest, o) == [o] + rest;
    InsertBehind(m[p], rest, o);
    Associative(m[p], [o], rest);
  }

  /** At a better price than any: in front of all. */
  lemma {:induction false} AddBeforeBest(s: Side, m: Levels, o: Order)
    requires OneSide(s, m) && o.side == s && m != map[] && Better(s, o.price, Best(s, m.Keys))
    ensures Flatten(s, AddTo(m, o)) == Insert(Flatten(s, m), o)
  {
    var m' := AddTo(m, o);
    assert o.price !in m;
    assert m'[o.price] == [o] by { assert [] + [o] == [o]; }
    assert IsBest(s, m'.Keys, o.price);
    FlattenFront(s, m', o.price);
    assert m' - {o.price} == m;
    FlattenStarts(s, m);
    hide Flatten;
  }

  /** At a worse price than the best: behind the best level, wherever it goes among the others. */
  lemma {:induction false} AddBehindBest(s: Side, m: Levels, o: Order, p: Int64)
    requires OneSide(s, m) && o.side == s && IsBest(s, m.Keys, p) && Better(s, p, o.price)
    requires Flatten(s, AddTo(m - {p}, o)) == Insert(Flatten(s, m - {p}), o)
    ensures Flatten(s, AddTo(m, o)) == Insert(Flatten(s, m), o)
  {
    hide Flatten;
    var m' := AddTo(m, o);
    assert forall k :: 0 <= k < |m[p]| ==> Ahead(m[p][k], o);
    hide OneSide;
    hide Ahead;
    hide Insert;
    assert m'.Keys == m.Keys + {o.price} && m'[p] == m[p];
    assert m' - {p} == AddTo(m - {p}, o);
    hide AddTo;
    FlattenFront(s, m, p);
    assert IsBest(s, m'.Keys, p);
    FlattenFront(s, m', p);
    InsertBehind(m[p], Flatten(s, m - {p}), o);
  }

  lemma {:induction false} FlattenAdd(s: Side, m: Levels, o: Order)
    requires OneSide(s, m) && o.side == s
    ensures Flatten(s, AddTo(m, o)) == Insert(Flatten(s, m), o)
    decreases |m|
  {
    if m == map[] {
      AddFirst(s, o);
    } else {
      var p := Best(s, m.Keys);
      hide Insert;
      hide AddTo;
      hide Flatten;
      if o.price == p {
        AddAtBest(s, m, o);
      } else if Better(s, o.price, p) {
        AddBeforeBest(s, m, o);
      } else {
        FewerKeys(m, p);
        FlattenAdd(s, m - {p}, o);
        AddBehindBest(s, m, o, p);
      }
    }
  }

  lemma {:induction false} SidesOfFlatten(s: Side, m: Levels)
    requires OneSide(s, m)
    ensures forall k :: 0 <= k < |Flatten(s, m)| ==> Flatten(s, m)[k].side == s
  {
    FlattenForall(s, m, (o: Order) => o.side == s);
  }

  /** A resting order goes where the clerk puts it. */
  lemma {:induction false} AddInserts(b: Book, o: Order)
    requires OneSide(Buy, b.bids) && OneSide(Sell, b.asks)
    ensures AllOrders(AddResting(b, o)) == Insert(AllOrders(b), o)
  {
    SidesOfFlatten(Buy, b.bids);
    SidesOfFlatten(Sell, b.asks);
    var bids, asks := Flatten(Buy, b.bids), Flatten(Sell, b.asks);
    if o.side == Buy {
      FlattenAdd(Buy, b.bids, o);
      InsertBefore(bids, asks, o);
    } else {
      FlattenAdd(Sell, b.asks, o);
      InsertBehind(bids, asks, o);
    }
  }

  // ----- trading -----

  /** Nobody in the list meets the taker. */
  ghost predicate MeetsNobody(taker: Order, list: seq<Order>) { forall k :: 0 <= k < |list| ==> !Meets(taker, list[k]) }

  lemma {:induction false} PassesBy(list: seq<Order>, rest: seq<Order>, taker: Order, left: int)
    requires MeetsNobody(taker, list)
    ensures var t, all := Trade(rest, taker, left), Trade(list + rest, taker, left);
            all == t.(list := list + t.list)
    decreases |list|
  {
    if list == [] {
      assert list + rest == rest;
    } else if left > 0 {
      assert (list + rest)[0] == list[0] && (list + rest)[1..] == list[1..] + rest;
      PassesBy(list[1..], rest, taker, left);
    }
  }

  lemma {:induction false} NobodyTrades(list: seq<Order>, taker: Order, left: int)
    requires MeetsNobody(taker, list)
    ensures Trade(list, taker, left) == Trading([], list, left)
  {
    PassesBy(list, [], taker, left);
    assert list + [] == list;
  }

  /** Prices only get worse down the list of one side. */
  ghost predicate Worsening(s: Side, list: seq<Order>) {
    forall i, j :: 0 <= i < j < |list| ==> !Better(s, list[j].price, list[i].price)
  }

  lemma {:induction false} FlattenWorsens(s: Side, m: Levels)
    requires OneSide(s, m)
    ensures Worsening(s, Flatten(s, m))
    decreases |m|
  {
    if m != map[] {
      var p := Best(s, m.Keys);
      FlattenFront(s, m, p);
      FewerKeys(m, p);
      FlattenWorsens(s, m - {p});
      var front, rest := m[p], Flatten(s, m - {p});
      FlattenForall(s, m - {p}, (o: Order) => o.price == p || Better(s, p, o.price));
      hide Flatten;
      var all: seq<Order> := front + rest;
      forall i, j | 0 <= i < j < |all| ensures !Better(s, all[j].price, all[i].price) {
        assert i >= |front| ==> !Better(s, rest[j - |front|].price, rest[i - |front|].price);
        assert j >= |front| ==> all[j] == rest[j - |front|];
      }
    }
  }

  /** One side in price order: sweeping it from the front is going down the list. */
  lemma {:induction false} SweepGoesDown(list: seq<Order>, taker: Order, left: int)
    requires forall k :: 0 <= k < |list| ==> list[k].side == Opposite(taker.side)
    requires Worsening(Opposite(taker.side), list) && Positive(list)
    ensures var s := Sweep(taker.side, taker.price, taker.id, list, left);
            Trade(list, taker, left) == Trading(s.fills, s.rest, s.remaining)
    decreases |list|
  {
    if left > 0 && list != [] {
      if Meets(taker, list[0]) {
        if list[0].quantity <= left { SweepGoesDown(list[1..], taker, left - list[0].quantity); }
      } else {
        assert forall k :: 0 < k < |list| ==> !Better(Opposite(taker.side), list[k].price, list[0].price);
        NobodyTrades(list, taker, left);
      }
    }
  }

  lemma {:induction false} OwnSideIsPassed(list: seq<Order>, taker: Order)
    requires forall k :: 0 <= k < |list| ==> list[k].side == taker.side
    ensures MeetsNobody(taker, list)
  {
  }

  /** Trading stops at the end of the other side. */
  lemma {:induction false} TradesInFront(list: seq<Order>, own: seq<Order>, taker: Order, left: int)
    requires MeetsNobody(taker, own)
    ensures var t, all := Trade(list, taker, left), Trade(list + own, taker, left);
            all == t.(list := t.list + own)
    decreases |list|
  {
    if list == [] {
      assert list + own == own;
      NobodyTrades(own, taker, left);
    } else if left > 0 {
      assert (list + own)[0] == list[0] && (list + own)[1..] == list[1..] + own;
      if Meets(taker, list[0]) {
        if list[0].quantity <= left { TradesInFront(list[1..], own, taker, left - list[0].quantity); }
      } else {
        TradesInFront(list[1..], own, taker, left);
      }
    }
  }

  /** The whole list: only the other side changes. */
  lemma {:induction false} TradeIsSweep(b: Book, taker: Order, left: int)
    requires BookOk(b)
    ensures var opp := Opposite(taker.side);
            var s := Sweep(taker.side, taker.price, taker.id, Flatten(opp, LevelsOf(b, opp)), left);
            Trade(AllOrders(b), taker, left) ==
            Trading(s.fills, if taker.side == Buy then Flatten(Buy, b.bids) + s.rest else s.rest + Flatten(Sell, b.asks), s.remaining)
  {
    SideOk(Buy, b.index, b.bids);
    SideOk(Sell, b.index, b.asks);
    LevelsArePriced(Buy, b.index, b.bids);
    LevelsArePriced(Sell, b.index, b.asks);
    SidesOfFlatten(Buy, b.bids);
    SidesOfFlatten(Sell, b.asks);
    FlattenWorsens(Buy, b.bids);
    FlattenWorsens(Sell, b.asks);
    var bids, asks := Flatten(Buy, b.bids), Flatten(Sell, b.asks);
    hide Flatten;
    hide BookOk;
    if taker.side == Buy {
      OwnSideIsPassed(bids, taker);
      PassesBy(bids, asks, taker, left);
      SweepGoesDown(asks, taker, left);
    } else {
      OwnSideIsPassed(asks, taker);
      TradesInFront(bids, asks, taker, left);
      SweepGoesDown(bids, taker, left);
    }
  }

  // ----- the index and the list -----

  lemma {:induction false} ListedWhere(s: Side, index: Index, m: Levels, id: UInt64)
    requires LevelsOk(s, index, m) && HasOrder(Flatten(s, m), id)
    ensures id in index && index[id].side == s
  {
    FlattenLists(s, index, m);
    SideOk(s, index, m);
    SidesOfFlatten(s, m);
    var k :| 0 <= k < |Flatten(s, m)| && Flatten(s, m)[k].id == id;
    assert Flatten(s, m)[k].side == s;
    hide Flatten;
  }

  lemma {:induction false} HasEither(a: seq<Order>, b: seq<Order>, id: UInt64)
    ensures HasOrder(a + b, id) <==> HasOrder(a, id) || HasOrder(b, id)
  {
    var all := a + b;
    if HasOrder(a, id) {
      var k :| 0 <= k < |a| && a[k].id == id;
      assert all[k].id == id;
    }
    if HasOrder(b, id) {
      var k :| 0 <= k < |b| && b[k].id == id;
      assert all[|a| + k].id == id;
    }
    if HasOrder(all, id) {
      var k :| 0 <= k < |all| && all[k].id == id;
      if k < |a| { assert a[k].id == id; } else { assert b[k - |a|].id == id; }
    }
  }

  lemma {:induction false} IndexedIsListed(s: Side, index: Index, m: Levels, p: Int64, id: UInt64)
    requires LevelsOk(s, index, m) && p in m && HasOrder(m[p], id)
    ensures HasOrder(Flatten(s, m), id)
  {
    FlattenLists(s, index, m);
    var k :| 0 <= k < |m[p]| && m[p][k].id == id;
    var i :| 0 <= i < |Flatten(s, m)| && Flatten(s, m)[i] == m[p][k];
    hide Flatten;
  }

  /** The index holds exactly the ids of the list, each with its order's side. */
  lemma {:induction false} IndexIsList(b: Book, id: UInt64)
    requires BookOk(b)
    ensures id in b.index <==> HasOrder(AllOrders(b), id)
    ensures HasOrder(AllOrders(b), id) ==> b.index[id].side == OrderOf(AllOrders(b), id).side
  {
    var bids, asks := Flatten(Buy, b.bids), Flatten(Sell, b.asks);
    HasEither(bids, asks, id);
    hide Flatten;
    if HasOrder(bids, id) { ListedWhere(Buy, b.index, b.bids, id); }
    if HasOrder(asks, id) { ListedWhere(Sell, b.index, b.asks, id); }
    if id in b.index {
      assert Located(b, id);
      var loc := b.index[id];
      IndexedIsListed(loc.side, b.index, LevelsOf(b, loc.side), loc.price, id);
    }
    SideOk(Buy, b.index, b.bids);
    SideOk(Sell, b.index, b.asks);
    SidesOfFlatten(Buy, b.bids);
    SidesOfFlatten(Sell, b.asks);
    hide BookOk;
    hide OneSide;
    if HasOrder(AllOrders(b), id) {
      var o := OrderOf(AllOrders(b), id);
      assert o.id == id && o in bids + asks;
      if o in bids {
        var k :| 0 <= k < |bids| && bids[k] == o;
        assert HasOrder(bids, id);
      } else {
        var k :| 0 <= k < |asks| && asks[k] == o;
        assert HasOrder(asks, id);
      }
    }
  }

  // ----- the engine keeps the clerk's list -----

  lemma {:induction false} NewIsEntered(b: Book, id: UInt64, side: Side, price: Int64, quantity: Int64, sequence: UInt64)
    requires BookOk(b) && id !in b.index && quantity > 0
    ensures var (fills, b') := NewOrder(b, id, side, price, quantity, sequence);
            var o := Order(id, side, price, quantity, sequence);
            var t := Trade(AllOrders(b), o, quantity);
            && fills == t.fills && quantity - FillTotal(fills) == t.left
            && AllOrders(b') == if t.left > 0 then Insert(t.list, o.(quantity := t.left)) else t.list
  {
    var opp, o := Opposite(side), Order(id, side, price, quantity, sequence);
    var r := Match(side, price, id, LevelsOf(b, opp), quantity, b.index);
    var traded := Replaced(b, opp, r.left, r.index);
    LevelsArePriced(opp, b.index, LevelsOf(b, opp));
    MatchIsSweep(side, price, id, LevelsOf(b, opp), quantity, b.index);
    MatchTrades(b, id, side, price, quantity);
    TradeIsSweep(b, o, quantity);
    MatchKeepsBook(b, side, price, id, quantity);
    SideOk(Buy, traded.index, traded.bids);
    SideOk(Sell, traded.index, traded.asks);
    hide Match;
    hide Flatten;
    hide BookOk;
    hide OneSide;
    hide PriceTime;
    hide Trade;
    hide Sweep;
    hide Insert;
    AddInserts(traded, o.(quantity := r.remaining));
  }

  lemma {:induction false} CancelIsEntered(b: Book, id: UInt64)
    requires BookOk(b)
    ensures AllOrders(BookSpec.Cancel(b, id)) == Without(AllOrders(b), id)
  {
    CancelRemovesOnly(b, id);
  }

  lemma {:induction false} ModifyIsEntered(b: Book, id: UInt64, price: Int64, quantity: Int64, sequence: UInt64)
    requires BookOk(b)
    ensures var list, list' := AllOrders(b), AllOrders(BookSpec.Modify(b, id, price, quantity, sequence));
            list' == if !HasOrder(list, id) then list
                     else if quantity <= 0 then Without(list, id)
                     else Insert(Without(list, id), Order(id, OrderOf(list, id).side, price, quantity, sequence))
  {
    IndexIsList(b, id);
    CancelRemovesOnly(b, id);
    CancelKeeps(b, id);
    var kept := BookSpec.Cancel(b, id);
    SideOk(Buy, kept.index, kept.bids);
    SideOk(Sell, kept.index, kept.asks);
    hide BookSpec.Cancel;
    hide BookOk;
    hide AllOrders;
    hide OneSide;
    hide Insert;
    hide OrderOf;
    if id in b.index && quantity > 0 {
      AddInserts(kept, Order(id, b.index[id].side, price, quantity, sequence));
    }
  }

  /** Every decoded command. */
  lemma {:induction false} ExecuteIsEntered(b: Book, c: Command, sequence: UInt64)
    requires BookOk(b)
    ensures var (reply, b') := Execute(b, c, sequence); (reply, AllOrders(b')) == Enter(AllOrders(b), c, sequence)
  {
    IndexIsList(b, c.id);
    hide BookOk;
    hide AllOrders;
    hide NewOrder;
    hide BookSpec.Cancel;
    hide BookSpec.Modify;
    hide EncodeResult;
    hide Trade;
    hide Insert;
    hide OrderOf;
    hide HasOrder;
    match c
    case New(id, side, price, quantity) =>
      if quantity > 0 && id !in b.index { NewIsEntered(b, id, side, price, quantity, sequence); }
    case Cancel(id) =>
      CancelIsEntered(b, id);
    case Modify(id, price, quantity) =>
      ModifyIsEntered(b, id, price, quantity, sequence);
  }

  /** Any bytes at all: the engine answers as the clerk does and holds the clerk's list and number. */
  lemma {:induction false} ApplyServes(s: Machine, data: seq<Byte>)
    requires BookOk(s.book)
    ensures var (reply, s') := Apply(s, data); (reply, AllOrders(s'.book), s'.nextSeq) == Serve(AllOrders(s.book), s.nextSeq, data)
  {
    hide BookOk;
    hide AllOrders;
    hide Execute;
    hide Enter;
    if data != [] && Decoded(data).Some? { ExecuteIsEntered(s.book, Decoded(data).value, s.nextSeq); }
  }

  /** Any run of commands. */
  lemma {:induction false} RunServes(s: Machine, commands: seq<seq<Byte>>)
    requires BookOk(s.book)
    ensures var (replies, s') := ApplyAll(s, commands);
            && BookOk(s'.book)
            && (replies, AllOrders(s'.book), s'.nextSeq) == ServeAll(AllOrders(s.book), s.nextSeq, commands)
    decreases |commands|
  {
    hide BookOk;
    hide AllOrders;
    hide Apply;
    hide Serve;
    if commands != [] {
      var front, last := commands[..|commands| - 1], commands[|commands| - 1];
      RunServes(s, front);
      ApplyServes(ApplyAll(s, front).1, last);
      ApplyKeepsBook(ApplyAll(s, front).1, last);
    }
  }

  // ----- what clients are told -----

  /** CXL: one byte, 1 exactly if an order of that id rests; that order goes and no other. */
  lemma {:induction false} CancelReply(s: Machine, id: UInt64, tail: seq<Byte>)
    requires BookOk(s.book)
    ensures var (reply, s') := Apply(s, [0x11] + LE(id, 8) + tail);
            && reply == [if exists o :: o in AllOrders(s.book) && o.id == id then 1 else 0]
            && AllOrders(s'.book) == Without(AllOrders(s.book), id)
  {
    var data := [0x11] + LE(id, 8) + tail;
    CancelBytes(id, tail);
    ApplyServes(s, data);
    ListedById(AllOrders(s.book), id);
    hide Apply;
    hide Decoded;
    hide AllOrders;
    hide BookOk;
    hide LE;
    hide HasOrder;
  }

  lemma {:induction false} ListedById(list: seq<Order>, id: UInt64)
    ensures HasOrder(list, id) <==> exists o :: o in list && o.id == id
  {
    if o :| o in list && o.id == id {
      var k :| 0 <= k < |list| && list[k] == o;
      assert list[k].id == id;
    }
  }

  /** MOD: one byte, 1 exactly if an order of that id rests; every other order stays in its place, and the
      order itself is there with the new price and quantity on its old side, or gone for a quantity of 0 or less. */
  lemma {:induction false} ModifyReply(s: Machine, id: UInt64, price: Int64, quantity: Int64, tail: seq<Byte>)
    requires BookOk(s.book)
    ensures var (reply, s') := Apply(s, [0x12] + LE(id, 8) + LE(ToU64(price), 8) + LE(ToU64(quantity), 8) + tail);
            var list, list' := AllOrders(s.book), AllOrders(s'.book);
            && reply == [if exists o :: o in list && o.id == id then 1 else 0]
            && Without(list', id) == Without(list, id)
            && forall o :: o in list && o.id == id ==>
                 if quantity > 0 then Order(id, o.side, price, quantity, s.nextSeq) in list' else forall o' :: o' in list' ==> o'.id != id
  {
    var data := [0x12] + LE(id, 8) + LE(ToU64(price), 8) + LE(ToU64(quantity), 8) + tail;
    ModifyBytes(id, price, quantity, tail);
    ApplyServes(s, data);
    var list, list' := AllOrders(s.book), AllOrders(Apply(s, data).1.book);
    ListedById(list, id);
    hide Apply;
    hide Decoded;
    hide AllOrders;
    hide LE;
    hide ToU64;
    if HasOrder(list, id) {
      OneOrderById(s.book, id);
      WithoutHasNone(list, id);
      if quantity > 0 {
        InsertHas(Without(list, id), Order(id, OrderOf(list, id).side, price, quantity, s.nextSeq));
      } else {
        WithoutTwice(list, id);
      }
    }
    hide BookOk;
  }

  lemma {:induction false} WithoutHasNone(list: seq<Order>, id: UInt64)
    ensures forall o :: o in Without(list, id) ==> o.id != id
  {
    if list != [] { WithoutHasNone(list[1..], id); }
  }

  lemma {:induction false} WithoutTwice(list: seq<Order>, id: UInt64)
    ensures Without(Without(list, id), id) == Without(list, id)
  {
    WithoutHasNone(list, id);
    NothingToDrop(Without(list, id), id);
  }

  /** Inserting adds the order and leaves the others as they were. */
  lemma {:induction false} InsertHas(list: seq<Order>, o: Order)
    requires forall a :: a in list ==> a.id != o.id
    ensures o in Insert(list, o) && Without(Insert(list, o), o.id) == list
    decreases |list|
  {
    if list == [] || !Ahead(list[0], o) {
      assert ([o] + list)[1..] == list;
      assert !HasOrder(list, o.id);
      NothingToDrop(list, o.id);
    } else {
      InsertHas(list[1..], o);
      var all := Insert(list, o);
      assert all[0] == list[0] && all[1..] == Insert(list[1..], o);
    }
  }

  /** No id is listed twice. */
  lemma {:induction false} OneOrderById(b: Book, id: UInt64)
    requires BookOk(b) && HasOrder(AllOrders(b), id)
    ensures forall o :: o in AllOrders(b) && o.id == id ==> o.side == OrderOf(AllOrders(b), id).side
  {
    IndexIsList(b, id);
    FlattenLists(Buy, b.index, b.bids);
    FlattenLists(Sell, b.index, b.asks);
    AgreeBoth(b.index, Flatten(Buy, b.bids), Flatten(Sell, b.asks));
    hide Flatten;
    hide BookOk;
    hide OrderOf;
  }

  /** A NEW for nothing, or under an id that is in use, is answered with 0 and changes nothing; any other
      is answered with a 1 in front. */
  lemma {:induction false} NewReply(s: Machine, id: UInt64, side: Side, price: Int64, quantity: Int64, tail: seq<Byte>)
    requires BookOk(s.book)
    ensures var b: Byte := if side == Buy then 0 else 1;
            var (reply, s') := Apply(s, [0x10] + LE(id, 8) + [b] + LE(ToU64(price), 8) + LE(ToU64(quantity), 8) + tail);
            if quantity <= 0 || exists o :: o in AllOrders(s.book) && o.id == id
            then reply == [0] && s'.book == s.book
            else |reply| >= 14 && reply[0] == 1
  {
    var b: Byte := if side == Buy then 0 else 1;
    var data := [0x10] + LE(id, 8) + [b] + LE(ToU64(price), 8) + LE(ToU64(quantity), 8) + tail;
    NewBytes(id, side, price, quantity, tail);
    IndexIsList(s.book, id);
    ListedById(AllOrders(s.book), id);
    hide Decoded;
    hide AllOrders;
    hide LE;
    hide ToU64;
    hide BookOk;
    hide NewOrder;
    hide HasOrder;
    if quantity > 0 && id !in s.book.index {
      var fills := NewOrder(s.book, id, side, price, quantity, s.nextSeq).0;
      var remaining := quantity - FillTotal(fills);
      ResultBytes(fills, remaining > 0, remaining);
    }
    hide EncodeResult;
    hide Stands;
  }

  /** Bytes that are no command are answered with 0 and leave the book alone. */
  lemma {:induction false} GarbageReply(s: Machine, data: seq<Byte>)
    requires !WellFormed(data)
    ensures Apply(s, data).0 == [0] && Apply(s, data).1.book == s.book
  {
    DecodesExactlyWhen(data);
    hide Decoded;
    hide Execute;
  }
}
