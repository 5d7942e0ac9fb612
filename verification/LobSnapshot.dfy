/** Restoring a snapshot rebuilds the machine it was taken from. */
module LobSnapshot {
  import opened Bytes
  import opened BookSpec
  import opened BookInvariant
  import opened BookTheorems
  import opened WireBuffer
  import opened OrderProtocol
  import opened LobSpec

  // ----- adding every order of a book to an empty one -----

  ghost function Rebuild(b: Book, orders: seq<Order>): Book
    decreases |orders|
  {
    if orders == [] then b else Rebuild(AddResting(b, orders[0]), orders[1..])
  }

  ghost function IndexAfter(index: Index, orders: seq<Order>): Index
    decreases |orders|
  {
    if orders == [] then index
    else IndexAfter(index[orders[0].id := Location(orders[0].side, orders[0].price)], orders[1..])
  }

  lemma {:induction false} RebuildInTwo(b: Book, first: seq<Order>, second: seq<Order>)
    ensures Rebuild(b, first + second) == Rebuild(Rebuild(b, first), second)
    decreases |first|
  {
    if first == [] {
      assert first + second == second;
    } else {
      assert (first + second)[1..] == first[1..] + second;
      RebuildInTwo(AddResting(b, first[0]), first[1..], second);
    }
  }

  lemma {:induction false} IndexInTwo(index: Index, first: seq<Order>, second: seq<Order>)
    ensures IndexAfter(index, first + second) == IndexAfter(IndexAfter(index, first), second)
    decreases |first|
  {
    if first == [] {
      assert first + second == second;
    } else {
      assert (first + second)[1..] == first[1..] + second;
      IndexInTwo(index[first[0].id := Location(first[0].side, first[0].price)], first[1..], second);
    }
  }

  ghost predicate AllAt(s: Side, p: Int64, orders: seq<Order>) {
    forall k :: 0 <= k < |orders| ==> orders[k].side == s && orders[k].price == p
  }

  lemma {:induction false} AddReplaces(b: Book, o: Order)
    ensures AddResting(b, o) == Replaced(b, o.side, AddTo(LevelsOf(b, o.side), o), b.index[o.id := Location(o.side, o.price)])
  {
  }

  function QueueAt(m: Levels, p: Int64): seq<Order> { if p in m then m[p] else [] }

  /** Orders of one level queue up behind what the level holds. */
  lemma {:induction false} RebuildLevel(b: Book, s: Side, p: Int64, orders: seq<Order>)
    requires AllAt(s, p, orders) && orders != []
    ensures var m := LevelsOf(b, s);
            Rebuild(b, orders) == Replaced(b, s, m[p := QueueAt(m, p) + orders], IndexAfter(b.index, orders))
    decreases |orders|
  {
    hide AddResting;
    hide Replaced;
    hide LevelsOf;
    var m, o, rest := LevelsOf(b, s), orders[0], orders[1..];
    var b1 := AddResting(b, o);
    AddReplaces(b, o);
    if |orders| == 1 {
      assert orders == [o];
    } else {
      RebuildLevel(b1, s, p, rest);
      var m1, index1 := m[p := QueueAt(m, p) + [o]], b.index[o.id := Location(s, p)];
      assert QueueAt(m, p) + [o] + rest == QueueAt(m, p) + orders;
      assert m1[p := QueueAt(m, p) + orders] == m[p := QueueAt(m, p) + orders];
      ReplacedTwice(b, s, m1, index1, m[p := QueueAt(m, p) + orders], IndexAfter(index1, rest));
    }
  }

  /** A level's orders are all of its side and price. */
  lemma {:induction false} LevelIsAllAt(s: Side, index: Index, m: Levels, p: Int64)
    requires LevelsOk(s, index, m) && p in m
    ensures m[p] != [] && AllAt(s, p, m[p])
  {
    assert QueueOk(s, p, index, m[p]);
    forall k | 0 <= k < |m[p]| ensures m[p][k].side == s && m[p][k].price == p {
      assert OrderOk(s, p, index, m[p][k]);
    }
  }

  lemma {:induction false} MergeOneMore(done: Levels, m: Levels, p: Int64)
    requires p in m
    ensures done[p := m[p]] + (m - {p}) == done + m
  {
  }

  /** One whole level, and then the rest of the side. */
  lemma {:induction false} RebuildOneMore(b: Book, s: Side, m: Levels, p: Int64, rest: seq<Order>)
    requires p in m && p !in LevelsOf(b, s) && m[p] != [] && AllAt(s, p, m[p])
    ensures var b1 := Rebuild(b, m[p]);
            && LevelsOf(b1, s) == LevelsOf(b, s)[p := m[p]]
            && (Rebuild(b1, rest) == Replaced(b1, s, LevelsOf(b1, s) + (m - {p}), IndexAfter(b1.index, rest)) ==>
                Rebuild(b, m[p] + rest) == Replaced(b, s, LevelsOf(b, s) + m, IndexAfter(b.index, m[p] + rest)))
  {
    var done := LevelsOf(b, s);
    assert QueueAt(done, p) + m[p] == m[p];
    hide *;
    RebuildInTwo(b, m[p], rest);
    IndexInTwo(b.index, m[p], rest);
    RebuildLevel(b, s, p, m[p]);
    var whole, index1 := done + m, IndexAfter(b.index, m[p]);
    MergeOneMore(done, m, p);
    ReplacedTwice(b, s, done[p := m[p]], index1, whole, IndexAfter(index1, rest));
  }

  /** Level by level, a whole side. */
  lemma {:induction false} RebuildSide(b: Book, s: Side, index: Index, m: Levels)
    requires LevelsOk(s, index, m) && forall p :: p in m ==> p !in LevelsOf(b, s)
    ensures Rebuild(b, Flatten(s, m)) == Replaced(b, s, LevelsOf(b, s) + m, IndexAfter(b.index, Flatten(s, m)))
    decreases |m|
  {
    hide AllAt;
    hide Replaced;
    hide LevelsOf;
    hide QueueOk;
    if m == map[] {
      assert LevelsOf(b, s) + m == LevelsOf(b, s);
      ReplacedTwice(b, s, LevelsOf(b, s), b.index, LevelsOf(b, s), b.index);
    } else {
      var p := Best(s, m.Keys);
      FewerKeys(m, p);
      LevelIsAllAt(s, index, m, p);
      RebuildOneMore(b, s, m, p, Flatten(s, m - {p}));
      RebuildSide(Rebuild(b, m[p]), s, index, m - {p});
    }
  }

  /** The orders say of every id what the index says. */
  ghost predicate Agree(index: Index, orders: seq<Order>) {
    forall k :: 0 <= k < |orders| ==> orders[k].id in index && index[orders[k].id] == Location(orders[k].side, orders[k].price)
  }

  lemma {:induction false} IndexGrows(small: Index, index: Index, orders: seq<Order>)
    requires Subindex(small, index) && Agree(index, orders)
    ensures var grown := IndexAfter(small, orders);
            && Subindex(grown, index) && small.Keys <= grown.Keys
            && forall k :: 0 <= k < |orders| ==> orders[k].id in grown
    decreases |orders|
  {
    if orders != [] {
      var o := orders[0];
      IndexGrows(small[o.id := Location(o.side, o.price)], index, orders[1..]);
      forall k | 0 <= k < |orders| ensures orders[k].id in IndexAfter(small, orders) {
        assert k > 0 ==> orders[k] == orders[1..][k - 1];
      }
    }
  }

  /** What a side lists: exactly the orders of its levels. */
  lemma {:induction false} FlattenLists(s: Side, index: Index, m: Levels)
    requires LevelsOk(s, index, m)
    ensures Agree(index, Flatten(s, m))
    ensures forall p, k :: p in m && 0 <= k < |m[p]| ==> m[p][k] in Flatten(s, m)
    decreases |m|
  {
    if m != map[] {
      var p := Best(s, m.Keys);
      FewerKeys(m, p);
      var rest := m - {p};
      FlattenLists(s, index, rest);
      assert QueueOk(s, p, index, m[p]);
      assert forall k :: 0 <= k < |m[p]| ==> OrderOk(s, p, index, m[p][k]);
      forall q, k | q in m && 0 <= k < |m[q]| ensures m[q][k] in Flatten(s, m) {
        assert q != p ==> q in rest && rest[q] == m[q];
      }
    }
  }

  lemma {:induction false} AgreeBoth(index: Index, first: seq<Order>, second: seq<Order>)
    requires Agree(index, first) && Agree(index, second)
    ensures Agree(index, first + second)
  {
  }

  /** The index built from all orders of a good book is the book's index. */
  lemma {:induction false} IndexRebuilt(b: Book)
    requires BookOk(b)
    ensures IndexAfter(map[], AllOrders(b)) == b.index
  {
    FlattenLists(Buy, b.index, b.bids);
    FlattenLists(Sell, b.index, b.asks);
    AgreeBoth(b.index, Flatten(Buy, b.bids), Flatten(Sell, b.asks));
    var all := AllOrders(b);
    IndexGrows(map[], b.index, all);
    forall id | id in b.index ensures id in IndexAfter(map[], all) {
      assert Located(b, id);
      var loc := b.index[id];
      var level := LevelsOf(b, loc.side)[loc.price];
      var k :| 0 <= k < |level| && level[k].id == id;
      assert level[k] in all;
    }
  }

  lemma {:induction false} FromNothing(m: Levels)
    ensures map[] + m == m
  {
  }

  lemma {:induction false} RebuildBook(b: Book)
    requires BookOk(b)
    ensures Rebuild(EmptyBook(b.symbol), AllOrders(b)) == b
  {
    IndexRebuilt(b);
    hide Flatten;
    hide Rebuild;
    hide IndexAfter;
    hide LevelsOk;
    hide Sound;
    var b0, bids, asks := EmptyBook(b.symbol), Flatten(Buy, b.bids), Flatten(Sell, b.asks);
    RebuildInTwo(b0, bids, asks);
    IndexInTwo(map[], bids, asks);
    RebuildSide(b0, Buy, b.index, b.bids);
    FromNothing(b.bids);
    FromNothing(b.asks);
    var b1 := Rebuild(b0, bids);
    assert b1 == Book(b.symbol, b.bids, map[], IndexAfter(map[], bids));
    RebuildSide(b1, Sell, b.index, b.asks);
  }

  // ----- reading the bytes back -----

  lemma {:induction false} NumberAt(data: seq<Byte>, off: nat, v: UInt64)
    requires Stands(data, off, LE(v, 8))
    ensures Number(data, off) == v
  {
    PowersOf256();
    LERoundTrip(v, 8);
  }

  lemma {:induction false} CountAt(data: seq<Byte>, off: nat, n: nat)
    requires n < U32 && Stands(data, off, LE(n, 4))
    ensures Count(data, off) == n
  {
    PowersOf256();
    LERoundTrip(n, 4);
  }

  lemma {:induction false} OrderReadsBack(data: seq<Byte>, off: nat, o: Order)
    requires Stands(data, off, OrderBytes(o)) && -I64 <= o.quantity < I64
    ensures off + ORDER_SIZE <= |data| && data[off + 8] <= 1 && OrderAt(data, off) == o
  {
    var p, q, n := LE(ToU64(o.price), 8), LE(ToU64(o.quantity), 8), LE(o.sequence, 8);
    StandsSplit(data, off, LE(o.id, 8), [SideByte(o.side)] + (p + (q + n)));
    StandsSplit(data, off + 8, [SideByte(o.side)], p + (q + n));
    StandsSplit(data, off + 9, p, q + n);
    StandsSplit(data, off + 17, q, n);
    StandsByte(data, off + 8, SideByte(o.side));
    NumberAt(data, off, o.id);
    NumberAt(data, off + 9, ToU64(o.price));
    NumberAt(data, off + 17, ToU64(o.quantity));
    NumberAt(data, off + 25, o.sequence);
    SignRoundTrip(o.price);
    SignRoundTrip(o.quantity);
  }

  ghost predicate InRange(orders: seq<Order>) { forall k :: 0 <= k < |orders| ==> -I64 <= orders[k].quantity < I64 }

  lemma {:induction false} OrdersReadBack(b: Book, data: seq<Byte>, off: nat, orders: seq<Order>)
    requires Stands(data, off, OrdersBytes(orders)) && InRange(orders)
    ensures RestoreOrders(b, data, off, |orders|) == Rebuild(b, orders)
    decreases |orders|
  {
    if orders != [] {
      StandsSplit(data, off, OrderBytes(orders[0]), OrdersBytes(orders[1..]));
      OrderReadsBack(data, off, orders[0]);
      OrdersReadBack(AddResting(b, orders[0]), data, off + ORDER_SIZE, orders[1..]);
    }
  }

  /** Where the parts of a snapshot stand. */
  lemma {:induction false} SnapshotSplits(nextSeq: UInt64, symbol: seq<Byte>, orders: seq<Order>)
    ensures var data := SnapshotOf(nextSeq, symbol, orders);
            && |data| == 16 + |symbol| + ORDER_SIZE * |orders|
            && Stands(data, 0, LE(nextSeq, 8)) && Stands(data, 8, LE(|symbol|, 4)) && Stands(data, 12, symbol)
            && Stands(data, 12 + |symbol|, LE(|orders|, 4)) && Stands(data, 16 + |symbol|, OrdersBytes(orders))
  {
    var data := SnapshotOf(nextSeq, symbol, orders);
    assert Stands(data, 0, data) by { assert data[0..|data|] == data; }
    var tail := LE(|orders|, 4) + OrdersBytes(orders);
    StandsSplit(data, 0, LE(nextSeq, 8), (LE(|symbol|, 4) + symbol) + tail);
    StandsSplit(data, 8, LE(|symbol|, 4) + symbol, tail);
    StandsSplit(data, 8, LE(|symbol|, 4), symbol);
    StandsSplit(data, 12 + |symbol|, LE(|orders|, 4), OrdersBytes(orders));
  }

  lemma {:induction false} RestoreReads(t: Machine, nextSeq: UInt64, symbol: seq<Byte>, orders: seq<Order>)
    requires |symbol| < U32 && |orders| < U32 && InRange(orders)
    ensures Restore(t, SnapshotOf(nextSeq, symbol, orders)) == Machine(nextSeq, Rebuild(EmptyBook(symbol), orders))
  {
    var data := SnapshotOf(nextSeq, symbol, orders);
    SnapshotSplits(nextSeq, symbol, orders);
    hide SnapshotOf;
    NumberAt(data, 0, nextSeq);
    CountAt(data, 8, |symbol|);
    CountAt(data, 12 + |symbol|, |orders|);
    OrdersReadBack(EmptyBook(symbol), data, 16 + |symbol|, orders);
    hide Number;
    hide Count;
    hide RestoreOrders;
  }

  /** The sizes that the length fields of a snapshot can hold. */
  ghost predicate Fits(s: Machine) { |s.book.symbol| < U32 && |AllOrders(s.book)| < U32 }

  lemma {:induction false} OrdersInRange(b: Book)
    requires BookOk(b)
    ensures InRange(AllOrders(b))
  {
    SideInRange(Buy, b.index, b.bids);
    SideInRange(Sell, b.index, b.asks);
  }

  lemma {:induction false} SideInRange(s: Side, index: Index, m: Levels)
    requires LevelsOk(s, index, m)
    ensures InRange(Flatten(s, m))
    decreases |m|
  {
    if m != map[] {
      var p := Best(s, m.Keys);
      FewerKeys(m, p);
      SideInRange(s, index, m - {p});
      assert QueueOk(s, p, index, m[p]);
      assert forall k :: 0 <= k < |m[p]| ==> OrderOk(s, p, index, m[p][k]);
    }
  }

  /** Restoring a snapshot into any machine gives the machine it was taken from. */
  lemma {:induction false} SnapshotRestores(s: Machine, t: Machine)
    requires BookOk(s.book) && Fits(s)
    ensures Restore(t, Snapshot(s)) == s
  {
    OrdersInRange(s.book);
    RestoreReads(t, s.nextSeq, s.book.symbol, AllOrders(s.book));
    RebuildBook(s.book);
  }

  /** ... so it answers any further commands with the same bytes as the original. */
  lemma {:induction false} SnapshotSimulates(s: Machine, t: Machine, commands: seq<seq<Byte>>)
    requires BookOk(s.book) && Fits(s)
    ensures ApplyAll(Restore(t, Snapshot(s)), commands) == ApplyAll(s, commands)
  {
    SnapshotRestores(s, t);
  }
}
