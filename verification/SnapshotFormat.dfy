/** Snapshots byte by byte, and what restoring any bytes comes to, also those of a snapshot that breaks off:
    the clerk files, one after the other, the orders that are there. */
module SnapshotFormat {
  import opened Bytes
  import opened BookSpec
  import opened BookInvariant
  import opened WireBuffer
  import opened OrderProtocol
  import opened LobSpec
  import opened LobSnapshot
  import opened Ledger

  // ----- the layout -----

  /** 33 bytes an order: id, side, price, quantity and sequence number. */
  lemma {:induction false} OrderLayout(o: Order)
    ensures var bs := OrderBytes(o);
            && |bs| == 33 && Stands(bs, 0, LE(o.id, 8)) && bs[8] == (if o.side == Buy then 0 else 1)
            && Stands(bs, 9, LE(ToU64(o.price), 8)) && Stands(bs, 17, LE(ToU64(o.quantity), 8)) && Stands(bs, 25, LE(o.sequence, 8))
  {
    hide LE;
    hide ToU64;
    var bs := OrderBytes(o);
    assert Stands(bs, 0, bs) by { assert bs[0..|bs|] == bs; }
    var p, q, n := LE(ToU64(o.price), 8), LE(ToU64(o.quantity), 8), LE(o.sequence, 8);
    StandsSplit(bs, 0, LE(o.id, 8), [SideByte(o.side)] + (p + (q + n)));
    StandsSplit(bs, 8, [SideByte(o.side)], p + (q + n));
    StandsSplit(bs, 9, p, q + n);
    StandsSplit(bs, 17, q, n);
    StandsByte(bs, 8, SideByte(o.side));
  }

  /** Counter, symbol with its length, and the orders with their number, bids first, 33 bytes each. */
  lemma {:induction false} SnapshotLayout(s: Machine, k: nat)
    requires k < |AllOrders(s.book)|
    ensures var data, n := Snapshot(s), |s.book.symbol|;
            && |data| == 16 + n + 33 * |AllOrders(s.book)|
            && Stands(data, 0, LE(s.nextSeq, 8)) && Stands(data, 8, LE(n, 4)) && Stands(data, 12, s.book.symbol)
            && Stands(data, 12 + n, LE(|AllOrders(s.book)|, 4)) && Stands(data, 16 + n + 33 * k, OrderBytes(AllOrders(s.book)[k]))
  {
    hide AllOrders;
    hide OrderBytes;
    SnapshotSplits(s.nextSeq, s.book.symbol, AllOrders(s.book));
    OrderStands(Snapshot(s), 16 + |s.book.symbol|, AllOrders(s.book), k);
  }

  lemma {:induction false} OrderStands(data: seq<Byte>, off: nat, orders: seq<Order>, k: nat)
    requires Stands(data, off, OrdersBytes(orders)) && k < |orders|
    ensures Stands(data, off + 33 * k, OrderBytes(orders[k]))
    decreases k
  {
    hide OrderBytes;
    hide Stands;
    StandsSplit(data, off, OrderBytes(orders[0]), OrdersBytes(orders[1..]));
    if k > 0 { OrderStands(data, off + 33, orders[1..], k - 1); }
  }

  // ----- any bytes -----

  /** The clerk files orders one after the other. */
  function FileAll(list: seq<Order>, orders: seq<Order>): seq<Order>
    decreases |orders|
  {
    if orders == [] then list else FileAll(Insert(list, orders[0]), orders[1..])
  }

  lemma {:induction false} AddKeepsSides(b: Book, o: Order)
    requires OneSide(Buy, b.bids) && OneSide(Sell, b.asks)
    ensures var b' := AddResting(b, o); OneSide(Buy, b'.bids) && OneSide(Sell, b'.asks)
  {
  }

  lemma {:induction false} RebuildFiles(b: Book, orders: seq<Order>)
    requires OneSide(Buy, b.bids) && OneSide(Sell, b.asks)
    ensures AllOrders(Rebuild(b, orders)) == FileAll(AllOrders(b), orders) && Rebuild(b, orders).symbol == b.symbol
    decreases |orders|
  {
    hide OneSide;
    hide AllOrders;
    if orders != [] {
      AddInserts(b, orders[0]);
      AddKeepsSides(b, orders[0]);
      assert AddResting(b, orders[0]).symbol == b.symbol;
      hide AddResting;
      RebuildFiles(AddResting(b, orders[0]), orders[1..]);
    }
  }

  lemma {:induction false} NumberStandsAt(data: seq<Byte>, off: nat)
    requires off + 8 <= |data|
    ensures Stands(data, off, LE(Number(data, off), 8))
  {
    UnLERoundTrip(data[off..off + 8]);
  }

  /** What is read as an order stands there as that order. */
  lemma {:induction false} OrderIsThere(data: seq<Byte>, off: nat)
    requires off + 33 <= |data| && data[off + 8] <= 1
    ensures Stands(data, off, OrderBytes(OrderAt(data, off)))
  {
    hide Number;
    hide LE;
    hide ToU64;
    hide ToI64;
    var o := OrderAt(data, off);
    NumberStandsAt(data, off);
    NumberStandsAt(data, off + 9);
    NumberStandsAt(data, off + 17);
    NumberStandsAt(data, off + 25);
    UnsignRoundTrip(Number(data, off + 9));
    UnsignRoundTrip(Number(data, off + 17));
    StandsByte(data, off + 8, SideByte(o.side));
    hide Stands;
    var p, q, n := LE(ToU64(o.price), 8), LE(ToU64(o.quantity), 8), LE(o.sequence, 8);
    StandsSplit(data, off + 17, q, n);
    StandsSplit(data, off + 9, p, q + n);
    StandsSplit(data, off + 8, [SideByte(o.side)], p + (q + n));
    StandsSplit(data, off, LE(o.id, 8), [SideByte(o.side)] + (p + (q + n)));
  }

  /** As many orders as are announced and there, up to the first that is cut off or names no side. */
  ghost predicate AreThere(data: seq<Byte>, off: nat, n: nat, orders: seq<Order>) {
    && |orders| <= n && Stands(data, off, OrdersBytes(orders))
    && (|orders| < n ==> var end := off + 33 * |orders|; end + 33 > |data| || data[end + 8] > 1)
  }

  lemma {:induction false} OrdersThere(b: Book, data: seq<Byte>, off: nat, n: nat) returns (orders: seq<Order>)
    requires off <= |data|
    ensures AreThere(data, off, n, orders) && RestoreOrders(b, data, off, n) == Rebuild(b, orders)
    decreases n
  {
    hide OrderBytes;
    hide OrderAt;
    hide AddResting;
    orders := [];
    if n > 0 && off + 33 <= |data| && data[off + 8] <= 1 {
      var o := OrderAt(data, off);
      OrderIsThere(data, off);
      var rest := OrdersThere(AddResting(b, o), data, off + 33, n - 1);
      orders := [o] + rest;
      assert orders[1..] == rest;
      StandsSplit(data, off, OrderBytes(o), OrdersBytes(rest));
    }
  }

  /** Counter, symbol and number of orders are all there. */
  predicate HasHeader(data: seq<Byte>) { |data| >= 12 && 16 + UnLE(data[8..12]) <= |data| }

  /** Restoring any bytes whatever: nothing below 8 bytes, the counter alone without a whole header, and
      otherwise a book of the orders that are there, filed in their order. */
  lemma {:induction false} RestoreFiles(t: Machine, data: seq<Byte>) returns (orders: seq<Order>)
    ensures |data| < 8 ==> Restore(t, data) == t
    ensures |data| >= 8 ==> Stands(data, 0, LE(Restore(t, data).nextSeq, 8))
    ensures |data| >= 8 && !HasHeader(data) ==> Restore(t, data).book == t.book
    ensures HasHeader(data) ==>
              var len := UnLE(data[8..12]);
              var book := Restore(t, data).book;
              && book.symbol == data[12..12 + len] && AreThere(data, 16 + len, UnLE(data[12 + len..16 + len]), orders)
              && AllOrders(book) == FileAll([], orders)
  {
    hide RestoreOrders;
    hide FileAll;
    hide AreThere;
    hide Number;
    orders := [];
    if |data| >= 8 { NumberStandsAt(data, 0); }
    hide LE;
    if HasHeader(data) {
      var len := UnLE(data[8..12]);
      var b0 := EmptyBook(data[12..12 + len]);
      assert AllOrders(b0) == [];
      orders := OrdersThere(b0, data, 16 + len, UnLE(data[12 + len..16 + len]));
      RebuildFiles(b0, orders);
    }
  }

  // ----- a snapshot that breaks off -----

  ghost predicate Filed(list: seq<Order>) { forall i, j :: 0 <= i < j < |list| ==> Ahead(list[i], list[j]) }

  /** The list of a good book is in the clerk's order. */
  lemma {:induction false} BookIsFiled(b: Book)
    requires BookOk(b)
    ensures Filed(AllOrders(b))
  {
    SideOk(Buy, b.index, b.bids);
    SideOk(Sell, b.index, b.asks);
    FlattenWorsens(Buy, b.bids);
    FlattenWorsens(Sell, b.asks);
    SidesOfFlatten(Buy, b.bids);
    SidesOfFlatten(Sell, b.asks);
    hide Flatten;
    hide OneSide;
    var bids, asks := Flatten(Buy, b.bids), Flatten(Sell, b.asks);
    var all := bids + asks;
    forall i, j | 0 <= i < j < |all| ensures Ahead(all[i], all[j]) {
      assert j < |bids| ==> !Better(Buy, bids[j].price, bids[i].price);
      assert i >= |bids| ==> !Better(Sell, asks[j - |bids|].price, asks[i - |bids|].price);
    }
  }

  /** Filing what is in order already appends it. */
  lemma {:induction false} FilingAppends(list: seq<Order>, orders: seq<Order>)
    requires Filed(list + orders)
    ensures FileAll(list, orders) == list + orders
    decreases |orders|
  {
    if orders != [] {
      var all := list + orders;
      forall k | 0 <= k < |list| ensures Ahead(list[k], orders[0]) { assert Ahead(all[k], all[|list|]); }
      InsertBehind(list, [], orders[0]);
      assert list + [] == list && Insert([], orders[0]) == [orders[0]] + [] == [orders[0]];
      assert list + [orders[0]] + orders[1..] == all;
      FilingAppends(list + [orders[0]], orders[1..]);
    }
  }

  /** Of records that end with the data, the whole ones are read. */
  lemma {:induction false} WholeOrdersRead(b: Book, data: seq<Byte>, off: nat, orders: seq<Order>, m: nat, n: nat)
    requires m <= |orders| && m <= n && Stands(data, off, OrdersBytes(orders[..m])) && InRange(orders)
    requires m == n || |data| < off + 33 * m + 33
    ensures RestoreOrders(b, data, off, n) == Rebuild(b, orders[..m])
    decreases m
  {
    hide OrderBytes;
    hide OrderAt;
    hide AddResting;
    hide Stands;
    if m > 0 {
      var front := orders[..m];
      StandsSplit(data, off, OrderBytes(front[0]), OrdersBytes(front[1..]));
      OrderReadsBack(data, off, front[0]);
      assert front[1..] == orders[1..][..m - 1];
      WholeOrdersRead(AddResting(b, front[0]), data, off + 33, orders[1..], m - 1, n - 1);
    }
  }

  lemma {:induction false} FrontOfOrders(orders: seq<Order>, m: nat)
    requires m <= |orders|
    ensures OrdersBytes(orders[..m]) <= OrdersBytes(orders)
    decreases m
  {
    hide OrderBytes;
    if m > 0 {
      FrontOfOrders(orders[1..], m - 1);
      assert orders[..m][1..] == orders[1..][..m - 1];
      var a, b, c := OrderBytes(orders[0]), OrdersBytes(orders[1..][..m - 1]), OrdersBytes(orders[1..]);
      assert (a + c)[..|a + b|] == a + c[..|b|];
    }
  }

  lemma {:induction false} StandsInFront(data: seq<Byte>, k: nat, off: nat, bs: seq<Byte>, front: seq<Byte>)
    requires k <= |data| && Stands(data, off, bs) && front <= bs && off + |front| <= k
    ensures Stands(data[..k], off, front)
  {
    assert data[off..off + |bs|][..|front|] == data[off..off + |front|];
    assert data[..k][off..off + |front|] == data[off..off + |front|];
  }

  /** A snapshot cut at byte k restores the counter once 8 bytes are there, and once the header is there the
      book of the orders whose 33 bytes are all there: the first ones of the list, best bid first. */
  lemma {:induction false} CutSnapshotRestores(s: Machine, t: Machine, k: nat)
    requires BookOk(s.book) && Fits(s) && k <= |Snapshot(s)|
    ensures var r, n := Restore(t, Snapshot(s)[..k]), |s.book.symbol|;
            && (k < 8 ==> r == t)
            && (8 <= k < 16 + n ==> r == t.(nextSeq := s.nextSeq))
            && (16 + n <= k ==>
                  && r.nextSeq == s.nextSeq && r.book.symbol == s.book.symbol
                  && (k - 16 - n) / 33 <= |AllOrders(s.book)| && AllOrders(r.book) == AllOrders(s.book)[..(k - 16 - n) / 33])
  {
    hide AllOrders;
    hide RestoreOrders;
    hide Number;
    hide Count;
    hide BookOk;
    hide LE;
    hide Filed;
    hide InRange;
    var all, data, n := AllOrders(s.book), Snapshot(s), |s.book.symbol|;
    SnapshotSplits(s.nextSeq, s.book.symbol, all);
    assert data == SnapshotOf(s.nextSeq, s.book.symbol, all);
    hide SnapshotOf;
    var cut := data[..k];
    if k >= 8 {
      StandsInFront(data, k, 0, LE(s.nextSeq, 8), LE(s.nextSeq, 8));
      NumberAt(cut, 0, s.nextSeq);
    }
    if k >= 12 {
      StandsInFront(data, k, 8, LE(n, 4), LE(n, 4));
      CountAt(cut, 8, n);
    }
    if k >= 16 + n {
      BookIsFiled(s.book);
      OrdersInRange(s.book);
      CutPartsRestore(s.nextSeq, s.book.symbol, all, k);
      assert cut[12..12 + n] == s.book.symbol;
    }
  }

  lemma {:induction false} EmptyListsNothing(symbol: seq<Byte>)
    ensures var b := EmptyBook(symbol); AllOrders(b) == [] && OneSide(Buy, b.bids) && OneSide(Sell, b.asks) && b.symbol == symbol
  {
  }

  /** The parts of a cut snapshot, the orders in the clerk's order. */
  lemma {:induction false} CutPartsRestore(nextSeq: UInt64, symbol: seq<Byte>, all: seq<Order>, k: nat)
    requires Filed(all) && InRange(all) && |symbol| < U32 && |all| < U32 && 16 + |symbol| <= k <= |SnapshotOf(nextSeq, symbol, all)|
    ensures var cut, n, m := SnapshotOf(nextSeq, symbol, all)[..k], |symbol|, (k - 16 - |symbol|) / 33;
            && Count(cut, 12 + n) == |all| && Stands(cut, 12, symbol) && m <= |all|
            && var book := RestoreOrders(EmptyBook(symbol), cut, 16 + n, |all|);
               book.symbol == symbol && AllOrders(book) == all[..m]
  {
    hide AllOrders;
    hide RestoreOrders;
    hide Rebuild;
    hide FileAll;
    hide OrdersBytes;
    hide LE;
    hide Count;
    hide Filed;
    hide InRange;
    hide OneSide;
    hide SnapshotOf;
    hide Stands;
    var data, n, m := SnapshotOf(nextSeq, symbol, all), |symbol|, (k - 16 - |symbol|) / 33;
    SnapshotSplits(nextSeq, symbol, all);
    StandsInFront(data, k, 12, symbol, symbol);
    StandsInFront(data, k, 12 + n, LE(|all|, 4), LE(|all|, 4));
    CountAt(data[..k], 12 + n, |all|);
    CutOrdersRestore(EmptyBook(symbol), data, k, 16 + n, all);
    EmptyListsNothing(symbol);
    hide EmptyBook;
    RebuildFiles(EmptyBook(symbol), all[..m]);
    FilingFront(all, m);
  }

  lemma {:induction false} CutOrdersRestore(b: Book, data: seq<Byte>, k: nat, off: nat, orders: seq<Order>)
    requires Stands(data, off, OrdersBytes(orders)) && |data| == off + 33 * |orders| && off <= k <= |data| && InRange(orders)
    ensures var m := (k - off) / 33;
            m <= |orders| && RestoreOrders(b, data[..k], off, |orders|) == Rebuild(b, orders[..m])
  {
    hide RestoreOrders;
    hide Rebuild;
    var m := (k - off) / 33;
    assert 33 * m <= k - off < 33 * m + 33;
    FrontOfOrders(orders, m);
    StandsInFront(data, k, off, OrdersBytes(orders), OrdersBytes(orders[..m]));
    hide OrdersBytes;
    WholeOrdersRead(b, data[..k], off, orders, m, |orders|);
  }

  lemma {:induction false} FilingFront(orders: seq<Order>, m: nat)
    requires Filed(orders) && m <= |orders|
    ensures FileAll([], orders[..m]) == orders[..m]
  {
    var front := orders[..m];
    assert [] + front == front;
    forall i, j | 0 <= i < j < |front| ensures Ahead(front[i], front[j]) { assert Ahead(orders[i], orders[j]); }
    FilingAppends([], front);
  }
}
