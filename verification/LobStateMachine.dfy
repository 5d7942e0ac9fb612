/** The state machine that the replicated log drives: a sequence counter and an injected engine. */
module LobStateMachine {
  import opened Bytes
  import opened BookSpec
  import opened BookInvariant
  import opened BookMatching
  import opened WireBuffer
  import opened OrderProtocol
  import opened ResultProtocol
  import opened OrderCodec
  import opened Engine
  import E = Engine
  import opened LobSpec
  import opened LobSnapshot
  import L = LobSpec
  import opened R = RaftTypes
  import M = MapOrderBook
  import SkipLists = SkipList
  import SkipBooks = SkipListOrderBook

  // ----- snapshot bytes -----

  method PushLE(buf: seq<Byte>, v: nat, n: nat) returns (out: seq<Byte>)
    ensures out == buf + LE(v, n)
  {
    var next;
    out, next := PutLE(buf, |buf|, v, n);
    assert out == out[..next] && buf == buf[..|buf|];
  }

  method PushOrder(buf: seq<Byte>, o: Order) returns (out: seq<Byte>)
    ensures out == buf + OrderBytes(o)
  {
    hide LE;
    hide ToU64;
    out := PushLE(buf, o.id, 8);
    out := out + [SideByte(o.side)];
    out := PushLE(out, ToU64(o.price), 8);
    out := PushLE(out, ToU64(o.quantity), 8);
    out := PushLE(out, o.sequence, 8);
  }

  method WriteSnapshot(nextSeq: UInt64, symbol: seq<Byte>, orders: seq<Order>) returns (buf: seq<Byte>)
    ensures buf == SnapshotOf(nextSeq, symbol, orders)
  {
    hide LE;
    hide OrderBytes;
    buf := PushLE([], nextSeq, 8);
    buf := PushLE(buf, |symbol|, 4);
    buf := buf + symbol;
    buf := PushLE(buf, |orders|, 4);
    ghost var head := buf;
    for i := 0 to |orders|
      invariant buf + OrdersBytes(orders[i..]) == head + OrdersBytes(orders)
    {
      assert orders[i..][1..] == orders[i + 1..];
      Associative(buf, OrderBytes(orders[i]), OrdersBytes(orders[i + 1..]));
      buf := PushOrder(buf, orders[i]);
    }
    assert buf + [] == buf;
  }

  /** Reads one order; false where the bytes run out or name no side. */
  method ReadOrder(data: seq<Byte>, off: nat) returns (ok: bool, next: nat, o: Order)
    requires off <= |data|
    ensures ok == (off + ORDER_SIZE <= |data| && data[off + 8] <= 1)
    ensures ok ==> next == off + ORDER_SIZE && o == OrderAt(data, off)
  {
    hide Number;
    hide Stands;
    ok, next, o := false, off, Order(0, Buy, 0, 0, 0);
    var got, id, s, price, quantity, sequence;
    got, next, id := GetU64(data, off);
    if !got { return; }
    NumberAt(data, off, id);
    got, next, s := GetU8(data, next);
    if !got || s > 1 { return; }
    got, next, price := GetU64(data, next);
    if !got { return; }
    NumberAt(data, off + 9, price);
    got, next, quantity := GetU64(data, next);
    if !got { return; }
    NumberAt(data, off + 17, quantity);
    got, next, sequence := GetU64(data, next);
    if !got { return; }
    NumberAt(data, off + 25, sequence);
    ok, o := true, Order(id, if s == 0 then Buy else Sell, ToI64(price), ToI64(quantity), sequence);
  }

  /** The fields of a snapshot before its orders; false where they break off. */
  method ReadHeader(data: seq<Byte>, off: nat) returns (ok: bool, next: nat, symbol: seq<Byte>, count: nat)
    requires off == 8 <= |data|
    ensures ok == (|data| >= 12 && 12 + Count(data, 8) + 4 <= |data|)
    ensures ok ==> var len := Count(data, 8);
                   symbol == data[12..12 + len] && count == Count(data, 12 + len) && next == 16 + len
  {
    hide Count;
    hide Stands;
    PowersOf256();
    ok, symbol, count := false, [], 0;
    var got, len;
    got, next, len := GetLE(data, off, 4);
    if !got { return; }
    CountAt(data, 8, len);
    if next + len > |data| { return; }
    symbol, next := data[next..next + len], next + len;
    got, next, count := GetLE(data, next, 4);
    if !got { return; }
    CountAt(data, 12 + len, count);
    ok := true;
  }

  // ----- replies -----

  /** The sum of the fills, as apply accumulates it. */
  method SumFills(fills: seq<Fill>) returns (filled: int)
    ensures filled == FillTotal(fills)
  {
    filled := 0;
    for i := 0 to |fills|
      invariant filled + FillTotal(fills[i..]) == FillTotal(fills)
    {
      assert fills[i..][1..] == fills[i + 1..];
      filled := filled + fills[i].quantity;
    }
  }

  /** The reply to an accepted NEW. */
  method ReplyToNew(fills: seq<Fill>, quantity: Int64) returns (reply: seq<Byte>)
    ensures var remaining := quantity - FillTotal(fills); reply == EncodeResult(fills, remaining > 0, remaining)
  {
    var filled := SumFills(fills);
    var remaining := quantity - filled;
    var rested := remaining > 0;
    reply := EncodeNewResult(fills, rested, remaining);
  }

  /** The switch on the opcode, with the decoder of each case. */
  method DecodeByOpcode(data: seq<Byte>) returns (c: Option<Command>)
    requires data != []
    ensures c == Decoded(data)
  {
    OpcodeFirst(data);
    hide Decoded;
    var op := data[0];
    if op == OP_NEW {
      c := DecodeCommand(data, OP_NEW);
    } else if op == OP_CXL {
      c := DecodeCommand(data, OP_CXL);
    } else if op == OP_MOD {
      c := DecodeCommand(data, OP_MOD);
    } else {
      c := None;
    }
  }

  /** The book of a machine that none was injected into. */
  method DefaultEngine() returns (e: Engine)
    ensures e.Valid() && e.View() == EmptyBook(DEFAULT_SYMBOL) && fresh(e.Objects())
  {
    var t := new M.MapOrderBook(DEFAULT_SYMBOL);
    e := MapEngine(t);
  }

  class LobStateMachine {
    const book: Engine
    var nextSeq: UInt64

    ghost function Objects(): set<object>
      reads if book.MapEngine? then {book.tree} else {book.skip, book.skip.bids, book.skip.asks}
    {
      book.Objects()
    }

    /** The objects of the engine. */
    ghost var repr: set<object>

    ghost predicate Valid()
      reads this
      reads if book.MapEngine? then {book.tree} else {book.skip, book.skip.bids, book.skip.asks}
      reads Objects()
    {
      && book.Valid() && repr == Objects() && this !in repr
      && (if book.MapEngine? then {book.tree} else {book.skip, book.skip.bids, book.skip.asks}) <= repr
    }

    ghost function View(): Machine
      reads this
      reads if book.MapEngine? then {book.tree} else {book.skip, book.skip.bids, book.skip.asks}
    {
      Machine(nextSeq, book.View())
    }

    constructor (book: Option<Engine>)
      requires book.Some? ==> book.value.Valid()
      ensures Valid() && View().nextSeq == 1
      ensures book.Some? ==> this.book == book.value && View().book == old(book.value.View())
      ensures book.None? ==> View().book == EmptyBook(DEFAULT_SYMBOL) && fresh(repr)
    {
      hide SkipLists.SkipList.Valid;
      hide Sound;
      nextSeq := 1;
      if book.Some? {
        this.book := book.value;
        repr := book.value.Objects();
      } else {
        var e := DefaultEngine();
        this.book := e;
        repr := e.Objects();
      }
    }

    method Apply(data: seq<Byte>) returns (reply: seq<Byte>)
      requires Valid()
      modifies this, repr
      ensures Valid() && (forall o :: o in repr ==> o in old(repr) || fresh(o))
      ensures (reply, View()) == L.Apply(old(View()), data)
    {
      hide E.Engine.Valid;
      hide E.Engine.View;
      hide SkipBooks.SkipListOrderBook.Footprint;
      hide Execute;
      hide Decoded;
      if data == [] { return EncodeSimple(false); }
      var c := DecodeByOpcode(data);
      var sequence := nextSeq;
      nextSeq := (nextSeq + 1) % U64;
      reply := EncodeSimple(false);
      if c.Some? { reply := Perform(c.value, sequence); }
    }

    /** A command that decoded. */
    method Perform(c: Command, sequence: UInt64) returns (reply: seq<Byte>)
      requires Valid()
      modifies this`repr, repr
      ensures Valid() && (forall o :: o in repr ==> o in old(repr) || fresh(o))
      ensures (reply, View().book) == Execute(old(View()).book, c, sequence) && nextSeq == old(nextSeq)
    {
      hide E.Engine.Valid;
      hide E.Engine.View;
      hide SkipBooks.SkipListOrderBook.Footprint;
      hide BookSpec.Cancel;
      hide BookSpec.Modify;
      hide EncodeSimple;
      match c
      case New(id, side, price, quantity) =>
        reply := PerformNew(c, sequence);
      case Cancel(id) =>
        var ok := book.CancelOrder(id);
        repr := Objects();
        book.OwnsItsParts();
        reply := EncodeSimple(ok);
      case Modify(id, price, quantity) =>
        var ok := book.ModifyOrder(id, price, quantity, sequence);
        repr := Objects();
        book.OwnsItsParts();
        reply := EncodeSimple(ok);
    }

    method PerformNew(c: Command, sequence: UInt64) returns (reply: seq<Byte>)
      requires Valid() && c.New?
      modifies this`repr, repr
      ensures Valid() && (forall o :: o in repr ==> o in old(repr) || fresh(o))
      ensures (reply, View().book) == Execute(old(View()).book, c, sequence)
    {
      hide E.Engine.Valid;
      hide E.Engine.View;
      hide SkipBooks.SkipListOrderBook.Footprint;
      hide NewOrder;
      hide EncodeResult;
      hide EncodeSimple;
      hide FillTotal;
      reply := EncodeSimple(false);
      if c.quantity <= 0 || book.HasOrderId(c.id) { return; }
      var fills := book.NewOrder(c.id, c.side, c.price, c.quantity, sequence);
      repr := Objects();
      book.OwnsItsParts();
      reply := ReplyToNew(fills, c.quantity);
    }

    method Snapshot() returns (bytes: seq<Byte>)
      requires Valid()
      ensures bytes == L.Snapshot(View())
    {
      hide SnapshotOf;
      var orders := book.AllOrders();
      bytes := WriteSnapshot(nextSeq, book.Symbol(), orders);
    }

    method Restore(data: seq<Byte>)
      requires Valid()
      modifies this, repr
      ensures Valid() && (forall o :: o in repr ==> o in old(repr) || fresh(o))
      ensures View() == L.Restore(old(View()), data)
    {
      hide E.Engine.Valid;
      hide E.Engine.View;
      hide SkipBooks.SkipListOrderBook.Footprint;
      hide Number;
      hide Count;
      hide RestoreOrders;
      var ok, off, sequence := GetU64(data, 0);
      if !ok { return; }
      NumberAt(data, 0, sequence);
      var symbol, count;
      ok, off, symbol, count := ReadHeader(data, off);
      nextSeq := sequence;
      if !ok { return; }
      Clear(symbol);
      AddOrders(data, off, count);
    }

    /** Adds the next of n orders, if it can be read. */
    method AddNext(data: seq<Byte>, off: nat, ghost n: nat) returns (ok: bool, next: nat)
      requires Valid() && off <= |data| && n > 0
      modifies this`repr, repr
      ensures Valid() && (forall o :: o in repr ==> o in old(repr) || fresh(o)) && nextSeq == old(nextSeq)
      ensures RestoreOrders(old(View().book), data, off, n) ==
                if ok then RestoreOrders(View().book, data, next, n - 1) else View().book
      ensures ok ==> next <= |data|
    {
      hide E.Engine.Valid;
      hide E.Engine.View;
      hide SkipBooks.SkipListOrderBook.Footprint;
      hide OrderAt;
      hide AddResting;
      var o;
      ok, next, o := ReadOrder(data, off);
      if ok {
        book.AddRestingOrder(o);
        repr := Objects();
        book.OwnsItsParts();
      }
    }

    method Clear(symbol: seq<Byte>)
      requires Valid()
      modifies this`repr, repr
      ensures Valid() && (forall o :: o in repr ==> o in old(repr) || fresh(o)) && nextSeq == old(nextSeq)
      ensures View().book == EmptyBook(symbol)
    {
      hide E.Engine.Valid;
      hide E.Engine.View;
      hide SkipBooks.SkipListOrderBook.Footprint;
      book.Reset(symbol);
      repr := Objects();
      book.OwnsItsParts();
    }

    /** Adds up to `count` orders one by one. */
    method AddOrders(data: seq<Byte>, start: nat, count: nat)
      requires Valid() && start <= |data|
      modifies this`repr, repr
      ensures Valid() && (forall o :: o in repr ==> o in old(repr) || fresh(o)) && nextSeq == old(nextSeq)
      ensures View().book == RestoreOrders(old(View().book), data, start, count)
    {
      hide E.Engine.Valid;
      hide E.Engine.View;
      hide SkipBooks.SkipListOrderBook.Footprint;
      ghost var goal := RestoreOrders(View().book, data, start, count);
      var off: nat := start;
      for i := 0 to count
        invariant Valid() && (forall o :: o in repr ==> o in old(repr) || fresh(o)) && nextSeq == old(nextSeq)
        invariant off <= |data| && RestoreOrders(View().book, data, off, count - i) == goal
      {
        var ok, next := AddNext(data, off, count - i);
        if !ok { return; }
        off := next;
      }
    }
  }

  const DEFAULT_SYMBOL: seq<Byte> := [76, 79, 66]

  /** A command that decodes starts with its own opcode. */
  lemma {:induction false} OpcodeFirst(data: seq<Byte>)
    ensures Decoded(data).Some? ==> data != [] && data[0] == Opcode(Decoded(data).value)
  {
    if Decoded(data).Some? { EncodingSplits(data, Decoded(data).value); }
  }
}
