/** The replicated matching engine as a value: a sequence counter and an order book, driven by
    command bytes, written to and read from snapshots. */
module LobSpec {
  import opened Bytes
  import opened BookSpec
  import opened BookMatching
  import opened OrderProtocol
  import opened ResultProtocol
  import B = BookSpec

  datatype Machine = Machine(nextSeq: UInt64, book: Book)

  function EmptyBook(symbol: seq<Byte>): Book { Book(symbol, map[], map[], map[]) }

  // ----- apply -----

  /** The reply bytes and the book after one decoded command. */
  ghost function Execute(b: Book, c: Command, sequence: UInt64): (seq<Byte>, Book) {
    match c
    case New(id, side, price, quantity) =>
      if quantity <= 0 || id in b.index then (EncodeSimple(false), b)
      else
        var (fills, b') := NewOrder(b, id, side, price, quantity, sequence);
        var remaining := quantity - FillTotal(fills);
        (EncodeResult(fills, remaining > 0, remaining), b')
    case Cancel(id) => (EncodeSimple(id in b.index), B.Cancel(b, id))
    case Modify(id, price, quantity) => (EncodeSimple(id in b.index), B.Modify(b, id, price, quantity, sequence))
  }

  /** Every non-empty command consumes a sequence number, also one that does not decode. */
  ghost function Apply(s: Machine, data: seq<Byte>): (seq<Byte>, Machine) {
    if data == [] then (EncodeSimple(false), s)
    else
      var next := (s.nextSeq + 1) % U64;
      match Decoded(data)
      case None => (EncodeSimple(false), Machine(next, s.book))
      case Some(c) =>
        var (reply, book) := Execute(s.book, c, s.nextSeq);
        (reply, Machine(next, book))
  }

  /** The replies to a sequence of commands, and the machine afterwards. */
  ghost function ApplyAll(s: Machine, commands: seq<seq<Byte>>): (seq<seq<Byte>>, Machine) {
    if commands == [] then ([], s)
    else
      var last := |commands| - 1;
      var (replies, s1) := ApplyAll(s, commands[..last]);
      var (reply, s2) := Apply(s1, commands[last]);
      (replies + [reply], s2)
  }

  // ----- snapshots -----

  const ORDER_SIZE: nat := 33

  /** [id:8][side:1][price:8][quantity:8][sequence:8] */
  function OrderBytes(o: Order): (bs: seq<Byte>)
    ensures |bs| == ORDER_SIZE
  {
    LE(o.id, 8) + ([SideByte(o.side)] + (LE(ToU64(o.price), 8) + (LE(ToU64(o.quantity), 8) + LE(o.sequence, 8))))
  }

  function OrdersBytes(os: seq<Order>): (bs: seq<Byte>)
    ensures |bs| == ORDER_SIZE * |os|
  {
    if os == [] then [] else OrderBytes(os[0]) + OrdersBytes(os[1..])
  }

  function SnapshotOf(nextSeq: UInt64, symbol: seq<Byte>, orders: seq<Order>): seq<Byte> {
    LE(nextSeq, 8) + ((LE(|symbol|, 4) + symbol) + (LE(|orders|, 4) + OrdersBytes(orders)))
  }

  ghost function Snapshot(s: Machine): seq<Byte> { SnapshotOf(s.nextSeq, s.book.symbol, AllOrders(s.book)) }

  function Number(data: seq<Byte>, off: nat): (v: UInt64)
    requires off + 8 <= |data|
  {
    UnLERoundTrip(data[off..off + 8]);
    PowersOf256();
    UnLE(data[off..off + 8])
  }

  function Count(data: seq<Byte>, off: nat): nat
    requires off + 4 <= |data|
  {
    UnLE(data[off..off + 4])
  }

  function OrderAt(data: seq<Byte>, off: nat): Order
    requires off + ORDER_SIZE <= |data|
  {
    Order(Number(data, off), if data[off + 8] == 0 then Buy else Sell, ToI64(Number(data, off + 9)),
          ToI64(Number(data, off + 17)), Number(data, off + 25))
  }

  /** Adds up to n orders, and stops at the first that is cut off or names no side. */
  function RestoreOrders(b: Book, data: seq<Byte>, off: nat, n: nat): Book
    decreases n
  {
    if n == 0 || off + ORDER_SIZE > |data| || data[off + 8] > 1 then b
    else RestoreOrders(AddResting(b, OrderAt(data, off)), data, off + ORDER_SIZE, n - 1)
  }

  /** A snapshot that breaks off early leaves the book as it is, or with the orders read so far. */
  function Restore(s: Machine, data: seq<Byte>): Machine {
    if |data| < 8 then s
    else
      var seqOnly := s.(nextSeq := Number(data, 0));
      if |data| < 12 || 12 + Count(data, 8) + 4 > |data| then seqOnly
      else
        var len := Count(data, 8);
        seqOnly.(book := RestoreOrders(EmptyBook(data[12..12 + len]), data, 16 + len, Count(data, 12 + len)))
  }
}
