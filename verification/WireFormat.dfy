/** The bytes on the wire and in snapshots, spelled out: opcodes, side bytes, status bytes, and the offset
    of every field. */
module WireFormat {
  import opened Bytes
  import opened RaftTypes
  import opened BookSpec
  import opened WireBuffer
  import opened OrderProtocol
  import opened ResultProtocol

  // ----- numbers -----

  /** Byte i of a number counts the 256^i. */
  lemma {:induction false} LittleEndian(v: nat, n: nat, i: nat)
    requires i < n
    ensures LE(v, n)[i] == v / Pow256(i) % 256
    decreases n
  {
    if i > 0 {
      LittleEndian(v / 256, n - 1, i - 1);
      DivTwice(v, Pow256(i - 1));
    }
  }

  lemma {:induction false} DivTwice(v: nat, p: nat)
    requires p >= 1
    ensures v / 256 / p == v / (256 * p)
  {
    var q, r := v / 256 / p, v / 256 % p;
    assert v == 256 * (q * p + r) + v % 256;
    assert v == q * (256 * p) + (256 * r + v % 256);
    assert 0 <= 256 * r + v % 256 < 256 * p;
    QuotientIs(v, 256 * p, q, 256 * r + v % 256);
  }

  lemma {:induction false} QuotientIs(v: nat, d: nat, q: nat, r: nat)
    requires d >= 1 && v == q * d + r && r < d
    ensures v / d == q
  {
    var k := v / d - q;
    assert k * d == r - v % d;
    assert k >= 1 ==> k * d >= d;
    assert k <= -1 ==> k * d + d <= 0;
  }

  /** Fields written one behind the other, whichever way they are grouped. */
  lemma {:induction false} Grouped<T>(a: seq<T>, b: seq<T>, c: seq<T>, d: seq<T>, e: seq<T>)
    ensures a + b + c + d + e == a + (b + (c + d)) + e
  {
    Associative(a + b, c, d);
    Associative(a, b, c + d);
  }

  /** Prices and quantities are in two's complement. */
  lemma {:induction false} TwosComplement(x: Int64)
    ensures ToU64(x) == if x >= 0 then x else x + 0x1_0000_0000_0000_0000
  {
  }

  // ----- commands -----

  lemma {:induction false} CancelBytes(id: UInt64, tail: seq<Byte>)
    ensures Decoded([0x11] + LE(id, 8) + tail) == Some(Cancel(id))
  {
    CommandRoundTrip(Cancel(id), tail);
  }

  lemma {:induction false} NewBytes(id: UInt64, side: Side, price: Int64, quantity: Int64, tail: seq<Byte>)
    ensures var s: Byte := if side == Buy then 0 else 1;
            Decoded([0x10] + LE(id, 8) + [s] + LE(ToU64(price), 8) + LE(ToU64(quantity), 8) + tail)
            == Some(New(id, side, price, quantity))
  {
    var s: Byte := if side == Buy then 0 else 1;
    var i, p, q := LE(id, 8), LE(ToU64(price), 8), LE(ToU64(quantity), 8);
    CommandRoundTrip(New(id, side, price, quantity), tail);
    hide LE;
    hide Decoded;
    Grouped([0x10] + i, [s], p, q, tail);
    Associative([0x10], i, [s] + (p + q));
  }

  lemma {:induction false} ModifyBytes(id: UInt64, price: Int64, quantity: Int64, tail: seq<Byte>)
    ensures Decoded([0x12] + LE(id, 8) + LE(ToU64(price), 8) + LE(ToU64(quantity), 8) + tail)
            == Some(Modify(id, price, quantity))
  {
    var i, p, q := LE(id, 8), LE(ToU64(price), 8), LE(ToU64(quantity), 8);
    CommandRoundTrip(Modify(id, price, quantity), tail);
    hide LE;
    hide Decoded;
    Grouped([0x12], i, p, q, tail);
  }

  /** Which bytes are a command at all: an opcode, enough behind it, and a side that exists. */
  predicate WellFormed(data: seq<Byte>) {
    || (|data| >= 9 && data[0] == 0x11)
    || (|data| >= 26 && data[0] == 0x10 && data[9] <= 1)
    || (|data| >= 25 && data[0] == 0x12)
  }

  lemma {:induction false} NumberStands(data: seq<Byte>, off: nat) returns (v: UInt64)
    requires off + 8 <= |data|
    ensures Stands(data, off, LE(v, 8))
  {
    UnLERoundTrip(data[off..off + 8]);
    PowersOf256();
    v := UnLE(data[off..off + 8]);
  }

  lemma {:induction false} SignedStands(data: seq<Byte>, off: nat) returns (x: Int64)
    requires off + 8 <= |data|
    ensures Stands(data, off, LE(ToU64(x), 8))
  {
    var v := NumberStands(data, off);
    x := ToI64(v);
    UnsignRoundTrip(v);
  }

  /** Enough bytes for the fields behind a plain opcode, and a side that exists. */
  predicate HasFields(data: seq<Byte>, off: nat, op: Byte) {
    || (op == 0x11 && off + 8 <= |data|)
    || (op == 0x10 && off + 25 <= |data| && data[off + 8] <= 1)
    || (op == 0x12 && off + 24 <= |data|)
  }

  lemma {:induction false} FieldsRead(data: seq<Byte>, off: nat, op: Byte) returns (c: Command)
    requires HasFields(data, off, op)
    ensures Opcode(c) == op && Stands(data, off, Body(c))
  {
    hide LE;
    hide ToU64;
    var id := NumberStands(data, off);
    if op == 0x11 {
      c := Cancel(id);
    } else if op == 0x10 {
      var price := SignedStands(data, off + 9);
      var quantity := SignedStands(data, off + 17);
      c := New(id, if data[off + 8] == 0 then Buy else Sell, price, quantity);
      StandsByte(data, off + 8, data[off + 8]);
      NewFields(data, off, c);
    } else {
      var price := SignedStands(data, off + 8);
      var quantity := SignedStands(data, off + 16);
      c := Modify(id, price, quantity);
      ModifyFields(data, off, c);
    }
  }

  lemma {:induction false} FieldsAreThere(data: seq<Byte>, off: nat, c: Command)
    requires Stands(data, off, Body(c))
    ensures HasFields(data, off, Opcode(c))
  {
    if c.New? { NewFields(data, off, c); }
  }

  lemma {:induction false} WellFormedReads(data: seq<Byte>) returns (c: Command)
    requires WellFormed(data)
    ensures Stands(data, 0, Encode(c))
  {
    c := FieldsRead(data, 1, data[0]);
    hide Stands;
    EncodingSplits(data, c);
  }

  lemma {:induction false} CommandsAreWellFormed(data: seq<Byte>, c: Command)
    requires Stands(data, 0, Encode(c))
    ensures WellFormed(data)
  {
    EncodingSplits(data, c);
    hide Stands;
    FieldsAreThere(data, 1, c);
  }

  /** Bytes decode exactly when they are well-formed. */
  lemma {:induction false} DecodesExactlyWhen(data: seq<Byte>)
    ensures Decoded(data).Some? <==> WellFormed(data)
  {
    if WellFormed(data) {
      var c := WellFormedReads(data);
      DecodedIs(data, c);
    }
    if Decoded(data).Some? { CommandsAreWellFormed(data, Decoded(data).value); }
  }

  // ----- sharded commands -----

  lemma {:induction false} ShardedCancelBytes(symbol: seq<Byte>, id: UInt64, tail: seq<Byte>)
    requires |symbol| < U32
    ensures DecodedSharded([0x21] + LE(|symbol|, 4) + symbol + LE(id, 8) + tail) == Some((symbol, Cancel(id)))
  {
    var data := [0x21] + LE(|symbol|, 4) + symbol + LE(id, 8) + tail;
    assert data == EncodeSharded(symbol, Cancel(id)) + tail;
    ShardedStarts(symbol, Cancel(id), tail);
  }

  lemma {:induction false} ShardedNewBytes(symbol: seq<Byte>, id: UInt64, side: Side, price: Int64, quantity: Int64, tail: seq<Byte>)
    requires |symbol| < U32
    ensures var s: Byte := if side == Buy then 0 else 1;
            DecodedSharded([0x20] + LE(|symbol|, 4) + symbol + LE(id, 8) + [s] + LE(ToU64(price), 8) + LE(ToU64(quantity), 8) + tail)
            == Some((symbol, New(id, side, price, quantity)))
  {
    var s: Byte := if side == Buy then 0 else 1;
    var n, i, p, q := LE(|symbol|, 4), LE(id, 8), LE(ToU64(price), 8), LE(ToU64(quantity), 8);
    ShardedStarts(symbol, New(id, side, price, quantity), tail);
    hide LE;
    hide DecodedSharded;
    Grouped([0x20] + n + symbol + i, [s], p, q, tail);
    Associative([0x20] + n + symbol, i, [s] + (p + q));
    Associative([0x20], n, symbol);
    Associative([0x20], n + symbol, i + ([s] + (p + q)));
  }

  lemma {:induction false} ShardedModifyBytes(symbol: seq<Byte>, id: UInt64, price: Int64, quantity: Int64, tail: seq<Byte>)
    requires |symbol| < U32
    ensures DecodedSharded([0x22] + LE(|symbol|, 4) + symbol + LE(id, 8) + LE(ToU64(price), 8) + LE(ToU64(quantity), 8) + tail)
            == Some((symbol, Modify(id, price, quantity)))
  {
    var n, i, p, q := LE(|symbol|, 4), LE(id, 8), LE(ToU64(price), 8), LE(ToU64(quantity), 8);
    ShardedStarts(symbol, Modify(id, price, quantity), tail);
    hide LE;
    hide DecodedSharded;
    Grouped([0x22] + n + symbol, i, p, q, tail);
    Associative([0x22], n, symbol);
    Associative([0x22], n + symbol, i + (p + q));
  }

  lemma {:induction false} ShardedStarts(symbol: seq<Byte>, c: Command, tail: seq<Byte>)
    requires |symbol| < U32
    ensures DecodedSharded(EncodeSharded(symbol, c) + tail) == Some((symbol, c))
  {
    var bs := EncodeSharded(symbol, c);
    assert (bs + tail)[0..|bs|] == bs;
    DecodedShardedIs(bs + tail, symbol, c);
  }

  /** Which bytes are a sharded command: opcode, length, symbol, and the fields behind them. */
  predicate ShardedWellFormed(data: seq<Byte>) {
    && |data| >= 5 && 0x20 <= data[0] <= 0x22 && 5 + UnLE(data[1..5]) <= |data|
    && HasFields(data, 5 + UnLE(data[1..5]), data[0] - 0x10)
  }

  lemma {:induction false} ShardedReads(data: seq<Byte>) returns (symbol: seq<Byte>, c: Command)
    requires ShardedWellFormed(data)
    ensures StartsWith(data, symbol, c)
  {
    var n := UnLE(data[1..5]);
    UnLERoundTrip(data[1..5]);
    PowersOf256();
    symbol := data[5..5 + n];
    c := FieldsRead(data, 5 + n, data[0] - 0x10);
    assert Stands(data, 1, LE(n, 4)) && Stands(data, 5, symbol);
    StandsSplit(data, 1, LE(n, 4), symbol);
    hide Stands;
    hide LE;
    ShardedSplits(data, symbol, c);
  }

  lemma {:induction false} ShardedAreWellFormed(data: seq<Byte>, symbol: seq<Byte>, c: Command)
    requires StartsWith(data, symbol, c)
    ensures ShardedWellFormed(data)
  {
    ShardedSplits(data, symbol, c);
    StandsSplit(data, 1, LE(|symbol|, 4), symbol);
    PowersOf256();
    LERoundTrip(|symbol|, 4);
    assert UnLE(data[1..5]) == |symbol|;
    FieldsAreThere(data, 5 + |symbol|, c);
  }

  /** Bytes are read as a sharded command exactly when they are well-formed. */
  lemma {:induction false} ShardedDecodesExactlyWhen(data: seq<Byte>)
    ensures DecodedSharded(data).Some? <==> ShardedWellFormed(data)
  {
    hide ShardedWellFormed;
    hide StartsWith;
    if ShardedWellFormed(data) {
      var symbol, c := ShardedReads(data);
      DecodedShardedIs(data, symbol, c);
    }
    if DecodedSharded(data).Some? {
      var (symbol, c) := DecodedSharded(data).value;
      ShardedAreWellFormed(data, symbol, c);
    }
  }

  // ----- results -----

  lemma {:induction false} SimpleBytes()
    ensures EncodeSimple(true) == [1] && EncodeSimple(false) == [0]
  {
  }

  /** Fill i of a result stands 33 bytes behind the one before it. */
  lemma {:induction false} FillStands(data: seq<Byte>, off: nat, fs: seq<WireFill>, i: nat)
    requires Stands(data, off, FillsBytes(fs)) && i < |fs|
    ensures Stands(data, off + 33 * i, FillBytes(fs[i]))
    decreases |fs|
  {
    hide FillBytes;
    var n := |fs| - 1;
    StandsSplit(data, off, FillsBytes(fs[..n]), FillBytes(fs[n]));
    hide Stands;
    if i < n { FillStands(data, off, fs[..n], i); }
  }

  /** The result of an accepted NEW, field by field. */
  lemma {:induction false} ResultBytes(fills: seq<Fill>, rested: bool, remaining: int)
    ensures var bs, n := EncodeResult(fills, rested, remaining), |fills|;
            && |bs| == 14 + 33 * n && bs[0] == 1 && Stands(bs, 1, LE(n, 4))
            && bs[5 + 33 * n] == (if rested then 1 else 0)
            && Stands(bs, 6 + 33 * n, LE(ToU64(remaining), 8))
  {
    var r := Reply(ToWires(fills), rested, ToI64(ToU64(remaining)));
    var flag: Byte := if rested then 1 else 0;
    var bs, n := EncodeResult(fills, rested, remaining), |fills|;
    UnsignRoundTrip(ToU64(remaining));
    var head, body, last := [1] + LE(n, 4), FillsBytes(r.fills), [flag] + LE(ToU64(remaining), 8);
    assert bs == head + (body + last);
    hide LE;
    hide FillsBytes;
    assert bs[1..5] == LE(n, 4) && bs[5 + 33 * n] == last[0];
    assert bs[6 + 33 * n..14 + 33 * n] == last[1..9] == LE(ToU64(remaining), 8);
  }

  lemma {:induction false} MiddleStands(head: seq<Byte>, body: seq<Byte>, last: seq<Byte>)
    ensures Stands(head + (body + last), |head|, body)
  {
    assert (head + (body + last))[|head|..|head| + |body|] == body;
  }

  /** A fill in it: maker, taker, price, quantity, and the taker's side. */
  lemma {:induction false} ResultFillBytes(fills: seq<Fill>, rested: bool, remaining: int, i: nat)
    requires i < |fills|
    ensures var bs, at, f := EncodeResult(fills, rested, remaining), 5 + 33 * i, fills[i];
            && Stands(bs, at, LE(f.maker, 8)) && Stands(bs, at + 8, LE(f.taker, 8)) && Stands(bs, at + 16, LE(ToU64(f.price), 8))
            && Stands(bs, at + 24, LE(ToU64(f.quantity), 8)) && Stands(bs, at + 32, [if f.takerSide == Buy then 0 else 1])
  {
    hide LE;
    hide FillsBytes;
    hide FillBytes;
    hide Stands;
    hide ToU64;
    var r := Reply(ToWires(fills), rested, ToI64(ToU64(remaining)));
    var flag: Byte := if rested then 1 else 0;
    var bs := EncodeResult(fills, rested, remaining);
    MiddleStands([1] + LE(|fills|, 4), FillsBytes(r.fills), [flag] + LE(ToU64(r.remaining), 8));
    hide EncodeResult;
    FillStands(bs, 5, r.fills, i);
    FillSplits(bs, 5 + 33 * i, r.fills[i]);
    UnsignRoundTrip(ToU64(fills[i].quantity));
  }

  // ----- reading a result -----

  lemma {:induction false} FillIsThere(data: seq<Byte>, off: nat) returns (f: WireFill)
    requires off + 33 <= |data|
    ensures Stands(data, off, FillBytes(f))
  {
    hide LE;
    hide ToU64;
    var maker := NumberStands(data, off);
    var taker := NumberStands(data, off + 8);
    var price := SignedStands(data, off + 16);
    var quantity := SignedStands(data, off + 24);
    f := WireFill(maker, taker, price, quantity, data[off + 32]);
    StandsByte(data, off + 32, data[off + 32]);
    hide Stands;
    FillSplits(data, off, f);
  }

  lemma {:induction false} FillsAreThere(data: seq<Byte>, off: nat, n: nat) returns (fs: seq<WireFill>)
    requires off + 33 * n <= |data|
    ensures |fs| == n && Stands(data, off, FillsBytes(fs))
  {
    hide FillBytes;
    fs := [];
    if n > 0 {
      var front := FillsAreThere(data, off, n - 1);
      var last := FillIsThere(data, off + 33 * (n - 1));
      fs := front + [last];
      assert fs[..n - 1] == front;
      StandsSplit(data, off, FillsBytes(front), FillBytes(last));
    }
  }

  /** Which bytes are a result: any status but 0, and all of the fills that are announced. */
  predicate ResultWellFormed(data: seq<Byte>) {
    |data| >= 14 && data[0] != 0 && 14 + 33 * UnLE(data[1..5]) <= |data|
  }

  lemma {:induction false} ResultReads(data: seq<Byte>) returns (r: Reply)
    requires ResultWellFormed(data)
    ensures Reads(data, r)
  {
    var n := UnLE(data[1..5]);
    UnLERoundTrip(data[1..5]);
    PowersOf256();
    var end := 5 + 33 * n;
    var fs := FillsAreThere(data, 5, n);
    var remaining := SignedStands(data, end + 1);
    r := Reply(fs, data[end] != 0, remaining);
    assert Stands(data, 1, LE(n, 4));
    StandsByte(data, 0, data[0]);
    StandsByte(data, end, data[end]);
    hide Stands;
    hide Layout;
    hide LE;
    LayoutSplits(data, data[0], data[end], r);
  }

  lemma {:induction false} ResultsAreWellFormed(data: seq<Byte>, r: Reply)
    requires Reads(data, r)
    ensures ResultWellFormed(data)
  {
    hide Layout;
    hide FillsBytes;
    var status: Byte, rested: Byte :| status != 0 && r.rested == (rested != 0) && Stands(data, 0, Layout(status, rested, r));
    LayoutSplits(data, status, rested, r);
    PowersOf256();
    LERoundTrip(|r.fills|, 4);
    StandsByte(data, 0, status);
    assert data[1..5] == LE(|r.fills|, 4);
  }

  /** Bytes are read as a result exactly when they are well-formed. */
  lemma {:induction false} ResultDecodesExactlyWhen(data: seq<Byte>)
    ensures DecodedResult(data).Some? <==> ResultWellFormed(data)
  {
    hide ResultWellFormed;
    hide Reads;
    if ResultWellFormed(data) {
      var r := ResultReads(data);
      DecodedResultIs(data, r);
    }
    if DecodedResult(data).Some? { ResultsAreWellFormed(data, DecodedResult(data).value); }
  }
}
