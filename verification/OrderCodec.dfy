/** The encoders and decoders of the order protocol. */
module OrderCodec {
  import opened Bytes
  import opened BookSpec
  import opened WireBuffer
  import opened OrderProtocol
  import opened ResultProtocol
  import opened R = RaftTypes

  // ----- writing commands -----

  /** Writes the fields of a command behind what is written already. */
  method PutBody(buf: seq<Byte>, off: nat, c: Command) returns (out: seq<Byte>)
    requires off <= |buf| == off + |Body(c)|
    ensures out == buf[..off] + Body(c)
  {
    hide LE;
    var next;
    out, next := PutLE(buf, off, c.id, 8);
    match c
    case New(id, side, price, quantity) =>
      out, next := PutU8(out, next, SideByte(side));
      out, next := PutI64(out, next, price);
      out, next := PutI64(out, next, quantity);
      assert out == out[..next];
    case Cancel(id) =>
      assert out == out[..next];
    case Modify(id, price, quantity) =>
      out, next := PutI64(out, next, price);
      out, next := PutI64(out, next, quantity);
      assert out == out[..next];
  }

  method EncodeCommand(c: Command) returns (out: seq<Byte>)
    ensures out == Encode(c)
  {
    hide Body;
    out := seq(1 + |Body(c)|, _ => 0);
    var next;
    out, next := PutU8(out, 0, Opcode(c));
    out := PutBody(out, next, c);
  }

  method EncodeShardedCommand(symbol: seq<Byte>, c: Command) returns (out: seq<Byte>)
    ensures out == EncodeSharded(symbol, c)
  {
    hide Body;
    hide LE;
    out := seq(1 + 4 + |symbol| + |Body(c)|, _ => 0);
    var next;
    out, next := PutU8(out, 0, Opcode(c) + SHARDED);
    out, next := PutStr(out, next, symbol);
    Associative([Opcode(c) + SHARDED], LE(|symbol|, 4) + symbol, Body(c));
    out := PutBody(out, next, c);
  }

  // ----- reading commands -----

  /** Reads the fields of a command with this opcode. */
  method GetBody(data: seq<Byte>, off: nat, op: Byte) returns (r: Option<Command>)
    requires off <= |data| && op in {OP_NEW, OP_CXL, OP_MOD}
    ensures r.Some? ==> Opcode(r.value) == op && Stands(data, off, Body(r.value))
    ensures r.None? ==> forall c :: Opcode(c) == op ==> !Stands(data, off, Body(c))
  {
    if op == OP_NEW {
      r := GetNew(data, off);
    } else if op == OP_CXL {
      var ok, next, id := GetU64(data, off);
      r := if ok then Some(Cancel(id)) else None;
    } else {
      r := GetModify(data, off);
    }
  }

  lemma {:induction false} NewNeeds(data: seq<Byte>, off: nat)
    ensures forall c: Command :: c.New? && Stands(data, off, Body(c)) ==> off + 25 <= |data| && data[off + 8] <= 1
  {
    forall c: Command | c.New? && Stands(data, off, Body(c)) ensures off + 25 <= |data| && data[off + 8] <= 1 {
      NewFields(data, off, c);
      assert data[off + 8] == SideByte(c.side);
    }
  }

  method GetNew(data: seq<Byte>, off: nat) returns (r: Option<Command>)
    requires off <= |data|
    ensures r.Some? ==> r.value.New? && Stands(data, off, Body(r.value))
    ensures r.None? ==> forall c: Command :: c.New? ==> !Stands(data, off, Body(c))
  {
    NewNeeds(data, off);
    hide Body;
    hide LE;
    r := None;
    var ok, next, id := GetU64(data, off);
    if !ok { return; }
    var s;
    ok, next, s := GetU8(data, next);
    if !ok || s > 1 { return; }
    var side := if s == 0 then Buy else Sell;
    var price, quantity;
    ok, next, price := GetI64(data, next);
    if !ok { return; }
    ok, next, quantity := GetI64(data, next);
    if !ok { return; }
    var c := New(id, side, price, quantity);
    StandsByte(data, off + 8, SideByte(side));
    NewFields(data, off, c);
    r := Some(c);
  }

  method GetModify(data: seq<Byte>, off: nat) returns (r: Option<Command>)
    requires off <= |data|
    ensures r.Some? ==> r.value.Modify? && Stands(data, off, Body(r.value))
    ensures r.None? ==> forall c: Command :: c.Modify? ==> !Stands(data, off, Body(c))
  {
    assert forall c: Command :: c.Modify? && Stands(data, off, Body(c)) ==> off + 24 <= |data|;
    hide Body;
    r := None;
    var ok, next, id := GetU64(data, off);
    if !ok { return; }
    var price, quantity;
    ok, next, price := GetI64(data, next);
    if !ok { return; }
    ok, next, quantity := GetI64(data, next);
    if !ok { return; }
    var c := Modify(id, price, quantity);
    ModifyFields(data, off, c);
    r := Some(c);
  }

  /** What the decoder of one opcode must say: the command `data` starts with, if it is of that kind. */
  ghost function DecodedAs(data: seq<Byte>, op: Byte): Option<Command> {
    var d := Decoded(data);
    if d.Some? && Opcode(d.value) == op then d else None
  }

  /** The decoders of NEW, CXL and MOD: they check their opcode and read their fields. */
  method DecodeCommand(data: seq<Byte>, op: Byte) returns (r: Option<Command>)
    requires op in {OP_NEW, OP_CXL, OP_MOD}
    ensures r == DecodedAs(data, op)
  {
    hide Stands;
    hide Encode;
    hide Body;
    forall c ensures Stands(data, 0, Encode(c)) <==> data != [] && data[0] == Opcode(c) && Stands(data, 1, Body(c)) {
      EncodingSplits(data, c);
    }
    var ok, next, found := GetU8(data, 0);
    if !ok || found != op { return None; }
    r := GetBody(data, next, op);
    if r.Some? { DecodedIs(data, r.value); }
  }

  ghost function DecodedShardedAs(data: seq<Byte>, op: Byte): Option<(seq<Byte>, Command)> {
    var d := DecodedSharded(data);
    if d.Some? && Opcode(d.value.1) == op then d else None
  }

  /** What a sharded command of this kind needs in front. */
  lemma {:induction false} ShardedNeeds(data: seq<Byte>, op: Byte, s: seq<Byte>, c: Command)
    requires StartsWith(data, s, c) && Opcode(c) == op
    ensures |s| < U32 && data != [] && data[0] == op + SHARDED && Stands(data, 1, LE(|s|, 4) + s) && Stands(data, 5 + |s|, Body(c))
  {
    ShardedSplits(data, s, c);
  }

  method ReadSharded(data: seq<Byte>, op: Byte) returns (ok: bool, symbol: seq<Byte>, c: Command)
    requires op in {OP_NEW, OP_CXL, OP_MOD}
    ensures ok ==> StartsWith(data, symbol, c) && Opcode(c) == op
    ensures !ok ==> forall s, d :: Opcode(d) == op ==> !StartsWith(data, s, d)
  {
    hide *;
    forall s, d | Opcode(d) == op && StartsWith(data, s, d)
      ensures |s| < U32 && data != [] && data[0] == op + SHARDED && Stands(data, 1, LE(|s|, 4) + s) && Stands(data, 5 + |s|, Body(d)) {
      ShardedNeeds(data, op, s, d);
    }
    ok, symbol, c := false, [], Cancel(0);
    var got, next, found := GetU8(data, 0);
    if !got || found != op + SHARDED { return; }
    got, next, symbol := GetStr(data, next);
    if !got { return; }
    forall s: seq<Byte> | |s| < U32 && Stands(data, 1, LE(|s|, 4) + s) ensures s == symbol {
      SymbolUnique(data, 1, s, symbol);
    }
    var r := GetBody(data, next, op);
    if r.Some? {
      ok, c := true, r.value;
      ShardedStarts(data, symbol, c);
    }
  }

  lemma {:induction false} ShardedStarts(data: seq<Byte>, s: seq<Byte>, c: Command)
    requires data != [] && data[0] == Opcode(c) + SHARDED && |s| < U32
    requires Stands(data, 1, LE(|s|, 4) + s) && Stands(data, 5 + |s|, Body(c))
    ensures StartsWith(data, s, c)
  {
    ShardedSplits(data, s, c);
  }

  /** The sharded decoders: opcode, symbol, fields. */
  method DecodeShardedCommand(data: seq<Byte>, op: Byte) returns (r: Option<(seq<Byte>, Command)>)
    requires op in {OP_NEW, OP_CXL, OP_MOD}
    ensures r == DecodedShardedAs(data, op)
  {
    var ok, symbol, c := ReadSharded(data, op);
    if ok { DecodedShardedIs(data, symbol, c); }
    hide StartsWith;
    r := if ok then Some((symbol, c)) else None;
  }

  // ----- results -----

  method PutFill(buf: seq<Byte>, off: nat, f: Fill) returns (out: seq<Byte>, next: nat)
    requires off + 33 <= |buf|
    ensures next == off + 33 && |out| == |buf| && out[..next] == buf[..off] + FillBytes(ToWire(f))
  {
    UnsignRoundTrip(ToU64(f.quantity));
    hide LE;
    hide ToU64;
    out, next := PutLE(buf, off, f.maker, 8);
    out, next := PutLE(out, next, f.taker, 8);
    out, next := PutI64(out, next, f.price);
    out, next := PutI64(out, next, f.quantity);
    out, next := PutU8(out, next, SideByte(f.takerSide));
  }

  method EncodeNewResult(fills: seq<Fill>, rested: bool, remaining: int) returns (out: seq<Byte>)
    ensures out == EncodeResult(fills, rested, remaining)
  {
    UnsignRoundTrip(ToU64(remaining));
    hide LE;
    hide ToU64;
    hide FillBytes;
    ghost var ws := ToWires(fills);
    var size := 1 + 4 + |fills| * 33 + 1 + 8;
    out := seq(size, _ => 0);
    var next;
    out, next := PutU8(out, 0, 1);
    out, next := PutLE(out, next, |fills|, 4);
    ghost var head := [1] + LE(|fills|, 4);
    for i := 0 to |fills|
      invariant next == 5 + 33 * i && |out| == size && out[..next] == head + FillsBytes(ws[..i])
    {
      assert ws[..i + 1][..i] == ws[..i] && ws[..i + 1][i] == ToWire(fills[i]);
      out, next := PutFill(out, next, fills[i]);
    }
    assert ws[..|fills|] == ws;
    out, next := PutU8(out, next, if rested then 1 else 0);
    out, next := PutI64(out, next, remaining);
    assert out == out[..next];
  }

  method GetFill(data: seq<Byte>, off: nat) returns (ok: bool, next: nat, f: WireFill)
    requires off <= |data|
    ensures ok == (off + 33 <= |data|)
    ensures ok ==> next == off + 33 && Stands(data, off, FillBytes(f))
  {
    ok, next, f := false, off, WireFill(0, 0, 0, 0, 0);
    var got, maker, taker, price, quantity, side;
    got, next, maker := GetU64(data, off);
    if !got { return; }
    got, next, taker := GetU64(data, next);
    if !got { return; }
    got, next, price := GetI64(data, next);
    if !got { return; }
    got, next, quantity := GetI64(data, next);
    if !got { return; }
    got, next, side := GetU8(data, next);
    if !got { return; }
    ok, f := true, WireFill(maker, taker, price, quantity, side);
    FillSplits(data, off, f);
  }

  method DecodeNewResult(data: seq<Byte>) returns (r: Option<Reply>)
    ensures r == DecodedResult(data)
  {
    r := ReadReply(data);
    if r.Some? { DecodedResultIs(data, r.value); }
  }

  method ReadReply(data: seq<Byte>) returns (r: Option<Reply>)
    ensures r.Some? ==> Reads(data, r.value)
    ensures r.None? ==> forall q :: !Reads(data, q)
  {
    forall status, rested, q ensures Stands(data, 0, Layout(status, rested, q)) ==>
        14 + 33 * |q.fills| <= |data| && data[0] == status && Stands(data, 1, LE(|q.fills|, 4)) {
      LayoutSplits(data, status, rested, q);
    }
    hide Layout;
    hide Stands;
    hide LE;
    r := None;
    var ok, next, status := GetU8(data, 0);
    if !ok || status == 0 { return; }
    var count;
    ok, next, count := GetLE(data, next, 4);
    if !ok { return; }
    PowersOf256();
    forall q: Reply | |q.fills| < U32 && Stands(data, 1, LE(|q.fills|, 4)) ensures |q.fills| == count {
      SameCount(data, |q.fills|, count);
    }
    r := ReadFills(data, status, count);
  }

  method ReadFills(data: seq<Byte>, status: Byte, count: nat) returns (r: Option<Reply>)
    requires 5 <= |data| && status == data[0] != 0 && count < U32 && Stands(data, 1, LE(count, 4))
    ensures r.Some? ==> Reads(data, r.value)
    ensures r.None? ==> |data| < 14 + 33 * count
  {
    hide Layout;
    hide LE;
    hide FillBytes;
    r := None;
    var next, fills: seq<WireFill> := 5, [];
    for i := 0 to count
      invariant |fills| == i && next == 5 + 33 * i <= |data| && Stands(data, 5, FillsBytes(fills))
    {
      var ok, f;
      ok, next, f := GetFill(data, next);
      if !ok { return; }
      StandsSplit(data, 5, FillsBytes(fills), FillBytes(f));
      assert (fills + [f])[..i] == fills;
      fills := fills + [f];
    }
    var ok, flag, remaining;
    ok, next, flag := GetU8(data, next);
    if !ok { return; }
    ok, next, remaining := GetI64(data, next);
    if !ok { return; }
    var q := Reply(fills, flag != 0, remaining);
    LayoutSplits(data, status, flag, q);
    assert Stands(data, 0, Layout(status, flag, q));
    r := Some(q);
  }

  method DecodeSimpleResult(data: seq<Byte>) returns (r: Option<bool>)
    ensures r.None? <==> data == []
    ensures r == Some(false) <==> data != [] && data[0] == 0
    ensures forall ok, tail :: data == EncodeSimple(ok) + tail ==> r == Some(ok)
  {
    r := if |data| < 1 then None else Some(data[0] != 0);
  }
}
