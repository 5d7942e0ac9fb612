/** The order protocol: what bytes a command and a result are, and what bytes read back as. */
module OrderProtocol {
  import opened Bytes
  import opened BookSpec
  import opened WireBuffer
  import opened R = RaftTypes

  datatype Command =
    | New(id: UInt64, side: Side, price: Int64, quantity: Int64)
    | Cancel(id: UInt64)
    | Modify(id: UInt64, price: Int64, quantity: Int64)

  const OP_NEW: Byte := 0x10
  const OP_CXL: Byte := 0x11
  const OP_MOD: Byte := 0x12

  /** A sharded command's opcode is the plain one's plus this. */
  const SHARDED: Byte := 0x10

  function Opcode(c: Command): Byte {
    match c
    case New(_, _, _, _) => OP_NEW
    case Cancel(_) => OP_CXL
    case Modify(_, _, _) => OP_MOD
  }

  function SideByte(s: Side): Byte { if s == Buy then 0 else 1 }

  /** The fields behind the opcode, and behind the symbol of a sharded command. */
  function Body(c: Command): seq<Byte> {
    match c
    case New(id, side, price, quantity) => LE(id, 8) + ([SideByte(side)] + (LE(ToU64(price), 8) + LE(ToU64(quantity), 8)))
    case Cancel(id) => LE(id, 8)
    case Modify(id, price, quantity) => LE(id, 8) + (LE(ToU64(price), 8) + LE(ToU64(quantity), 8))
  }

  function Encode(c: Command): seq<Byte> { [Opcode(c)] + Body(c) }

  function EncodeSharded(symbol: seq<Byte>, c: Command): seq<Byte> {
    [Opcode(c) + SHARDED] + ((LE(|symbol|, 4) + symbol) + Body(c))
  }

  /** The command that `data` starts with; bytes behind it do not matter. */
  ghost function Decoded(data: seq<Byte>): Option<Command> {
    if exists c :: Stands(data, 0, Encode(c)) then
      var c :| Stands(data, 0, Encode(c)); Some(c)
    else None
  }

  ghost predicate StartsWith(data: seq<Byte>, symbol: seq<Byte>, c: Command) {
    |symbol| < U32 && Stands(data, 0, EncodeSharded(symbol, c))
  }

  ghost function DecodedSharded(data: seq<Byte>): Option<(seq<Byte>, Command)> {
    if exists s, c :: StartsWith(data, s, c) then
      var s, c :| StartsWith(data, s, c); Some((s, c))
    else None
  }

  // ----- reading is unique -----

  lemma {:induction false} SameNumber(data: seq<Byte>, off: nat, v: UInt64, w: UInt64)
    requires Stands(data, off, LE(v, 8)) && Stands(data, off, LE(w, 8))
    ensures v == w
  {
    PowersOf256();
    LEInjective(v, w, 8);
  }

  lemma {:induction false} SameSigned(data: seq<Byte>, off: nat, v: Int64, w: Int64)
    requires Stands(data, off, LE(ToU64(v), 8)) && Stands(data, off, LE(ToU64(w), 8))
    ensures v == w
  {
    SameNumber(data, off, ToU64(v), ToU64(w));
    SignRoundTrip(v);
    SignRoundTrip(w);
  }

  /** Where the fields of a NEW stand. */
  lemma {:induction false} NewFields(data: seq<Byte>, off: nat, c: Command)
    requires c.New?
    ensures Stands(data, off, Body(c)) <==>
              && Stands(data, off, LE(c.id, 8)) && Stands(data, off + 8, [SideByte(c.side)])
              && Stands(data, off + 9, LE(ToU64(c.price), 8)) && Stands(data, off + 17, LE(ToU64(c.quantity), 8))
  {
    var p, q := LE(ToU64(c.price), 8), LE(ToU64(c.quantity), 8);
    StandsSplit(data, off, LE(c.id, 8), [SideByte(c.side)] + (p + q));
    StandsSplit(data, off + 8, [SideByte(c.side)], p + q);
    StandsSplit(data, off + 9, p, q);
  }

  lemma {:induction false} ModifyFields(data: seq<Byte>, off: nat, c: Command)
    requires c.Modify?
    ensures Stands(data, off, Body(c)) <==>
              && Stands(data, off, LE(c.id, 8)) && Stands(data, off + 8, LE(ToU64(c.price), 8))
              && Stands(data, off + 16, LE(ToU64(c.quantity), 8))
  {
    var p, q := LE(ToU64(c.price), 8), LE(ToU64(c.quantity), 8);
    StandsSplit(data, off, LE(c.id, 8), p + q);
    StandsSplit(data, off + 8, p, q);
  }

  lemma {:induction false} BodyUnique(data: seq<Byte>, off: nat, c: Command, d: Command)
    requires Opcode(c) == Opcode(d) && Stands(data, off, Body(c)) && Stands(data, off, Body(d))
    ensures c == d
  {
    hide Stands;
    hide LE;
    hide ToU64;
    if c.New? {
      NewFields(data, off, c);
      NewFields(data, off, d);
      SameNumber(data, off, c.id, d.id);
      SameSigned(data, off + 9, c.price, d.price);
      SameSigned(data, off + 17, c.quantity, d.quantity);
      SameSide(data, off + 8, c.side, d.side);
    } else if c.Modify? {
      ModifyFields(data, off, c);
      ModifyFields(data, off, d);
      SameNumber(data, off, c.id, d.id);
      SameSigned(data, off + 8, c.price, d.price);
      SameSigned(data, off + 16, c.quantity, d.quantity);
    } else {
      SameNumber(data, off, c.id, d.id);
    }
  }

  lemma {:induction false} SameSide(data: seq<Byte>, off: nat, s: Side, t: Side)
    requires Stands(data, off, [SideByte(s)]) && Stands(data, off, [SideByte(t)])
    ensures s == t
  {
    assert data[off] == SideByte(s) && data[off] == SideByte(t);
  }

  lemma {:induction false} EncodingSplits(data: seq<Byte>, c: Command)
    ensures Stands(data, 0, Encode(c)) <==> data != [] && data[0] == Opcode(c) && Stands(data, 1, Body(c))
  {
    StandsByte(data, 0, Opcode(c));
    hide Stands;
    hide Body;
    StandsSplit(data, 0, [Opcode(c)], Body(c));
  }

  /** Bytes start with at most one command. */
  lemma {:induction false} DecodedIs(data: seq<Byte>, c: Command)
    requires Stands(data, 0, Encode(c))
    ensures Decoded(data) == Some(c)
  {
    hide Stands;
    hide Encode;
    var d := Decoded(data).value;
    EncodingSplits(data, c);
    EncodingSplits(data, d);
    BodyUnique(data, 1, c, d);
  }

  lemma {:induction false} ShardedSplits(data: seq<Byte>, symbol: seq<Byte>, c: Command)
    ensures Stands(data, 0, EncodeSharded(symbol, c)) <==>
              && data != [] && data[0] == Opcode(c) + SHARDED && Stands(data, 1, LE(|symbol|, 4) + symbol)
              && Stands(data, 5 + |symbol|, Body(c))
  {
    StandsByte(data, 0, Opcode(c) + SHARDED);
    hide Stands;
    hide Body;
    hide LE;
    var str := LE(|symbol|, 4) + symbol;
    StandsSplit(data, 0, [Opcode(c) + SHARDED], str + Body(c));
    StandsSplit(data, 1, str, Body(c));
  }

  lemma {:induction false} SymbolUnique(data: seq<Byte>, off: nat, s: seq<Byte>, t: seq<Byte>)
    requires |s| < U32 && |t| < U32 && Stands(data, off, LE(|s|, 4) + s) && Stands(data, off, LE(|t|, 4) + t)
    ensures s == t
  {
    StandsSplit(data, off, LE(|s|, 4), s);
    StandsSplit(data, off, LE(|t|, 4), t);
    PowersOf256();
    LEInjective(|s|, |t|, 4);
  }

  lemma {:induction false} DecodedShardedIs(data: seq<Byte>, symbol: seq<Byte>, c: Command)
    requires StartsWith(data, symbol, c)
    ensures DecodedSharded(data) == Some((symbol, c))
  {
    hide Stands;
    hide EncodeSharded;
    hide Body;
    var (s, d) := DecodedSharded(data).value;
    ShardedSplits(data, symbol, c);
    ShardedSplits(data, s, d);
    SymbolUnique(data, 1, symbol, s);
    BodyUnique(data, 5 + |symbol|, c, d);
  }

  // ----- round trips -----

  lemma {:induction false} CommandRoundTrip(c: Command, tail: seq<Byte>)
    ensures Decoded(Encode(c) + tail) == Some(c)
  {
    assert (Encode(c) + tail)[0..|Encode(c)|] == Encode(c);
    DecodedIs(Encode(c) + tail, c);
  }

  /** What stands in a prefix stands in the whole. */
  lemma {:induction false} StandsInWhole(whole: seq<Byte>, k: nat, bs: seq<Byte>)
    requires k <= |whole| && Stands(whole[..k], 0, bs)
    ensures Stands(whole, 0, bs) && |bs| <= k
  {
    assert whole[..k][0..|bs|] == whole[0..|bs|];
  }

  lemma {:induction false} CommandPrefixRejected(c: Command, k: nat)
    requires k < |Encode(c)|
    ensures Decoded(Encode(c)[..k]) == None
  {
    var whole := Encode(c);
    assert Stands(whole, 0, Encode(c)) by { assert whole[0..|whole|] == whole; }
    if exists d :: Stands(whole[..k], 0, Encode(d)) {
      var d :| Stands(whole[..k], 0, Encode(d));
      StandsInWhole(whole, k, Encode(d));
      DecodedIs(whole, d);
      DecodedIs(whole, c);
      assert false;
    }
  }

  /** A sharded command reads back exactly when the length field can hold the symbol's length. */
  lemma {:induction false} ShardedRoundTrip(symbol: seq<Byte>, c: Command)
    ensures DecodedSharded(EncodeSharded(symbol, c)) == Some((symbol, c)) <==> |symbol| < U32
  {
    var data := EncodeSharded(symbol, c);
    assert Stands(data, 0, EncodeSharded(symbol, c)) by { assert data[0..|data|] == data; }
    if |symbol| < U32 { DecodedShardedIs(data, symbol, c); }
  }

  lemma {:induction false} ShardedPrefixRejected(symbol: seq<Byte>, c: Command, k: nat)
    requires |symbol| < U32 && k < |EncodeSharded(symbol, c)|
    ensures DecodedSharded(EncodeSharded(symbol, c)[..k]) == None
  {
    var whole := EncodeSharded(symbol, c);
    assert StartsWith(whole, symbol, c) by { assert whole[0..|whole|] == whole; }
    if exists s, d :: StartsWith(whole[..k], s, d) {
      var s, d :| StartsWith(whole[..k], s, d);
      StandsInWhole(whole, k, EncodeSharded(s, d));
      DecodedShardedIs(whole, s, d);
      DecodedShardedIs(whole, symbol, c);
      assert false;
    }
  }
}
