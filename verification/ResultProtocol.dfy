/** The result of a NEW as bytes: status, fill count, fills, rested flag, remaining quantity. */
module ResultProtocol {
  import opened Bytes
  import opened BookSpec
  import opened WireBuffer
  import opened OrderProtocol
  import opened R = RaftTypes

  /** A fill as its bytes give it: any byte will do for the side. */
  datatype WireFill = WireFill(maker: UInt64, taker: UInt64, price: Int64, quantity: Int64, takerSide: Byte)

  function ToWire(f: Fill): WireFill {
    WireFill(f.maker, f.taker, f.price, ToI64(ToU64(f.quantity)), SideByte(f.takerSide))
  }

  function ToWires(fills: seq<Fill>): (w: seq<WireFill>)
    ensures |w| == |fills| && forall i :: 0 <= i < |fills| ==> w[i] == ToWire(fills[i])
  {
    seq(|fills|, i requires 0 <= i < |fills| => ToWire(fills[i]))
  }

  function FillBytes(f: WireFill): (bs: seq<Byte>)
    ensures |bs| == 33
  {
    LE(f.maker, 8) + (LE(f.taker, 8) + (LE(ToU64(f.price), 8) + (LE(ToU64(f.quantity), 8) + [f.takerSide])))
  }

  function FillsBytes(fs: seq<WireFill>): (bs: seq<Byte>)
    ensures |bs| == 33 * |fs|
  {
    if fs == [] then [] else FillsBytes(fs[..|fs| - 1]) + FillBytes(fs[|fs| - 1])
  }

  datatype Reply = Reply(fills: seq<WireFill>, rested: bool, remaining: Int64)

  /** A result with these status and rested bytes. */
  function Layout(status: Byte, rested: Byte, r: Reply): seq<Byte> {
    ([status] + LE(|r.fills|, 4)) + (FillsBytes(r.fills) + ([rested] + LE(ToU64(r.remaining), 8)))
  }

  function EncodeResult(fills: seq<Fill>, rested: bool, remaining: int): seq<Byte> {
    Layout(1, if rested then 1 else 0, Reply(ToWires(fills), rested, ToI64(ToU64(remaining))))
  }

  function EncodeSimple(ok: bool): seq<Byte> { [if ok then 1 else 0] }

  /** `data` starts with this result: any status but 0, any rested byte that stands for the flag. */
  ghost predicate Reads(data: seq<Byte>, r: Reply) {
    |r.fills| < U32 && exists status: Byte, rested: Byte ::
      status != 0 && r.rested == (rested != 0) && Stands(data, 0, Layout(status, rested, r))
  }

  ghost function DecodedResult(data: seq<Byte>): Option<Reply> {
    if exists r :: Reads(data, r) then var r :| Reads(data, r); Some(r) else None
  }

  // ----- reading is unique -----

  lemma {:induction false} FillSplits(data: seq<Byte>, off: nat, f: WireFill)
    ensures Stands(data, off, FillBytes(f)) <==>
              && Stands(data, off, LE(f.maker, 8)) && Stands(data, off + 8, LE(f.taker, 8))
              && Stands(data, off + 16, LE(ToU64(f.price), 8)) && Stands(data, off + 24, LE(ToU64(f.quantity), 8))
              && Stands(data, off + 32, [f.takerSide])
  {
    var m, t, p, q, s := LE(f.maker, 8), LE(f.taker, 8), LE(ToU64(f.price), 8), LE(ToU64(f.quantity), 8), [f.takerSide];
    StandsSplit(data, off, m, t + (p + (q + s)));
    StandsSplit(data, off + 8, t, p + (q + s));
    StandsSplit(data, off + 16, p, q + s);
    StandsSplit(data, off + 24, q, s);
  }

  lemma {:induction false} FillUnique(data: seq<Byte>, off: nat, f: WireFill, g: WireFill)
    requires Stands(data, off, FillBytes(f)) && Stands(data, off, FillBytes(g))
    ensures f == g
  {
    FillSplits(data, off, f);
    FillSplits(data, off, g);
    SameByte(data, off + 32, f.takerSide, g.takerSide);
    hide Stands;
    hide LE;
    hide ToU64;
    SameNumber(data, off, f.maker, g.maker);
    SameNumber(data, off + 8, f.taker, g.taker);
    SameSigned(data, off + 16, f.price, g.price);
    SameSigned(data, off + 24, f.quantity, g.quantity);
  }

  lemma {:induction false} SameByte(data: seq<Byte>, off: nat, a: Byte, b: Byte)
    requires Stands(data, off, [a]) && Stands(data, off, [b])
    ensures a == b
  {
    assert data[off] == a && data[off] == b;
  }

  lemma {:induction false} FillsUnique(data: seq<Byte>, off: nat, fs: seq<WireFill>, gs: seq<WireFill>)
    requires |fs| == |gs| && Stands(data, off, FillsBytes(fs)) && Stands(data, off, FillsBytes(gs))
    ensures fs == gs
    decreases |fs|
  {
    if fs != [] {
      var n := |fs| - 1;
      StandsSplit(data, off, FillsBytes(fs[..n]), FillBytes(fs[n]));
      StandsSplit(data, off, FillsBytes(gs[..n]), FillBytes(gs[n]));
      FillsUnique(data, off, fs[..n], gs[..n]);
      FillUnique(data, off + 33 * n, fs[n], gs[n]);
      assert fs == fs[..n] + [fs[n]] && gs == gs[..n] + [gs[n]];
    }
  }

  /** Where the parts of a result stand. */
  lemma {:induction false} LayoutSplits(data: seq<Byte>, status: Byte, rested: Byte, r: Reply)
    ensures var n := 5 + 33 * |r.fills|;
            Stands(data, 0, Layout(status, rested, r)) <==>
              && Stands(data, 0, [status]) && Stands(data, 1, LE(|r.fills|, 4)) && Stands(data, 5, FillsBytes(r.fills))
              && Stands(data, n, [rested]) && Stands(data, n + 1, LE(ToU64(r.remaining), 8))
  {
    var fb, tail := FillsBytes(r.fills), [rested] + LE(ToU64(r.remaining), 8);
    StandsSplit(data, 0, [status] + LE(|r.fills|, 4), fb + tail);
    StandsSplit(data, 0, [status], LE(|r.fills|, 4));
    StandsSplit(data, 5, fb, tail);
    StandsSplit(data, 5 + 33 * |r.fills|, [rested], LE(ToU64(r.remaining), 8));
  }

  lemma {:induction false} LayoutUnique(data: seq<Byte>, s1: Byte, b1: Byte, r: Reply, s2: Byte, b2: Byte, q: Reply)
    requires |r.fills| < U32 && |q.fills| < U32 && r.rested == (b1 != 0) && q.rested == (b2 != 0)
    requires Stands(data, 0, Layout(s1, b1, r)) && Stands(data, 0, Layout(s2, b2, q))
    ensures r == q
  {
    hide *;
    LayoutSplits(data, s1, b1, r);
    LayoutSplits(data, s2, b2, q);
    SameCount(data, |r.fills|, |q.fills|);
    FillsUnique(data, 5, r.fills, q.fills);
    SameByte(data, 5 + 33 * |r.fills|, b1, b2);
    SameSigned(data, 6 + 33 * |r.fills|, r.remaining, q.remaining);
  }

  lemma {:induction false} DecodedResultIs(data: seq<Byte>, r: Reply)
    requires Reads(data, r)
    ensures DecodedResult(data) == Some(r)
  {
    hide Layout;
    hide Stands;
    var q := DecodedResult(data).value;
    var s1, b1 :| s1 != 0 && r.rested == (b1 != 0) && Stands(data, 0, Layout(s1, b1, r));
    var s2, b2 :| s2 != 0 && q.rested == (b2 != 0) && Stands(data, 0, Layout(s2, b2, q));
    LayoutUnique(data, s1, b1, r, s2, b2, q);
  }

  lemma {:induction false} SameCount(data: seq<Byte>, m: nat, n: nat)
    requires m < U32 && n < U32 && Stands(data, 1, LE(m, 4)) && Stands(data, 1, LE(n, 4))
    ensures m == n
  {
    PowersOf256();
    LEInjective(m, n, 4);
  }

  // ----- round trip -----

  lemma {:induction false} EncodingReads(fills: seq<Fill>, rested: bool, remaining: Int64)
    requires |fills| < U32
    ensures Reads(EncodeResult(fills, rested, remaining), Reply(ToWires(fills), rested, remaining))
  {
    SignRoundTrip(remaining);
    var data, flag: Byte := EncodeResult(fills, rested, remaining), if rested then 1 else 0;
    var r := Reply(ToWires(fills), rested, remaining);
    assert data[0..|data|] == data;
    assert Stands(data, 0, Layout(1, flag, r));
  }

  /** For fewer than 2^32 fills: reading undoes writing, and no strict prefix is accepted. */
  lemma {:induction false} ResultRoundTrip(fills: seq<Fill>, rested: bool, remaining: Int64)
    requires |fills| < U32
    ensures DecodedResult(EncodeResult(fills, rested, remaining)) == Some(Reply(ToWires(fills), rested, remaining))
  {
    EncodingReads(fills, rested, remaining);
    DecodedResultIs(EncodeResult(fills, rested, remaining), Reply(ToWires(fills), rested, remaining));
  }

  lemma {:induction false} ResultPrefixRejected(fills: seq<Fill>, rested: bool, remaining: Int64, k: nat)
    requires |fills| < U32 && k < |EncodeResult(fills, rested, remaining)|
    ensures DecodedResult(EncodeResult(fills, rested, remaining)[..k]) == None
  {
    var whole, r := EncodeResult(fills, rested, remaining), Reply(ToWires(fills), rested, remaining);
    EncodingReads(fills, rested, remaining);
    if exists q :: Reads(whole[..k], q) {
      var q :| Reads(whole[..k], q);
      var s, b :| s != 0 && q.rested == (b != 0) && Stands(whole[..k], 0, Layout(s, b, q));
      StandsInWhole(whole, k, Layout(s, b, q));
      DecodedResultIs(whole, q);
      DecodedResultIs(whole, r);
      assert false;
    }
  }

  /** Fills whose quantities are 64-bit numbers are told apart by their bytes. */
  lemma {:induction false} WiresInjective(fills: seq<Fill>, others: seq<Fill>)
    requires ToWires(fills) == ToWires(others)
    requires forall f :: f in fills || f in others ==> -I64 <= f.quantity < I64
    ensures fills == others
  {
    assert |fills| == |ToWires(fills)| == |others|;
    forall i | 0 <= i < |fills| ensures fills[i] == others[i] {
      assert ToWires(fills)[i] == ToWires(others)[i];
      SignRoundTrip(fills[i].quantity);
      SignRoundTrip(others[i].quantity);
    }
  }
}
