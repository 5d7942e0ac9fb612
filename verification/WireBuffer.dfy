/** Byte buffers written and read through an advancing offset. */
module WireBuffer {
  import opened Bytes

  /** `bs` stands in `data` at offset `off`. */
  predicate Stands(data: seq<Byte>, off: nat, bs: seq<Byte>) { off + |bs| <= |data| && data[off..off + |bs|] == bs }

  lemma {:induction false} StandsSplit(data: seq<Byte>, off: nat, a: seq<Byte>, b: seq<Byte>)
    ensures Stands(data, off, a + b) <==> Stands(data, off, a) && Stands(data, off + |a|, b)
  {
    if off + |a| + |b| <= |data| {
      var whole := data[off..off + |a| + |b|];
      assert whole == data[off..off + |a|] + data[off + |a|..off + |a| + |b|];
      assert whole[..|a|] == data[off..off + |a|] && whole[|a|..] == data[off + |a|..off + |a| + |b|];
      assert (a + b)[..|a|] == a && (a + b)[|a|..] == b;
    }
  }

  lemma {:induction false} StandsByte(data: seq<Byte>, off: nat, b: Byte)
    ensures Stands(data, off, [b]) <==> off < |data| && data[off] == b
  {
  }

  /** The same value reads back the same, and only that value. */
  lemma {:induction false} LEInjective(v: nat, w: nat, n: nat)
    requires v < Pow256(n) && w < Pow256(n)
    ensures LE(v, n) == LE(w, n) <==> v == w
  {
    LERoundTrip(v, n);
    LERoundTrip(w, n);
  }

  // ----- writing -----

  /** Makes room for n bytes at `off`. */
  method Reserve(buf: seq<Byte>, off: nat, n: nat) returns (out: seq<Byte>)
    requires off <= |buf|
    ensures |out| == if off + n > |buf| then off + n else |buf|
    ensures out[..|buf|] == buf
  {
    out := if off + n > |buf| then buf + seq(off + n - |buf|, _ => 0) else buf;
  }

  /** Writes the low n bytes of v, one by one. */
  method PutLE(buf: seq<Byte>, off: nat, v: nat, n: nat) returns (out: seq<Byte>, next: nat)
    requires off <= |buf|
    ensures next == off + n && |out| == if next > |buf| then next else |buf|
    ensures out[..next] == buf[..off] + LE(v, n)
  {
    out := Reserve(buf, off, n);
    ghost var size, bs := |out|, LE(v, n);
    var shifted := v;
    for i := 0 to n
      invariant |out| == size && LE(shifted, n - i) == bs[i..]
      invariant forall k :: 0 <= k < off ==> out[k] == buf[k]
      invariant forall k :: 0 <= k < i ==> out[off + k] == bs[k]
    {
      assert bs[i] == bs[i..][0] && bs[i + 1..] == bs[i..][1..];
      out := out[off + i := shifted % 256];
      shifted := shifted / 256;
    }
    next := off + n;
  }

  method PutU8(buf: seq<Byte>, off: nat, v: Byte) returns (out: seq<Byte>, next: nat)
    requires off <= |buf|
    ensures next == off + 1 && |out| == if next > |buf| then next else |buf|
    ensures out[..next] == buf[..off] + [v]
  {
    out := Reserve(buf, off, 1);
    assert out[..off] == buf[..off];
    out := out[off := v];
    next := off + 1;
  }

  method PutI64(buf: seq<Byte>, off: nat, v: int) returns (out: seq<Byte>, next: nat)
    requires off <= |buf|
    ensures next == off + 8 && |out| == if next > |buf| then next else |buf|
    ensures out[..next] == buf[..off] + LE(ToU64(v), 8)
  {
    out, next := PutLE(buf, off, ToU64(v), 8);
  }

  method PutStr(buf: seq<Byte>, off: nat, s: seq<Byte>) returns (out: seq<Byte>, next: nat)
    requires off <= |buf|
    ensures next == off + 4 + |s| && |out| == if next > |buf| then next else |buf|
    ensures out[..next] == buf[..off] + (LE(|s|, 4) + s)
  {
    var buf1, off1 := PutLE(buf, off, |s|, 4);
    out := Reserve(buf1, off1, |s|);
    ghost var size := |out|;
    for i := 0 to |s|
      invariant |out| == size
      invariant forall k :: 0 <= k < off1 ==> out[k] == buf1[k]
      invariant forall k :: 0 <= k < i ==> out[off1 + k] == s[k]
    {
      out := out[off1 + i := s[i]];
    }
    next := off1 + |s|;
    assert out[..next] == buf1[..off1] + s;
  }

  // ----- reading -----

  /** v is the number of the first i bytes, and `scale` the weight of the next. */
  ghost predicate ReadSoFar(field: seq<Byte>, i: nat, v: nat, scale: nat)
    requires i <= |field|
  {
    v + scale * UnLE(field[i..]) == UnLE(field)
  }

  lemma {:induction false} ReadOneMore(field: seq<Byte>, i: nat, v: nat, scale: nat)
    requires i < |field| && ReadSoFar(field, i, v, scale)
    ensures field[i] * scale >= 0 && ReadSoFar(field, i + 1, v + field[i] * scale, 256 * scale)
  {
    assert field[i..][1..] == field[i + 1..];
    var rest := UnLE(field[i + 1..]);
    assert UnLE(field[i..]) == field[i] + 256 * rest;
    hide UnLE;
    assert scale * (field[i] + 256 * rest) == field[i] * scale + 256 * scale * rest;
  }

  lemma {:induction false} ReadAll(field: seq<Byte>, v: nat, scale: nat)
    requires ReadSoFar(field, |field|, v, scale)
    ensures v < Pow256(|field|) && LE(v, |field|) == field
  {
    assert field[|field|..] == [];
    UnLERoundTrip(field);
  }

  /** Reads n bytes as one number, least significant first. */
  method GetLE(data: seq<Byte>, off: nat, n: nat) returns (ok: bool, next: nat, v: nat)
    requires off <= |data|
    ensures ok == (off + n <= |data|)
    ensures ok ==> next == off + n && v < Pow256(n) && Stands(data, off, LE(v, n))
  {
    ok, next, v := off + n <= |data|, off, 0;
    if !ok { return; }
    ghost var field := data[off..off + n];
    var scale: nat := 1;
    assert ReadSoFar(field, 0, 0, 1) by { assert field[0..] == field; }
    hide ReadSoFar;
    for i := 0 to n
      invariant ReadSoFar(field, i, v, scale)
    {
      ReadOneMore(field, i, v, scale);
      v := v + data[off + i] * scale;
      scale := 256 * scale;
    }
    next := off + n;
    ReadAll(field, v, scale);
  }

  method GetU8(data: seq<Byte>, off: nat) returns (ok: bool, next: nat, v: Byte)
    requires off <= |data|
    ensures ok == (off + 1 <= |data|)
    ensures ok ==> next == off + 1 && v == data[off]
  {
    ok, next, v := off + 1 <= |data|, off, 0;
    if ok { v, next := data[off], off + 1; }
  }

  method GetU64(data: seq<Byte>, off: nat) returns (ok: bool, next: nat, v: UInt64)
    requires off <= |data|
    ensures ok == (off + 8 <= |data|)
    ensures ok ==> next == off + 8 && Stands(data, off, LE(v, 8))
  {
    PowersOf256();
    var u;
    ok, next, u := GetLE(data, off, 8);
    v := if ok then u else 0;
  }

  method GetI64(data: seq<Byte>, off: nat) returns (ok: bool, next: nat, v: Int64)
    requires off <= |data|
    ensures ok == (off + 8 <= |data|)
    ensures ok ==> next == off + 8 && Stands(data, off, LE(ToU64(v), 8))
  {
    var u;
    ok, next, u := GetU64(data, off);
    v := ToI64(u);
    UnsignRoundTrip(u);
    hide ToU64;
  }

  method GetStr(data: seq<Byte>, off: nat) returns (ok: bool, next: nat, s: seq<Byte>)
    requires off <= |data|
    ensures ok ==> next == off + 4 + |s| <= |data| && |s| < U32 && Stands(data, off, LE(|s|, 4) + s)
    ensures !ok ==> forall t: seq<Byte> :: |t| < U32 ==> !Stands(data, off, LE(|t|, 4) + t)
  {
    PowersOf256();
    s := [];
    var len;
    ok, next, len := GetLE(data, off, 4);
    if ok && next + len > |data| { ok := false; }
    if ok {
      s, next := data[next..next + len], next + len;
      StandsSplit(data, off, LE(|s|, 4), s);
    } else {
      forall t: seq<Byte> | |t| < U32 ensures !Stands(data, off, LE(|t|, 4) + t) {
        StandsSplit(data, off, LE(|t|, 4), t);
        if off + 4 <= |data| { LEInjective(|t|, len, 4); }
      }
    }
  }
}
