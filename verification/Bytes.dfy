/** Integer ranges, bytes, and the little-endian integers that the log file, the order protocol and the snapshots
    are made of. */
module Bytes {
  type Byte = b: int | 0 <= b < 256

  const U32: nat := 0x1_0000_0000
  const U64: nat := 0x1_0000_0000_0000_0000
  const I64: int := 0x8000_0000_0000_0000

  type Int64 = x: int | -0x8000_0000_0000_0000 <= x < 0x8000_0000_0000_0000
  type UInt64 = x: int | 0 <= x < 0x1_0000_0000_0000_0000

  function Min(a: int, b: int): int { if a <= b then a else b }

  function Max(a: int, b: int): int { if a <= b then b else a }

  /** The low n bytes of v, least significant first. */
  function LE(v: nat, n: nat): (bs: seq<Byte>)
    ensures |bs| == n
  {
    if n == 0 then [] else [v % 256] + LE(v / 256, n - 1)
  }

  function UnLE(bs: seq<Byte>): nat {
    if bs == [] then 0 else bs[0] + 256 * UnLE(bs[1..])
  }

  function Pow256(n: nat): (p: nat)
    ensures p >= 1
  {
    if n == 0 then 1 else 256 * Pow256(n - 1)
  }

  lemma {:induction false} PowersOf256()
    ensures Pow256(1) == 256 && Pow256(4) == U32 && Pow256(8) == U64
  {
    assert Pow256(2) == 0x1_0000;
    assert Pow256(3) == 256 * Pow256(2);
    assert Pow256(4) == 256 * Pow256(3);
    assert Pow256(5) == 256 * Pow256(4);
    assert Pow256(6) == 256 * Pow256(5);
    assert Pow256(7) == 256 * Pow256(6);
  }

  /** Reading back what was written gives the value, cut to n bytes. */
  lemma {:induction false} LERoundTrip(v: nat, n: nat)
    requires v < Pow256(n)
    ensures UnLE(LE(v, n)) == v
  {
    if n > 0 {
      LERoundTrip(v / 256, n - 1);
      assert LE(v, n)[1..] == LE(v / 256, n - 1);
    }
  }

  /** The first j bytes of a number read as that number exactly when it needs no more. */
  lemma {:induction false} FrontReadsExactlyWhen(v: nat, n: nat, j: nat)
    requires j <= n
    ensures LE(v, n)[..j] == LE(v, j) && (UnLE(LE(v, j)) == v <==> v < Pow256(j))
  {
    FrontOfLE(v, n, j);
    UnLERoundTrip(LE(v, j));
    if v < Pow256(j) { LERoundTrip(v, j); }
  }

  lemma {:induction false} FrontOfLE(v: nat, n: nat, j: nat)
    requires j <= n
    ensures LE(v, n)[..j] == LE(v, j)
  {
    if j > 0 {
      FrontOfLE(v / 256, n - 1, j - 1);
      assert LE(v, n)[1..] == LE(v / 256, n - 1);
      assert LE(v, n)[..j] == [v % 256] + LE(v / 256, n - 1)[..j - 1];
    }
  }

  /** Every n bytes are the encoding of their value. */
  lemma {:induction false} UnLERoundTrip(bs: seq<Byte>)
    ensures UnLE(bs) < Pow256(|bs|) && LE(UnLE(bs), |bs|) == bs
  {
    if bs != [] {
      UnLERoundTrip(bs[1..]);
      assert UnLE(bs) % 256 == bs[0] && UnLE(bs) / 256 == UnLE(bs[1..]);
    }
  }

  /** The conversion of any number to an unsigned 64-bit one, and from there to a signed one. */
  function ToU64(x: int): UInt64 { x % U64 }

  function ToI64(v: UInt64): Int64 { if v < I64 then v else v - U64 }

  lemma {:induction false} SignRoundTrip(x: Int64)
    ensures ToI64(ToU64(x)) == x
  {
  }

  lemma {:induction false} UnsignRoundTrip(v: UInt64)
    ensures ToU64(ToI64(v)) == v
  {
    assert v >= I64 ==> (v - U64) % U64 == v;
  }

  lemma {:induction false} Associative<T>(a: seq<T>, b: seq<T>, c: seq<T>)
    ensures (a + b) + c == a + (b + c)
  {
  }
}
