/** What a depth view shows of a side. */
module BookDepth {
  import opened Bytes
  import opened BookSpec

  lemma {:induction false} DepthUnfolds(s: Side, m: Levels, p: Int64, n: nat)
    requires m != map[] && p == Best(s, m.Keys)
    ensures Depth(s, m, n) == [PriceLevel(p, TotalQuantity(m[p]), |m[p]|)] +
                              if n == 1 then [] else Depth(s, m - {p}, if n == 0 then 0 else n - 1)
  {
  }

  lemma {:induction false} DepthOfAll(s: Side, m: Levels)
    ensures |Depth(s, m, 0)| == |m|
    ensures forall k :: 0 <= k < |m| ==> Shows(m, Depth(s, m, 0)[k])
    ensures forall i, j :: 0 <= i < j < |m| ==> Better(s, Depth(s, m, 0)[i].price, Depth(s, m, 0)[j].price)
    decreases |m|
  {
    if m != map[] {
      var p := Best(s, m.Keys);
      FewerKeys(m, p);
      var d, rest := Depth(s, m, 0), Depth(s, m - {p}, 0);
      DepthOfAll(s, m - {p});
      assert d == [PriceLevel(p, TotalQuantity(m[p]), |m[p]|)] + rest;
      forall k | 0 <= k < |m| ensures Shows(m, d[k]) {
        if k > 0 { assert Shows(m - {p}, rest[k - 1]); }
      }
      forall i, j | 0 <= i < j < |m| ensures Better(s, d[i].price, d[j].price) {
        assert Shows(m - {p}, rest[j - 1]);
      }
    }
  }

  /** A row tells price, total and count of one level. */
  ghost predicate Shows(m: Levels, pl: PriceLevel) {
    pl.price in m && pl.totalQuantity == TotalQuantity(m[pl.price]) && pl.orderCount == |m[pl.price]|
  }

  /** A limit shows the best levels only. */
  lemma {:induction false} LimitCuts(s: Side, m: Levels, n: nat)
    requires n > 0
    ensures |Depth(s, m, 0)| == |m| && Depth(s, m, n) == Depth(s, m, 0)[..Min(n, |m|)]
    decreases |m|
  {
    DepthOfAll(s, m);
    if m != map[] {
      var p := Best(s, m.Keys);
      FewerKeys(m, p);
      DepthUnfolds(s, m, p, n);
      DepthUnfolds(s, m, p, 0);
      if n > 1 { LimitCuts(s, m - {p}, n - 1); }
      hide Depth;
      hide TotalQuantity;
      var front, rest := [PriceLevel(p, TotalQuantity(m[p]), |m[p]|)], Depth(s, m - {p}, 0);
      assert (front + rest)[..Min(n, |m|)] == front + rest[..Min(n, |m|) - 1];
    }
  }

  /** A side's depth: one row per level, best price first, strictly in price order; with a limit, the
      first rows of that list. */
  lemma {:induction false} DepthView(s: Side, m: Levels, n: nat)
    ensures var d := Depth(s, m, n);
            && |d| == (if n == 0 || n > |m| then |m| else n)
            && (forall k :: 0 <= k < |d| ==> Shows(m, d[k]))
            && (forall i, j :: 0 <= i < j < |d| ==> Better(s, d[i].price, d[j].price))
            && (forall p, k :: p in m && 0 <= k < |d| ==> p == d[k].price || Better(s, d[k].price, p) || Ranked(d, k, p))
  {
    DepthOfAll(s, m);
    if n > 0 { LimitCuts(s, m, n); }
    var d := Depth(s, m, n);
    hide Depth;
    forall p, k | p in m && 0 <= k < |d| ensures p == d[k].price || Better(s, d[k].price, p) || Ranked(d, k, p) {
      EveryPriceHasRow(s, m, p);
      var i :| 0 <= i < |m| && Depth(s, m, 0)[i].price == p;
      assert i < k ==> d[i].price == p;
    }
  }

  /** The price is in an earlier row. */
  ghost predicate Ranked(d: seq<PriceLevel>, k: nat, p: Int64) { exists i :: 0 <= i < k && i < |d| && d[i].price == p }

  lemma {:induction false} EveryPriceHasRow(s: Side, m: Levels, p: Int64)
    requires p in m
    ensures |Depth(s, m, 0)| == |m| && exists i :: 0 <= i < |m| && Depth(s, m, 0)[i].price == p
    decreases |m|
  {
    var best := Best(s, m.Keys);
    FewerKeys(m, best);
    DepthOfAll(s, m);
    var d := Depth(s, m, 0);
    if p == best {
      assert d[0].price == p;
    } else {
      EveryPriceHasRow(s, m - {best}, p);
      var i :| 0 <= i < |m - {best}| && Depth(s, m - {best}, 0)[i].price == p;
      assert d[i + 1].price == p;
    }
  }
}
