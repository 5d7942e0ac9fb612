/** How much a slice returns: the longest run that fits the size limit, and at least one entry. */
module SliceLimits {
  import opened Bytes
  import opened RaftTypes
  import opened LogSpec
  import opened LogTheorems

  /** Bytes of a run: 48 for each entry, and its data. */
  function Weight(es: seq<Entry>): nat {
    if es == [] then 0 else 48 + |es[0].data| + Weight(es[1..])
  }

  /** r is the longest front of `all` within the limit, where one entry always is. */
  ghost predicate Greedy(all: seq<Entry>, r: seq<Entry>, limit: nat) {
    && r <= all
    && (all != [] ==> r != [])
    && (|r| > 1 ==> Weight(r) <= limit)
    && (|r| < |all| ==> Weight(all[..|r| + 1]) > limit)
  }

  lemma {:induction false} FitIsGreedy(es: seq<Entry>, size: nat, limit: nat)
    ensures var k := Fit(es, size, limit);
            && (k > 0 ==> size + Weight(es[..k]) <= limit)
            && (k < |es| ==> size + Weight(es[..k + 1]) > limit)
    decreases |es|
  {
    if es != [] {
      assert es[..1][1..] == [];
      if size + Cost(es[0]) <= limit {
        var k := Fit(es[1..], size + Cost(es[0]), limit);
        FitIsGreedy(es[1..], size + Cost(es[0]), limit);
        assert es[..1 + k][1..] == es[1..][..k];
        if k < |es[1..]| { assert es[..k + 2][1..] == es[1..][..k + 1]; }
      }
    }
  }

  lemma {:induction false} BoundedIsGreedy(es: seq<Entry>, limit: nat)
    ensures Greedy(es, Bounded(es, limit), limit)
  {
    if |es| > 1 {
      var k := Fit(es[1..], Cost(es[0]), limit);
      FitIsGreedy(es[1..], Cost(es[0]), limit);
      hide Fit;
      FrontOfTail(es, k);
      if k < |es[1..]| { FrontOfTail(es, k + 1); }
    }
  }

  lemma {:induction false} FrontOfTail<T>(s: seq<T>, k: nat)
    requires 1 + k <= |s|
    ensures s[..1 + k][1..] == s[1..][..k]
  {
  }

  /** Storage alone: no limit for 0 and for the largest number, and otherwise the longest front within it. */
  lemma {:induction false} StorageIsGreedy(es: seq<Entry>, limit: nat)
    ensures if limit == 0 || limit == 0xFFFF_FFFF_FFFF_FFFF then StorageTake(es, limit) == es else Greedy(es, StorageTake(es, limit), limit)
  {
    BoundedIsGreedy(es, limit);
    hide Greedy;
    hide Bounded;
  }

  /** What is greedy and shorter than the front of a list is greedy of the list. */
  lemma {:induction false} GreedyInFront(all: seq<Entry>, front: seq<Entry>, r: seq<Entry>, limit: nat)
    requires front <= all && front != [] && Greedy(front, r, limit) && |r| < |front|
    ensures Greedy(all, r, limit)
  {
    assert all[..|r| + 1] == front[..|r| + 1];
  }

  /** Where the two layers serve the whole range, the slice is its longest front within the limit. */
  lemma {:induction false} SliceIsGreedy(l: Log, lo: nat, hi: nat, limit: nat)
    requires Valid(l) && 1 <= lo < hi <= LastIndex(l) + 1 && (l.window != [] || hi <= l.offset) && limit < NO_LIMIT
    ensures var r := Slice(l, lo, hi, limit);
            r.Some? && |Logical(l)| >= hi - 1 && Greedy(Logical(l)[lo - 1..hi - 1], r.value, limit)
  {
    hide Numbered;
    hide Logical;
    hide WindowPart;
    hide Bounded;
    hide Greedy;
    WholeRange(l, lo, hi);
    var range := Logical(l)[lo - 1..hi - 1];
    var a, b := StoragePart(l, lo, hi, limit), WindowPart(l, lo, hi);
    var cut := Min(hi, l.offset);
    if lo < l.offset {
      var front := l.stored[lo - 1..cut - 1];
      BoundedIsGreedy(front, limit);
      if |a| < cut - lo {
        GreedyInFront(range, front, a, limit);
      } else {
        assert a == front;
        BoundedIsGreedy(a + b, limit);
      }
    } else {
      assert a + b == b;
      BoundedIsGreedy(b, limit);
    }
  }

  /** The range is what storage and window hold of it. */
  lemma {:induction false} WholeRange(l: Log, lo: nat, hi: nat)
    requires Valid(l) && 1 <= lo < hi <= LastIndex(l) + 1 && (l.window != [] || hi <= l.offset)
    ensures hi - 1 <= |Logical(l)| && (lo < l.offset ==> Min(hi, l.offset) - 1 <= |l.stored|)
    ensures var range, w := Logical(l)[lo - 1..hi - 1], WindowPart(l, lo, hi);
            if lo < l.offset then range == l.stored[lo - 1..Min(hi, l.offset) - 1] + w else range == w
  {
    var cut := Min(hi, l.offset);
    if l.window == [] || hi <= l.offset {
      assert l.window != [] ==> Logical(l)[lo - 1..hi - 1] == l.stored[..l.offset - 1][lo - 1..hi - 1];
    }
  }

  /** Whether there is anything to serve from index lo on. */
  predicate Served(l: Log, lo: nat) { lo < l.offset || l.window != [] }

  /** A slice in bounds is empty exactly where neither layer serves its first index. */
  lemma {:induction false} SliceServes(l: Log, lo: nat, hi: nat, limit: nat)
    requires Valid(l) && 1 <= lo < hi <= LastIndex(l) + 1
    ensures Slice(l, lo, hi, limit).Some? && (Slice(l, lo, hi, limit).value != [] <==> Served(l, lo))
  {
    SliceIsPrefix(l, lo, hi, limit);
    var a, b := StoragePart(l, lo, hi, limit), WindowPart(l, lo, hi);
    BoundedKeepsOne(a + b, limit);
    if lo < l.offset { BoundedKeepsOne(l.stored[lo - 1..Min(hi, l.offset) - 1], limit); }
    hide Bounded;
  }

  lemma {:induction false} BoundedKeepsOne(es: seq<Entry>, limit: nat)
    ensures Bounded(es, limit) == [] <==> es == []
  {
    BoundedIsGreedy(es, limit);
  }
}
