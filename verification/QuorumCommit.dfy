/** The leader's commit rule: the entry it picks from the sorted match table is the largest index
    that a quorum holds. */
module QuorumCommit {
  import opened Bytes
  import opened RaftTypes
  import opened LogSpec
  import opened NodeSpec

  lemma {:induction false} FewerHoldMore(held: map<NodeId, nat>, j: nat, k: nat, quorum: nat)
    requires j <= k && HasQuorum(held, k, quorum)
    ensures HasQuorum(held, j, quorum)
  {
    assert Holders(held, j) == Holders(held, k) + (Holders(held, j) - Holders(held, k));
  }

  lemma {:induction false} QuorumIndexUnique(held: map<NodeId, nat>, j: nat, k: nat, quorum: nat)
    requires IsQuorumIndex(held, j, quorum) && IsQuorumIndex(held, k, quorum)
    ensures j == k
  {
    if j < k { FewerHoldMore(held, j + 1, k, quorum); }
    if k < j { FewerHoldMore(held, k + 1, j, quorum); }
  }

  /** Something a quorum holds, and something above every entry, enclose the quorum index. */
  lemma {:induction false} QuorumIndexBetween(held: map<NodeId, nat>, low: nat, high: nat, quorum: nat) returns (k: nat)
    requires low < high && HasQuorum(held, low, quorum) && !HasQuorum(held, high, quorum)
    ensures IsQuorumIndex(held, k, quorum)
    decreases high - low
  {
    if HasQuorum(held, low + 1, quorum) { k := QuorumIndexBetween(held, low + 1, high, quorum); } else { k := low; }
  }

  lemma {:induction false} SomeBound(held: map<NodeId, nat>, ids: set<NodeId>) returns (b: nat)
    requires ids <= held.Keys
    ensures forall id :: id in ids ==> held[id] < b
  {
    if ids == {} {
      b := 0;
    } else {
      var id :| id in ids;
      var rest := SomeBound(held, ids - {id});
      b := Max(rest, held[id] + 1);
    }
  }

  lemma {:induction false} QuorumIndexExists(held: map<NodeId, nat>, quorum: nat) returns (k: nat)
    requires 1 <= quorum <= |held|
    ensures IsQuorumIndex(held, k, quorum) && k == QuorumIndex(held, quorum)
  {
    var b := SomeBound(held, held.Keys);
    assert Holders(held, 0) == held.Keys;
    assert Holders(held, b + 1) == {};
    k := QuorumIndexBetween(held, 0, b + 1, quorum);
    QuorumIndexUnique(held, k, QuorumIndex(held, quorum), quorum);
  }

  /** The commit index never falls; it moves exactly when the largest quorum-held index is above it and
      of the current term, and then it is that index. */
  lemma {:induction false} CommitAdvances(n: Node, best: nat)
    requires Quorum(n.cfg) <= |n.pr|
    requires HasQuorum(Matches(n), best, Quorum(n.cfg))
    requires forall k: nat :: HasQuorum(Matches(n), k, Quorum(n.cfg)) ==> k <= best
    ensures MaybeCommit(n).log.committed ==
              if best > n.log.committed && TermAt(n.log, best) == n.term then best else n.log.committed
    ensures Commits(n) <==> best > n.log.committed && TermAt(n.log, best) == n.term
  {
    assert Matches(n).Keys == n.pr.Keys;
    assert |Matches(n)| == |Matches(n).Keys| == |n.pr.Keys| == |n.pr|;
    var k := QuorumIndexExists(Matches(n), Quorum(n.cfg));
    assert IsQuorumIndex(Matches(n), best, Quorum(n.cfg));
    QuorumIndexUnique(Matches(n), k, best, Quorum(n.cfg));
  }

  // ----- the sorted pick -----

  /** How many elements are at least k. */
  function AtLeast(s: seq<nat>, k: nat): nat {
    if s == [] then 0 else AtLeast(s[..|s| - 1], k) + if s[|s| - 1] >= k then 1 else 0
  }

  ghost predicate Descending(s: seq<nat>) { forall i, j :: 0 <= i <= j < |s| ==> s[i] >= s[j] }

  lemma {:induction false} AtLeastAppend(a: seq<nat>, b: seq<nat>, k: nat)
    ensures AtLeast(a + b, k) == AtLeast(a, k) + AtLeast(b, k)
    decreases |b|
  {
    if b == [] {
      assert a + b == a;
    } else {
      var i := |b| - 1;
      assert (a + b)[..|a + b| - 1] == a + b[..i];
      AtLeastAppend(a, b[..i], k);
    }
  }

  lemma {:induction false} AllAtLeast(s: seq<nat>, k: nat)
    requires forall i :: 0 <= i < |s| ==> s[i] >= k
    ensures AtLeast(s, k) == |s|
  {
    if s != [] { AllAtLeast(s[..|s| - 1], k); }
  }

  lemma {:induction false} NoneAtLeast(s: seq<nat>, k: nat)
    requires forall i :: 0 <= i < |s| ==> s[i] < k
    ensures AtLeast(s, k) == 0
  {
    if s != [] { NoneAtLeast(s[..|s| - 1], k); }
  }

  lemma {:induction false} AtLeastBound(s: seq<nat>, k: nat)
    ensures AtLeast(s, k) <= |s|
  {
    if s != [] { AtLeastBound(s[..|s| - 1], k); }
  }

  /** Element quorum - 1 of the descending list is held by a quorum, and nothing above it is. */
  lemma {:induction false} SortedPick(s: seq<nat>, quorum: nat)
    requires Descending(s) && 1 <= quorum <= |s|
    ensures AtLeast(s, s[quorum - 1]) >= quorum && AtLeast(s, s[quorum - 1] + 1) < quorum
  {
    var pick := s[quorum - 1];
    var top, rest := s[..quorum], s[quorum..];
    assert s == top + rest;
    AtLeastAppend(top, rest, pick);
    AllAtLeast(top, pick);
    AtLeastAppend(top, rest, pick + 1);
    AtLeastBound(top[..quorum - 1], pick + 1);
    NoneAtLeast(rest, pick + 1);
  }

  /** One more peer visited adds one holder exactly when it holds k. */
  lemma {:induction false} OneMoreHolder(held: map<NodeId, nat>, done: set<NodeId>, id: NodeId, k: nat)
    requires id in held && id !in done
    ensures |Holders(held, k) * (done + {id})| == |Holders(held, k) * done| + if held[id] >= k then 1 else 0
  {
    assert Holders(held, k) * (done + {id}) == Holders(held, k) * done + if held[id] >= k then {id} else {};
  }

  // ----- sorting, as the source's std::sort with std::greater promises -----

  /** s with x put behind everything at least as large. */
  function InsertDescending(s: seq<nat>, x: nat): seq<nat> {
    if s == [] || s[|s| - 1] >= x then s + [x] else InsertDescending(s[..|s| - 1], x) + [s[|s| - 1]]
  }

  lemma {:induction false} InsertKeepsOrder(s: seq<nat>, x: nat, low: nat)
    requires Descending(s) && x >= low && forall i :: 0 <= i < |s| ==> s[i] >= low
    ensures Descending(InsertDescending(s, x)) && forall i :: 0 <= i < |InsertDescending(s, x)| ==> InsertDescending(s, x)[i] >= low
    decreases |s|
  {
    if s != [] && s[|s| - 1] < x {
      var front, last := s[..|s| - 1], s[|s| - 1];
      InsertKeepsOrder(front, x, last);
    }
  }

  lemma {:induction false} InsertCounts(s: seq<nat>, x: nat, k: nat)
    ensures AtLeast(InsertDescending(s, x), k) == AtLeast(s, k) + if x >= k then 1 else 0
    decreases |s|
  {
    if s == [] || s[|s| - 1] >= x {
      AtLeastAppend(s, [x], k);
    } else {
      var front, last := s[..|s| - 1], s[|s| - 1];
      InsertCounts(front, x, k);
      AtLeastAppend(InsertDescending(front, x), [last], k);
    }
  }

  /** Equal counts at every threshold make r a permutation of s. */
  method SortDescending(s: seq<nat>) returns (r: seq<nat>)
    ensures Descending(r)
    ensures forall k: nat :: AtLeast(r, k) == AtLeast(s, k)
  {
    r := [];
    for i := 0 to |s|
      invariant Descending(r)
      invariant forall k: nat :: AtLeast(r, k) == AtLeast(s[..i], k)
    {
      InsertKeepsOrder(r, s[i], 0);
      forall k: nat ensures AtLeast(InsertDescending(r, s[i]), k) == AtLeast(s[..i + 1], k) {
        InsertCounts(r, s[i], k);
        assert s[..i + 1][..i] == s[..i];
      }
      r := InsertDescending(r, s[i]);
    }
    assert s[..|s|] == s;
  }
}
