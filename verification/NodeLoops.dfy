/** The node's loops over peers, one peer at a time, add up to the closed forms of the specification. */
module NodeLoops {
  import opened RaftTypes
  import opened LogSpec
  import opened ProgressSpec
  import opened NodeSpec
  import opened QuorumCommit

  /** BroadcastAppend after the peers in `done`. */
  ghost function Broadcasting(n: Node, done: set<NodeId>): Node {
    n.(pr := map id | id in n.pr :: if id == n.id || id !in done then n.pr[id] else AfterSend(n, n.pr[id]),
       msgs := n.msgs + set id | id in n.pr && id in done && id != n.id && Sends(n, n.pr[id]) :: AppendTo(n, id, n.pr[id]))
  }

  /** What sending depends on is the same in both nodes. */
  lemma {:induction false} SendsAlike(n: Node, n': Node, to: NodeId, p: Progress)
    requires n'.log == n.log && n'.cfg == n.cfg && n'.id == n.id && n'.term == n.term
    ensures Sends(n', p) == Sends(n, p) && AfterSend(n', p) == AfterSend(n, p)
    ensures p.nextIndex >= 1 ==> AppendTo(n', to, p) == AppendTo(n, to, p)
  {
    hide Slice;
    hide TermAt;
  }

  lemma {:induction false} BroadcastOneMore(n: Node, done: set<NodeId>, to: NodeId)
    requires to in n.pr && to !in done && to != n.id
    ensures SendAppend(Broadcasting(n, done), to) == Broadcasting(n, done + {to})
  {
    hide Sends;
    hide AfterSend;
    hide AppendTo;
    var b := Broadcasting(n, done);
    SendsAlike(n, b, to, n.pr[to]);
    assert b.pr[to] == n.pr[to];
    assert Sends(n, n.pr[to]) ==> n.pr[to].nextIndex >= 1 by { SendsNeedsIndex(n, n.pr[to]); }
    assert !Sends(n, n.pr[to]) ==> AfterSend(n, n.pr[to]) == n.pr[to] by { SilentKeeps(n, n.pr[to]); }
    assert SendAppend(b, to).pr == Broadcasting(n, done + {to}).pr;
    assert SendAppend(b, to).msgs == Broadcasting(n, done + {to}).msgs;
  }

  lemma {:induction false} SendsNeedsIndex(n: Node, p: Progress)
    ensures Sends(n, p) ==> p.nextIndex >= 1
  {
  }

  lemma {:induction false} SilentKeeps(n: Node, p: Progress)
    ensures !Sends(n, p) ==> AfterSend(n, p) == p
  {
  }

  lemma {:induction false} BroadcastSelf(n: Node, done: set<NodeId>)
    ensures Broadcasting(n, done + {n.id}) == Broadcasting(n, done)
  {
    assert Broadcasting(n, done + {n.id}).pr == Broadcasting(n, done).pr;
    assert Broadcasting(n, done + {n.id}).msgs == Broadcasting(n, done).msgs;
  }

  lemma {:induction false} BroadcastEnds(n: Node)
    ensures Broadcasting(n, {}) == n && Broadcasting(n, n.pr.Keys) == BroadcastAppend(n)
  {
    assert Broadcasting(n, {}).pr == n.pr;
    assert Broadcasting(n, {}).msgs == n.msgs;
    assert Broadcasting(n, n.pr.Keys).pr == BroadcastAppend(n).pr;
    assert Broadcasting(n, n.pr.Keys).msgs == BroadcastAppend(n).msgs;
  }

  /** `matches` lists, in some order, what the peers in `done` hold. */
  ghost predicate ListsHeld(held: map<NodeId, nat>, done: set<NodeId>, matches: seq<nat>) {
    |matches| == |done| && forall k: nat :: AtLeast(matches, k) == |Holders(held, k) * done|
  }

  lemma {:induction false} ListsNone(held: map<NodeId, nat>)
    ensures ListsHeld(held, {}, [])
  {
    assert forall k: nat :: Holders(held, k) * {} == {};
  }

  lemma {:induction false} ListsOneMore(held: map<NodeId, nat>, done: set<NodeId>, matches: seq<nat>, id: NodeId)
    requires ListsHeld(held, done, matches) && id in held && id !in done
    ensures ListsHeld(held, done + {id}, matches + [held[id]])
  {
    forall k: nat ensures AtLeast(matches + [held[id]], k) == |Holders(held, k) * (done + {id})| {
      AtLeastAppend(matches, [held[id]], k);
      OneMoreHolder(held, done, id, k);
    }
  }

  lemma {:induction false} SortedListsHeld(held: map<NodeId, nat>, matches: seq<nat>, sorted: seq<nat>)
    requires ListsHeld(held, held.Keys, matches) && forall k: nat :: AtLeast(sorted, k) == AtLeast(matches, k)
    ensures ListsHeld(held, held.Keys, sorted)
  {
    AllAtLeast(sorted, 0);
    AllAtLeast(matches, 0);
  }

  /** A list of the match values of all peers, sorted, shows the quorum index at place quorum - 1. */
  lemma {:induction false} PickIsQuorumIndex(held: map<NodeId, nat>, s: seq<nat>, quorum: nat)
    requires 1 <= quorum <= |held| && Descending(s) && ListsHeld(held, held.Keys, s)
    ensures |s| == |held| && s[quorum - 1] == QuorumIndex(held, quorum)
  {
    SortedPick(s, quorum);
    var pick := s[quorum - 1];
    assert Holders(held, pick) * held.Keys == Holders(held, pick);
    assert Holders(held, pick + 1) * held.Keys == Holders(held, pick + 1);
    assert AtLeast(s, pick) == |Holders(held, pick)| && AtLeast(s, pick + 1) == |Holders(held, pick + 1)|;
    var k := QuorumIndexExists(held, quorum);
    QuorumIndexUnique(held, pick, k, quorum);
  }
}
