/** The commit rule from the outside: what an accepted append does to the leader's commit index. */
module CommitRule {
  import opened Bytes
  import opened RaftTypes
  import opened LogSpec
  import opened NodeSpec
  import opened QuorumCommit
  import opened NodeAnswers

  /** What a tracked node is known to hold once the acceptance is counted; the leader holds its log. */
  function Known(n: Node, m: Message, id: NodeId): nat
    requires id in n.pr
  {
    if id == n.id then LastIndex(n.log)
    else if id == m.from then Max(n.pr[id].matchIndex, m.index)
    else n.pr[id].matchIndex
  }

  function KnownHolders(n: Node, m: Message, k: nat): set<NodeId> { set id | id in n.pr && Known(n, m, id) >= k }

  /** More than half of the voters. */
  ghost predicate Majority(n: Node, m: Message, k: nat) { 2 * |KnownHolders(n, m, k)| > |n.cfg.voters| }

  lemma {:induction false} HoldersAreKnown(n: Node, m: Message, k: nat)
    requires m.from in n.pr
    ensures var t := Tallied(n, m); t.cfg == n.cfg && (HasQuorum(Matches(t), k, Quorum(t.cfg)) <==> Majority(n, m, k))
  {
    var t := Tallied(n, m);
    assert t.pr.Keys == n.pr.Keys;
    hide LastIndex;
    assert Holders(Matches(t), k) == KnownHolders(n, m, k);
  }

  /** With `best` the largest index that a majority is known to hold: the commit index moves exactly if that is
      above it and of the leader's own term, and then to it. */
  lemma {:induction false} MajorityCommits(n: Node, m: Message, best: nat)
    requires n.role == Leader && m.typ == MsgAppResp && !m.reject && m.term == n.term && m.from in n.pr && |n.pr| == |n.cfg.voters|
    requires Majority(n, m, best) && forall k: nat :: Majority(n, m, k) ==> k <= best
    ensures Step(n, m).log.committed == if best > n.log.committed && TermAt(n.log, best) == n.term then best else n.log.committed
  {
    hide Majority;
    hide HasQuorum;
    hide Commits;
    hide Matches;
    var t := Tallied(n, m);
    TalliedIs(n, m);
    assert |t.pr| == |t.pr.Keys| == |n.pr.Keys| == |n.pr|;
    assert n.cfg.voters != [] by { assert m.from in n.pr.Keys && |n.pr| == |n.pr.Keys|; }
    forall k: nat ensures HasQuorum(Matches(t), k, Quorum(t.cfg)) <==> Majority(n, m, k) { HoldersAreKnown(n, m, k); }
    assert t.cfg == n.cfg by { HoldersAreKnown(n, m, best); }
    hide Tallied;
    CommitAdvances(t, best);
    AcceptanceIs(n, m);
    hide Step;
    var b := if Commits(t) then BroadcastAppend(MaybeCommit(t)) else t;
    BroadcastKeeps(MaybeCommit(t));
    SendKeeps(b, m.from);
    hide BroadcastAppend;
    hide SendAppend;
  }
}
