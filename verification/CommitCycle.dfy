/** The Ready cycle and crashes keep the invariant about commitment, and what is handed to the state
    machine is committed. */
module CommitCycle {
  import opened Bytes
  import opened RaftTypes
  import opened LogSpec
  import opened LogTheorems
  import opened WalSpec
  import opened NodeSpec
  import opened Cluster
  import opened Canon
  import opened Claims
  import opened Votes
  import opened Replication
  import opened Commitment

  // ----- handing out -----

  lemma {:induction false} NextIsSlice(l: Log)
    requires NextCommitted(l) != []
    ensures l.applied < l.committed <= LastIndex(l)
    ensures Slice(l, l.applied + 1, l.committed + 1, NO_LIMIT) == Some(NextCommitted(l))
  {
    hide Cut;
    hide WindowPart;
    hide StoragePart;
  }

  /** What is next to apply is a run of the log that ends at or below the commit index. */
  lemma {:induction false} NextIsRun(l: Log, en: Entry)
    requires Valid(l) && en in NextCommitted(l)
    ensures 1 <= en.index <= l.committed <= |Logical(l)| && Logical(l)[en.index - 1] == en
  {
    hide Slice;
    hide NextCommitted;
    NextIsSlice(l);
    LogicalNumbered(l);
    SliceIsPrefix(l, l.applied + 1, l.committed + 1, NO_LIMIT);
    var r := NextCommitted(l);
    var j :| 0 <= j < |r| && r[j] == en;
    assert r[j] == Logical(l)[l.applied + j];
  }

  lemma {:induction false} BelowCommit(cfg: Config, net: set<Message>, chain: Chains, term: nat, log: seq<Entry>, i: nat, en: Entry)
    requires CommitOk(cfg, net, chain, term, log, i) && 1 <= en.index <= i <= |log| && log[en.index - 1] == en
    ensures HandedOk(cfg, net, chain, en)
  {
    var u: nat, k: nat :| Committed(cfg, net, chain, u, k) && u <= term && i <= k && log[..Min(i, |log|)] <= chain[u];
    assert log[..i][en.index - 1] == en;
  }

  lemma {:induction false} NextIsCommitted(cfg: Config, net: set<Message>, e: Elections, chain: Chains, n: Node, en: Entry)
    requires NodeOk(cfg, net, e, chain, n) && en in NextCommitted(n.log)
    ensures HandedOk(cfg, net, chain, en)
  {
    hide NextCommitted;
    hide CommitOk;
    hide HandedOk;
    NextIsRun(n.log, en);
    BelowCommit(cfg, net, chain, n.term, Logical(n.log), n.log.committed, en);
  }

  lemma {:induction false} PollKeepsCommit(cfg: Config, net: set<Message>, e: Elections, chain: Chains, x: NodeId, h: Host)
    requires HostOk(cfg, net, e, chain, x, h) && h.phase.Idle?
    ensures HostOk(cfg, net, e, chain, x, HostAfter(h, Poll(x)))
  {
    var h' := HostAfter(h, Poll(x));
    assert Pending(h') == Pending(h);
    forall en | en in h'.phase.rd.committed ensures HandedOk(cfg, net, chain, en) {
      NextIsCommitted(cfg, net, e, chain, h.node, en);
    }
    hide NextCommitted;
    hide CommitOk;
    hide MessageOk;
    hide HandedOk;
    assert NodeOk(cfg, net, e, chain, h'.node) by { PeersSame(cfg, net, h.node, h'.node); }
  }

  // ----- another layering of the same log -----

  lemma {:induction false} PeersSame(cfg: Config, net: set<Message>, n: Node, n': Node)
    requires PeersOk(cfg, net, n) && LastIndex(n'.log) == LastIndex(n.log)
    requires n'.role == n.role && n'.pr == n.pr && n'.id == n.id && n'.term == n.term
    ensures PeersOk(cfg, net, n')
  {
    if n.role == Leader {
      forall v | v in n'.pr ensures PeerOk(net, n', v) { assert PeerOk(net, n, v); }
    }
  }

  lemma {:induction false} SameLogOk(cfg: Config, net: set<Message>, e: Elections, chain: Chains, n: Node, n': Node)
    requires NodeOk(cfg, net, e, chain, n) && Valid(n'.log) && Logical(n'.log) == Logical(n.log) && n'.log.committed == n.log.committed
    requires n'.role == n.role && n'.pr == n.pr && n'.id == n.id && n'.term == n.term
    ensures NodeOk(cfg, net, e, chain, n')
  {
    LogicalNumbered(n.log);
    LogicalNumbered(n'.log);
    PeersSame(cfg, net, n, n');
  }

  lemma {:induction false} SaveEntriesKeepsCommit(cfg: Config, net: set<Message>, e: Elections, chain: Chains, x: NodeId, h: Host)
    requires HostOk(cfg, net, e, chain, x, h) && h.phase.Polled? && h.phase.rd.entries <= h.node.log.window
    ensures HostOk(cfg, net, e, chain, x, HostAfter(h, SaveEntries(x)))
  {
    SavedHost(h, x);
    PersistWritesThrough(h.node.log, h.phase.rd.entries);
    hide HostAfter;
    hide Persist;
    hide FileAfter;
    hide MessageOk;
    hide HandedOk;
    var h' := HostAfter(h, SaveEntries(x));
    SameLogOk(cfg, net, e, chain, h.node, h'.node);
    hide NodeOk;
    assert h'.disk.term == h.disk.term by { SavedDisk(h, x); }
  }

  lemma {:induction false} SavedDisk(h: Host, x: NodeId)
    requires h.phase.Polled?
    ensures HostAfter(h, SaveEntries(x)).disk.term == h.disk.term
  {
    hide FileAfter;
    hide Persist;
  }

  lemma {:induction false} SaveHardStateKeepsCommit(cfg: Config, net: set<Message>, e: Elections, chain: Chains, x: NodeId, h: Host)
    requires HostOk(cfg, net, e, chain, x, h) && h.phase.Saved? && h.phase.rd.term >= h.disk.term
    ensures HostOk(cfg, net, e, chain, x, HostAfter(h, SaveHardState(x)))
  {
    hide NodeOk;
    hide MessageOk;
    hide HandedOk;
    assert Pending(HostAfter(h, SaveHardState(x))) == Pending(h);
  }

  lemma {:induction false} FinishKeepsCommit(cfg: Config, net: set<Message>, e: Elections, chain: Chains, x: NodeId, h: Host)
    requires HostOk(cfg, net, e, chain, x, h) && h.phase.Synced?
    requires h.node.readyLast == LastOf(h.phase.rd.entries) && WrittenThrough(h.node.log, h.phase.rd.entries)
    ensures HostOk(cfg, net, e, chain, x, HostAfter(h, Finish(x)))
  {
    AdvanceKeepsLogical(h.node, h.phase.rd.entries);
    AdvanceKeepsRest(h.node);
    hide Advance;
    hide MessageOk;
    hide HandedOk;
    SameLogOk(cfg, net, e, chain, h.node, Advance(h.node));
    hide NodeOk;
    assert Pending(HostAfter(h, Finish(x))) <= Pending(h);
  }

  lemma {:induction false} AdvanceKeepsRest(n: Node)
    ensures var n' := Advance(n);
            n'.pr == n.pr && n'.id == n.id && n'.log.committed == n.log.committed && n'.msgs == n.msgs && n'.role == n.role && n'.term == n.term
  {
  }

  // ----- crashes -----

  lemma {:induction false} RestartKeepsCommit(cfg: Config, net: set<Message>, e: Elections, chain: Chains, x: NodeId, h: Host, disk: Disk)
    requires HostOk(cfg, net, e, chain, x, h) && disk.term >= h.disk.term && Valid(Restarted(h, disk).node.log)
    ensures HostOk(cfg, net, e, chain, x, Restarted(h, disk))
  {
    hide Replay;
    assert Pending(Restarted(h, disk)) == {};
  }
}
