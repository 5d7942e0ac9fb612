/** What a leader does in office keeps the invariant about commitment: it sends runs of its own log and
    commit indices it may know of, and commits only what a quorum claims. */
module LeaderSteps {
  import opened Bytes
  import opened RaftTypes
  import opened LogSpec
  import opened LogTheorems
  import opened ProgressSpec
  import opened NodeSpec
  import opened Canon
  import opened Acceptance
  import opened Claims
  import opened Votes
  import opened NodeEffects
  import opened Commitment

  /** A leader on record whose log is its term's. */
  ghost predicate InOfficeOk(cfg: Config, net: set<Message>, e: Elections, chain: Chains, n: Node) {
    && n.role == Leader && n.cfg == cfg && n.id in cfg.voters
    && NodeOk(cfg, net, e, chain, n)
    && n.term in e.winner && e.winner[n.term] == n.id && n.term in chain && Logical(n.log) == chain[n.term]
  }

  ghost predicate NetOk(cfg: Config, net: set<Message>, e: Elections, chain: Chains) {
    forall m :: m in net ==> MessageOk(cfg, net, e, chain, m)
  }

  /** A message that n may send. */
  ghost predicate MaySend(cfg: Config, net: set<Message>, e: Elections, chain: Chains, n: Node, m: Message) {
    MessageOk(cfg, net, e, chain, m) && (IsClaim(m) ==> m.from == n.id && m.term == n.term)
  }

  /** Nothing but messages, progress and the commit index changed, and all of it is in order. */
  ghost predicate LeadsOn(cfg: Config, net: set<Message>, e: Elections, chain: Chains, n: Node, n': Node) {
    && n' == n.(log := n'.log, pr := n'.pr, msgs := n'.msgs) && SameEntries(n.log, n'.log)
    && InOfficeOk(cfg, net, e, chain, n')
    && forall m :: m in n'.msgs ==> m in n.msgs || MaySend(cfg, net, e, chain, n, m)
  }

  lemma {:induction false} LeadsOnTwice(cfg: Config, net: set<Message>, e: Elections, chain: Chains, n: Node, n1: Node, n2: Node)
    requires LeadsOn(cfg, net, e, chain, n, n1) && LeadsOn(cfg, net, e, chain, n1, n2)
    ensures LeadsOn(cfg, net, e, chain, n, n2)
  {
    hide InOfficeOk;
    hide MessageOk;
    forall m | m in n2.msgs && m !in n.msgs ensures MaySend(cfg, net, e, chain, n, m) {
      if m !in n1.msgs { assert MaySend(cfg, net, e, chain, n1, m); }
    }
  }

  // ----- sending -----

  lemma {:induction false} RunIsFull(l: Log, next: nat, es: seq<Entry>)
    requires Valid(l) && 1 <= next <= LastIndex(l) + 1 && RunFrom(es, Logical(l), next)
    ensures RunFull(Logical(l), next - 1, TermAt(l, next - 1), es)
  {
    LogicalNumbered(l);
    if next > 1 { TermRefines(l, next - 1); }
    assert es == [] ==> Logical(l)[next - 1..next - 1] == [];
  }

  lemma {:induction false} BatchIsFull(n: Node, to: NodeId, p: Progress)
    requires Valid(n.log) && Sends(n, p) && p.nextIndex <= LastIndex(n.log) + 1
    ensures var m := AppendTo(n, to, p); RunFull(Logical(n.log), m.index, m.logTerm, m.entries)
  {
    hide Slice;
    hide RunFull;
    hide RunFrom;
    hide TermAt;
    hide Logical;
    hide Numbered;
    SliceIsPrefix(n.log, p.nextIndex, LastIndex(n.log) + 1, n.cfg.maxSize);
    RunIsFull(n.log, p.nextIndex, Batch(n, p));
  }

  lemma {:induction false} CommitIsKnown(cfg: Config, net: set<Message>, e: Elections, chain: Chains, n: Node)
    requires NodeOk(cfg, net, e, chain, n)
    ensures CommitKnown(cfg, net, chain, n.term, n.log.committed)
  {
    var log, i := Logical(n.log), n.log.committed;
    if i != 0 {
      var u: nat, k: nat :| Committed(cfg, net, chain, u, k) && u <= n.term && i <= k && log[..Min(i, |log|)] <= chain[u];
    }
  }

  lemma {:induction false} AppendMaySend(cfg: Config, net: set<Message>, e: Elections, chain: Chains, n: Node, to: NodeId)
    requires InOfficeOk(cfg, net, e, chain, n) && to in n.pr && Sends(n, n.pr[to])
    ensures MaySend(cfg, net, e, chain, n, AppendTo(n, to, n.pr[to]))
  {
    hide Sends;
    hide Batch;
    assert PeerOk(net, n, to);
    BatchIsFull(n, to, n.pr[to]);
    CommitIsKnown(cfg, net, e, chain, n);
  }

  lemma {:induction false} SendAppendLeads(cfg: Config, net: set<Message>, e: Elections, chain: Chains, n: Node, to: NodeId)
    requires InOfficeOk(cfg, net, e, chain, n)
    ensures LeadsOn(cfg, net, e, chain, n, SendAppend(n, to))
  {
    hide Sends;
    hide Batch;
    hide CommitOk;
    hide MessageOk;
    var n' := SendAppend(n, to);
    forall v | v in n'.pr ensures PeerOk(net, n', v) { assert PeerOk(net, n, v); }
    if to in n.pr && Sends(n, n.pr[to]) { AppendMaySend(cfg, net, e, chain, n, to); }
  }

  lemma {:induction false} BroadcastAppendLeads(cfg: Config, net: set<Message>, e: Elections, chain: Chains, n: Node)
    requires InOfficeOk(cfg, net, e, chain, n)
    ensures LeadsOn(cfg, net, e, chain, n, BroadcastAppend(n))
  {
    hide Batch;
    hide Slice;
    hide CommitOk;
    hide MessageOk;
    var n' := BroadcastAppend(n);
    forall v | v in n'.pr ensures PeerOk(net, n', v) { assert PeerOk(net, n, v); }
    forall m | m in n'.msgs && m !in n.msgs ensures MaySend(cfg, net, e, chain, n, m) {
      var id :| id in n.pr && id != n.id && Sends(n, n.pr[id]) && m == AppendTo(n, id, n.pr[id]);
      AppendMaySend(cfg, net, e, chain, n, id);
    }
    assert n'.pr.Keys == n.pr.Keys;
  }

  lemma {:induction false} HeartbeatLeads(cfg: Config, net: set<Message>, e: Elections, chain: Chains, n: Node)
    requires InOfficeOk(cfg, net, e, chain, n)
    ensures LeadsOn(cfg, net, e, chain, n, BroadcastHeartbeat(n))
  {
    CommitIsKnown(cfg, net, e, chain, n);
    hide CommitKnown;
    hide CommitOk;
    var n' := BroadcastHeartbeat(n);
    forall v | v in n'.pr ensures PeerOk(net, n', v) { assert PeerOk(net, n, v); }
    forall m | m in n'.msgs && m !in n.msgs ensures MaySend(cfg, net, e, chain, n, m) {
      assert exists id :: id in n.pr && m == HeartbeatTo(n, id);
    }
  }

  // ----- progress -----

  lemma {:induction false} ProgressLeads(cfg: Config, net: set<Message>, e: Elections, chain: Chains, n: Node, v: NodeId, p: Progress)
    requires InOfficeOk(cfg, net, e, chain, n) && v in n.pr && PeerOk(net, n.(pr := n.pr[v := p]), v)
    ensures LeadsOn(cfg, net, e, chain, n, n.(pr := n.pr[v := p]))
  {
    hide CommitOk;
    var n' := n.(pr := n.pr[v := p]);
    forall w | w in n'.pr ensures PeerOk(net, n', w) { assert w != v ==> PeerOk(net, n, w); }
    assert n'.pr.Keys == n.pr.Keys;
  }

  lemma {:induction false} UnreachableLeads(cfg: Config, net: set<Message>, e: Elections, chain: Chains, n: Node, peer: NodeId)
    requires InOfficeOk(cfg, net, e, chain, n)
    ensures LeadsOn(cfg, net, e, chain, n, Unreachable(n, peer))
  {
    if peer in n.pr {
      assert PeerOk(net, n, peer);
      ProgressLeads(cfg, net, e, chain, n, peer, BecomeProbe(n.pr[peer]));
    } else {
      assert n.pr == n.pr;
    }
  }

  /** A reply of the leader's own term speaks of its log. */
  lemma {:induction false} ReplyInside(cfg: Config, net: set<Message>, e: Elections, chain: Chains, n: Node, m: Message)
    requires InOfficeOk(cfg, net, e, chain, n) && MessageOk(cfg, net, e, chain, m) && m.typ == MsgAppResp && m.term == n.term
    ensures m.index <= LastIndex(n.log)
  {
    LogicalNumbered(n.log);
  }

  lemma {:induction false} RejectedLeads(cfg: Config, net: set<Message>, e: Elections, chain: Chains, n: Node, m: Message)
    requires InOfficeOk(cfg, net, e, chain, n) && MessageOk(cfg, net, e, chain, m)
    requires m.typ == MsgAppResp && m.term == n.term && m.from in n.pr
    ensures LeadsOn(cfg, net, e, chain, n, AppendRejected(n, m))
  {
    ReplyInside(cfg, net, e, chain, n, m);
    assert PeerOk(net, n, m.from);
    var p := BecomeProbe(MaybeDecr(n.pr[m.from], m.index, m.rejectHint));
    var n1 := n.(pr := n.pr[m.from := p]);
    assert PeerOk(net, n1, m.from);
    hide MessageOk;
    hide PeerOk;
    ProgressLeads(cfg, net, e, chain, n, m.from, p);
    SendAppendLeads(cfg, net, e, chain, n1, m.from);
    hide SendAppend;
    LeadsOnTwice(cfg, net, e, chain, n, n1, SendAppend(n1, m.from));
  }

  // ----- committing -----

  /** Among two or more there is another one. */
  lemma {:induction false} SomeOther(s: set<NodeId>, x: NodeId) returns (v: NodeId)
    requires |s| >= 2
    ensures v in s && v != x
  {
    if s - {x} == {} {
      SubsetCount(s, {x});
      assert false;
    }
    v :| v in s - {x};
  }

  /** What the leader counts as held is claimed. */
  lemma {:induction false} HeldIsClaimed(cfg: Config, net: set<Message>, e: Elections, chain: Chains, n: Node, v: NodeId, k: nat)
    requires InOfficeOk(cfg, net, e, chain, n) && v in n.pr && v != n.id && 1 <= k <= n.pr[v].matchIndex
    ensures ClaimedBy(net, v, n.term, k) && k <= LastIndex(n.log)
    ensures NetOk(cfg, net, e, chain) ==> ClaimedBy(net, n.id, n.term, k)
  {
    hide CommitOk;
    assert PeerOk(net, n, v);
    var m :| m in net && m.typ == MsgAppResp && !m.reject && m.from == v && m.term == n.term && m.index == n.pr[v].matchIndex;
    assert IsClaim(m) && End(m) >= k;
    if NetOk(cfg, net, e, chain) {
      assert MessageOk(cfg, net, e, chain, m);
      var a :| a in net && a.typ == MsgApp && a.term == n.term && End(a) == m.index;
      assert MessageOk(cfg, net, e, chain, a);
      assert IsClaim(a);
    }
  }

  lemma {:induction false} QuorumClaims(cfg: Config, net: set<Message>, e: Elections, chain: Chains, n: Node)
    requires InOfficeOk(cfg, net, e, chain, n) && NetOk(cfg, net, e, chain) && Quorum(cfg) >= 2 && Commits(n)
    ensures var k := QuorumIndex(Matches(n), Quorum(cfg)); Committed(cfg, net, chain, n.term, k) && k <= LastIndex(n.log)
  {
    var held := Matches(n);
    var k := QuorumIndex(held, Quorum(cfg));
    assert IsQuorumIndex(held, k, Quorum(cfg));
    var holders, backers := Holders(held, k), Backers(cfg, net, n.term, k);
    var v := SomeOther(holders, n.id);
    HeldIsClaimed(cfg, net, e, chain, n, v, k);
    forall w | w in holders ensures w in backers {
      if w != n.id { HeldIsClaimed(cfg, net, e, chain, n, w, k); }
    }
    SubsetCount(holders, backers);
    LogicalNumbered(n.log);
    TermRefines(n.log, k);
  }

  lemma {:induction false} OwnCommit(cfg: Config, net: set<Message>, chain: Chains, t: nat, k: nat)
    requires Committed(cfg, net, chain, t, k)
    ensures CommitOk(cfg, net, chain, t, chain[t], k)
  {
    assert chain[t][..Min(k, |chain[t]|)] <= chain[t];
  }

  lemma {:induction false} CommitIndexLeads(cfg: Config, net: set<Message>, e: Elections, chain: Chains, n: Node, k: nat)
    requires InOfficeOk(cfg, net, e, chain, n) && CommitOk(cfg, net, chain, n.term, chain[n.term], k)
    ensures LeadsOn(cfg, net, e, chain, n, n.(log := n.log.(committed := k)))
  {
    hide CommitOk;
    hide MessageOk;
    var n' := n.(log := n.log.(committed := k));
    forall v | v in n'.pr ensures PeerOk(net, n', v) { assert PeerOk(net, n, v); }
  }

  lemma {:induction false} CommitLeads(cfg: Config, net: set<Message>, e: Elections, chain: Chains, n: Node)
    requires InOfficeOk(cfg, net, e, chain, n) && NetOk(cfg, net, e, chain) && Quorum(cfg) >= 2 && Commits(n)
    ensures LeadsOn(cfg, net, e, chain, n, MaybeCommit(n))
  {
    hide LeadsOn;
    hide Committed;
    hide CommitOk;
    hide NetOk;
    hide QuorumIndex;
    QuorumClaims(cfg, net, e, chain, n);
    var k := QuorumIndex(Matches(n), Quorum(cfg));
    OwnCommit(cfg, net, chain, n.term, k);
    CommitIndexLeads(cfg, net, e, chain, n, k);
  }

  lemma {:induction false} AckedLeads(cfg: Config, net: set<Message>, e: Elections, chain: Chains, n: Node, m: Message)
    requires InOfficeOk(cfg, net, e, chain, n) && MessageOk(cfg, net, e, chain, m) && m in net
    requires m.typ == MsgAppResp && !m.reject && m.term == n.term && m.from in n.pr
    ensures var p := Update(n.pr[m.from], m.index);
            LeadsOn(cfg, net, e, chain, n, n.(pr := n.pr[m.from := if p.state == Probe then BecomeReplicate(p) else p]))
  {
    ReplyInside(cfg, net, e, chain, n, m);
    assert PeerOk(net, n, m.from);
    var p := Update(n.pr[m.from], m.index);
    var q := if p.state == Probe then BecomeReplicate(p) else p;
    assert AckSent(net, m.from, n.term, m.index);
    assert PeerOk(net, n.(pr := n.pr[m.from := q]), m.from);
    hide PeerOk;
    ProgressLeads(cfg, net, e, chain, n, m.from, q);
  }

  lemma {:induction false} AcceptedLeads(cfg: Config, net: set<Message>, e: Elections, chain: Chains, n: Node, m: Message)
    requires InOfficeOk(cfg, net, e, chain, n) && NetOk(cfg, net, e, chain) && Quorum(cfg) >= 2
    requires m in net && m.typ == MsgAppResp && !m.reject && m.term == n.term && m.from in n.pr
    ensures LeadsOn(cfg, net, e, chain, n, AppendAccepted(n, m))
  {
    AckedLeads(cfg, net, e, chain, n, m);
    var p := Update(n.pr[m.from], m.index);
    var n1 := n.(pr := n.pr[m.from := if p.state == Probe then BecomeReplicate(p) else p]);
    var n2 := if Commits(n1) then BroadcastAppend(MaybeCommit(n1)) else n1;
    assert LeadsOn(cfg, net, e, chain, n, n2) by {
      if Commits(n1) {
        CommitLeads(cfg, net, e, chain, n1);
        BroadcastAppendLeads(cfg, net, e, chain, MaybeCommit(n1));
        hide LeadsOn;
        LeadsOnTwice(cfg, net, e, chain, n, n1, MaybeCommit(n1));
        LeadsOnTwice(cfg, net, e, chain, n, MaybeCommit(n1), n2);
      }
    }
    SendAppendLeads(cfg, net, e, chain, n2, m.from);
    LeadsOnTwice(cfg, net, e, chain, n, n2, SendAppend(n2, m.from));
  }

  /** Everything a leader does with a message of its term, other than taking a proposal. */
  lemma {:induction false} StepLeads(cfg: Config, net: set<Message>, e: Elections, chain: Chains, n: Node, m: Message)
    requires InOfficeOk(cfg, net, e, chain, n) && NetOk(cfg, net, e, chain) && Quorum(cfg) >= 2
    requires m in net && m.typ != MsgPropose && m.term == n.term
    ensures LeadsOn(cfg, net, e, chain, n, StepLeader(n, m))
  {
    if m.typ == MsgAppResp && m.from in n.pr {
      if m.reject { RejectedLeads(cfg, net, e, chain, n, m); } else { AcceptedLeads(cfg, net, e, chain, n, m); }
    } else if m.typ == MsgHeartbeatResp {
      SendAppendLeads(cfg, net, e, chain, n, m.from);
    }
  }
}
