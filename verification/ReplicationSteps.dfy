/** Every action of a clean run keeps the logs in order; the chain of a term starts with its leader's
    election and grows with the leader's log. */
module ReplicationSteps {
  import opened Bytes
  import opened RaftTypes
  import opened LogSpec
  import opened LogTheorems
  import WalSpec
  import opened NodeSpec
  import opened Cluster
  import opened Canon
  import opened Claims
  import opened Votes
  import opened NodeEffects
  import opened ElectionSteps
  import opened Replication

  // ----- one host changes, the others see longer chains -----

  /** Chains that stay in order, and no other term's chain changes. */
  ghost predicate OnlyGrows(chain: Chains, chain': Chains, t: nat) {
    ChainStep(chain, chain') && ChainsOk(chain') && forall u :: u in chain && u != t ==> chain'[u] == chain[u]
  }

  lemma {:induction false} BystanderLog(chain: Chains, chain': Chains, t: nat, h: Host)
    requires HostLog(chain, h) && OnlyGrows(chain, chain', t) && (h.node.role == Leader ==> h.node.term != t)
    ensures HostLog(chain', h)
  {
    StepGrows(chain, chain');
    LogOkGrows(chain, chain', h.node.log);
    hide LogOk;
    hide ChainsOk;
    hide ChainStep;
  }

  /** One host changes while the chain of term t grows on its behalf. */
  lemma {:induction false} HostReplaced(c: State, e: Elections, chain: Chains, e': Elections, chain': Chains, x: NodeId, t: nat, h': Host)
    requires LogInv(c, e, chain) && x in c.hosts && OnlyGrows(chain, chain', t) && chain'.Keys == e'.winner.Keys
    requires HostLog(chain', h')
    requires forall y :: y in c.hosts && y != x && c.hosts[y].node.role == Leader ==> c.hosts[y].node.term != t
    ensures LogInv(c.(hosts := c.hosts[x := h']), e', chain')
  {
    hide HostLog;
    forall y | y in c.hosts && y != x ensures HostLog(chain', c.hosts[y]) {
      BystanderLog(chain, chain', t, c.hosts[y]);
    }
    StepGrows(chain, chain');
    forall m | m in c.net ensures AppOk(chain', m) { AppOkGrows(chain, chain', m); }
  }

  lemma {:induction false} HostReplacedOnly(c: State, e: Elections, chain: Chains, x: NodeId, h': Host)
    requires LogInv(c, e, chain) && x in c.hosts && HostLog(chain, h')
    ensures LogInv(c.(hosts := c.hosts[x := h']), e, chain)
  {
    hide HostLog;
    hide AppOk;
  }

  // ----- the leader's own entries -----

  lemma {:induction false} LongerChains(chain: Chains, t: nat, l: Log, l': Log, e: Entry)
    requires ChainsOk(chain) && t in chain && e.term == t
    requires LogOk(chain, l) && chain[t] == Logical(l) && AppendedOwn(l, l', e)
    ensures OnlyGrows(chain, chain[t := Logical(l')], t) && LogOk(chain[t := Logical(l')], l')
  {
    var chain' := chain[t := Logical(l')];
    if l' == l {
      assert chain' == chain;
    } else {
      LogicalNumbered(l');
      LongerChain(chain, t, e);
      CanonicalGrows(chain, chain', l.stored);
    }
  }

  lemma {:induction false} AppOkGrows(chain: Chains, chain': Chains, m: Message)
    requires AppOk(chain, m) && Grows(chain, chain')
    ensures AppOk(chain', m)
  {
  }

  lemma {:induction false} LeaderWithLongerLog(chain: Chains, h: Host, n1: Node, e: Entry)
    requires HostLog(chain, h) && h.node.role == Leader
    requires n1 == h.node.(log := n1.log, pr := n1.pr) && AppendedOwn(h.node.log, n1.log, e)
    requires var chain' := chain[h.node.term := Logical(n1.log)];
             ChainStep(chain, chain') && LogOk(chain', n1.log)
    ensures HostLog(chain[h.node.term := Logical(n1.log)], h.(node := n1))
  {
    hide Canonical;
    hide WalSpec.Recovers;
    hide AppOk;
    var chain' := chain[h.node.term := Logical(n1.log)];
    StepGrows(chain, chain');
    assert Pending(h.(node := n1)) == Pending(h);
    forall m | m in Pending(h) ensures AppOk(chain', m) { AppOkGrows(chain, chain', m); }
    hide Grows;
    hide ChainStep;
  }

  /** The host's side of a proposal, in any phase of the Ready cycle. */
  lemma {:induction false} LeaderAppends(chain: Chains, h: Host, data: seq<Byte>) returns (chain': Chains)
    requires ChainsOk(chain) && HostLog(chain, h)
    requires h.node.role == Leader && h.node.term >= 1 && h.node.id in h.node.pr
    ensures OnlyGrows(chain, chain', h.node.term) && chain'.Keys == chain.Keys
    ensures HostLog(chain', h.(node := Propose(h.node, data)))
  {
    hide BroadcastAppend;
    hide AppendOwn;
    var n := h.node;
    var e := Entry(n.term, LastIndex(n.log) + 1, 0, data);
    var n1 := AppendOwn(n, data);
    AppendOwnOnlyAppends(n, data);
    LongerChains(chain, n.term, n.log, n1.log, e);
    chain' := chain[n.term := Logical(n1.log)];
    LeaderWithLongerLog(chain, h, n1, e);
    BroadcastAppendIsRoutine(n1);
    QuietKeeps(chain', h.(node := n1), Propose(n, data));
  }

  // ----- taking office -----

  /** The winner before it broadcasts: in office, perhaps with one entry of its own term. */
  ghost predicate TookOffice(n: Node, n': Node)
    requires Valid(n.log)
  {
    && n' == n.(role := Leader, lead := n'.lead, pr := n'.pr, log := n'.log)
    && AppendedOwn(n.log, n'.log, Entry(n.term, LastIndex(n.log) + 1, 0, []))
  }

  lemma {:induction false} NotAppended(l: Log, e: Entry)
    requires Valid(l)
    ensures AppendedOwn(l, l, e)
  {
  }

  lemma {:induction false} BecomeLeaderTakesOffice(n: Node) returns (n1: Node)
    requires Valid(n.log) && n.term >= 1
    ensures TookOffice(n, n1) && BecomeLeader(n) == BroadcastAppend(n1)
  {
    hide BroadcastAppend;
    hide AppendedOwn;
    n1 := InOffice(n);
    AppendOwnAppends(n.log, Entry(n.term, LastIndex(n.log) + 1, 0, []));
    NotAppended(n.log, Entry(n.term, LastIndex(n.log) + 1, 0, []));
    hide Append;
  }

  /** The winner's log becomes the chain of its term. */
  lemma {:induction false} OfficeChain(chain: Chains, n: Node, n1: Node)
    requires ChainsOk(chain) && n.term !in chain && LogOk(chain, n.log) && n.term >= 1 && TookOffice(n, n1)
    ensures var chain' := chain[n.term := Logical(n1.log)];
            OnlyGrows(chain, chain', n.term) && LogOk(chain', n1.log)
  {
    var own := if n1.log == n.log then [] else [Entry(n.term, LastIndex(n.log) + 1, 0, [])];
    LogicalNumbered(n1.log);
    assert Logical(n.log) + own == Logical(n1.log);
    NewChain(chain, n.term, Logical(n.log), own);
    CanonicalGrows(chain, chain[n.term := Logical(n1.log)], n.log.stored);
  }

  lemma {:induction false} WinnerLog(chain: Chains, h: Host, n1: Node)
    requires HostLog(chain, h) && h.phase.Idle? && h.node.term !in chain && TookOffice(h.node, n1)
    requires var chain' := chain[h.node.term := Logical(n1.log)];
             ChainStep(chain, chain') && LogOk(chain', n1.log)
    ensures HostLog(chain[h.node.term := Logical(n1.log)], h.(node := n1))
  {
    hide Canonical;
    hide WalSpec.Recovers;
    hide AppOk;
    var chain' := chain[h.node.term := Logical(n1.log)];
    StepGrows(chain, chain');
    assert Pending(h.(node := n1)) == Pending(h);
    forall m | m in Pending(h) ensures AppOk(chain', m) { AppOkGrows(chain, chain', m); }
    hide Grows;
    hide ChainStep;
  }

  /** The host's side of an election. */
  lemma {:induction false} OfficeKeepsLog(chain: Chains, h: Host) returns (chain': Chains)
    requires ChainsOk(chain) && HostLog(chain, h) && h.phase.Idle? && h.node.term !in chain && h.node.term >= 1
    ensures OnlyGrows(chain, chain', h.node.term) && chain'.Keys == chain.Keys + {h.node.term}
    ensures HostLog(chain', h.(node := BecomeLeader(h.node)))
  {
    hide BroadcastAppend;
    hide BecomeLeader;
    var n1 := BecomeLeaderTakesOffice(h.node);
    OfficeChain(chain, h.node, n1);
    chain' := chain[h.node.term := Logical(n1.log)];
    WinnerLog(chain, h, n1);
    BroadcastAppendIsRoutine(n1);
    QuietKeeps(chain', h.(node := n1), BecomeLeader(h.node));
  }

  // ----- actions -----

  /** Terms in office are recorded for one host each. */
  lemma {:induction false} LeadersOnRecord(cfg: Config, c: State, e: Elections, y: NodeId)
    requires VoteInv(cfg, c, e) && y in c.hosts && c.hosts[y].node.role == Leader
    ensures var t := c.hosts[y].node.term; t >= 1 && t in e.winner && e.winner[t] == y
  {
    assert HostVotes(cfg, c.net, e, y, c.hosts[y]);
  }

  lemma {:induction false} ProposeKeepsLogs(cfg: Config, c: State, e: Elections, chain: Chains, x: NodeId, data: seq<Byte>) returns (chain': Chains)
    requires VoteInv(cfg, c, e) && LogInv(c, e, chain) && x in c.hosts
    ensures ChainStep(chain, chain')
    ensures LogInv(c.(hosts := c.hosts[x := c.hosts[x].(node := Propose(c.hosts[x].node, data))]), e, chain')
  {
    hide BroadcastAppend;
    hide AppendOwn;
    hide VoteInv;
    hide HostLog;
    var h := c.hosts[x];
    assert HostLog(chain, h);
    if h.node.role == Leader && h.node.id in h.node.pr {
      LeadersOnRecord(cfg, c, e, x);
      forall y | y in c.hosts && y != x && c.hosts[y].node.role == Leader ensures c.hosts[y].node.term != h.node.term {
        LeadersOnRecord(cfg, c, e, y);
      }
      chain' := LeaderAppends(chain, h, data);
      HostReplaced(c, e, chain, e, chain', x, h.node.term, h.(node := Propose(h.node, data)));
    } else {
      chain' := chain;
      assert c.hosts[x := h] == c.hosts;
    }
  }

  /** The host's side of an election: the last vote is counted and the winner takes office. */
  lemma {:induction false} WinKeepsLog(chain: Chains, h: Host, m: Message) returns (chain': Chains)
    requires ChainsOk(chain) && HostLog(chain, h) && h.phase.Idle? && h.node.term !in chain && h.node.term >= 1
    requires Wins(h.node, m)
    ensures OnlyGrows(chain, chain', h.node.term) && chain'.Keys == chain.Keys + {h.node.term}
    ensures HostLog(chain', h.(node := Step(h.node, m)))
  {
    hide BecomeLeader;
    WinningStep(h.node, m);
    hide Step;
    var counted := h.node.(votes := h.node.votes + [m.from]);
    assert Quiet(h.node, counted);
    QuietKeeps(chain, h, counted);
    chain' := OfficeKeepsLog(chain, h.(node := counted));
  }

  lemma {:induction false} CandidateTerm(cfg: Config, c: State, e: Elections, x: NodeId)
    requires VoteInv(cfg, c, e) && x in c.hosts && c.hosts[x].node.role == Candidate
    ensures c.hosts[x].node.term >= 1
  {
    assert HostVotes(cfg, c.net, e, x, c.hosts[x]);
  }

  lemma {:induction false} ElectionKeepsLogs(cfg: Config, c: State, e: Elections, chain: Chains, x: NodeId, m: Message) returns (chain': Chains)
    requires ValidConfig(cfg) && VoteInv(cfg, c, e) && LogInv(c, e, chain)
    requires Enabled(c, Deliver(x, m)) && Wins(c.hosts[x].node, m)
    ensures ChainStep(chain, chain') && LogInv(Perform(c, Deliver(x, m)), ElectionsAfter(c, e, Deliver(x, m)), chain')
  {
    hide VoteInv;
    hide HostLog;
    hide Step;
    var h := c.hosts[x];
    WinnerIsFirst(cfg, c, e, x, m);
    CandidateTerm(cfg, c, e, x);
    chain' := WinKeepsLog(chain, h, m);
    forall y | y in c.hosts && y != x && c.hosts[y].node.role == Leader ensures c.hosts[y].node.term != h.node.term {
      LeadersOnRecord(cfg, c, e, y);
    }
    HostReplaced(c, e, chain, ElectionsAfter(c, e, Deliver(x, m)), chain', x, h.node.term, h.(node := Step(h.node, m)));
    hide LogInv;
    hide ChainsOk;
  }

  /** A message of the node's own term that neither proposes to a leader nor elects a candidate. */
  lemma {:induction false} DispatchKeepsLog(chain: Chains, h: Host, m: Message)
    requires ChainsOk(chain) && HostLog(chain, h) && h.phase.Idle? && AppOk(chain, m) && m.term == h.node.term
    requires !Wins(h.node, m) && !(h.node.role == Leader && m.typ == MsgPropose)
    ensures HostLog(chain, h.(node := Dispatch(h.node, m)))
  {
    hide StepLeader;
    hide StepCandidate;
    hide StepFollower;
    match h.node.role
    case Leader =>
      StepLeaderIsRoutine(h.node, m);
      QuietKeeps(chain, h, StepLeader(h.node, m));
    case Candidate => LosingKeepsLog(chain, h, m);
    case Follower => FollowerKeepsLog(chain, h, m);
  }

  /** A delivery that makes the host a leader with a longer log, or a new leader. */
  ghost predicate Extends(n: Node, m: Message) {
    Wins(n, m) || (n.role == Leader && m.term == n.term && m.typ == MsgPropose)
  }

  lemma {:induction false} DeliverKeepsLog(chain: Chains, h: Host, m: Message)
    requires ChainsOk(chain) && HostLog(chain, h) && h.phase.Idle? && AppOk(chain, m) && !Extends(h.node, m)
    ensures HostLog(chain, h.(node := Step(h.node, m)))
  {
    hide Dispatch;
    hide StaleReply;
    if m.term > h.node.term {
      var n1 := BecomeFollower(h.node, m.term, 0);
      assert Quiet(h.node, n1);
      QuietKeeps(chain, h, n1);
      DispatchKeepsLog(chain, h.(node := n1), m);
    } else if m.term < h.node.term {
      StaleReplyIsRoutine(h.node, m);
      QuietKeeps(chain, h, StaleReply(h.node, m));
    } else {
      DispatchKeepsLog(chain, h, m);
    }
  }

  /** Whatever changes one host and no chain. */
  lemma {:induction false} HostKeepsLog(cfg: Config, c: State, e: Elections, chain: Chains, a: Action)
    requires |cfg.voters| >= 2 && VoteInv(cfg, c, e) && LogInv(c, e, chain) && Enabled(c, a) && Clean(c, a)
    requires !a.ClientSends? && !a.Send? && !a.ClientProposes? && (a.Deliver? ==> !Extends(c.hosts[a.x].node, a.m))
    ensures HostLog(chain, HostAfter(c.hosts[a.x], a))
  {
    var x, h := a.x, c.hosts[a.x];
    assert h.node.cfg == cfg by { assert HostVotes(cfg, c.net, e, x, h); }
    assert HostLog(chain, h);
    hide VoteInv;
    hide HostLog;
    match a
    case TimerFires(_) => TimeoutKeepsLog(chain, h);
    case Deliver(_, m) => DeliverKeepsLog(chain, h, m);
    case PeerDown(_, peer) => PeerDownKeepsLog(chain, h, peer);
    case Poll(_) => PollKeepsLog(chain, h, x);
    case SaveEntries(_) => SaveEntriesKeepsLog(chain, h, x);
    case SaveHardState(_) => SaveHardStateKeepsLog(chain, h, x);
    case Finish(_) => FinishKeepsLog(chain, h, x);
    case Crash(_) => CrashKeepsLog(chain, h, h.disk);
    case CrashWhileSaving(_, kept) => CutWriteKeepsLog(chain, h, kept);
    case CrashWhileSavingHard(_, kept) =>
      var hs := HardAfter(h.phase.rd, kept);
      CrashKeepsLog(chain, h, h.disk.(term := hs.term, vote := hs.vote));
  }

  lemma {:induction false} PeerDownKeepsLog(chain: Chains, h: Host, peer: NodeId)
    requires HostLog(chain, h)
    ensures HostLog(chain, h.(node := Unreachable(h.node, peer)))
  {
    assert Quiet(h.node, Unreachable(h.node, peer));
    QuietKeeps(chain, h, Unreachable(h.node, peer));
  }

  lemma {:induction false} SendKeepsLogs(c: State, e: Elections, chain: Chains, a: Action)
    requires LogInv(c, e, chain) && Enabled(c, a) && (a.Send? || a.ClientSends?)
    ensures LogInv(Perform(c, a), e, chain)
  {
    hide HostAfter;
    if a.Send? {
      assert HostLog(chain, c.hosts[a.x]) && a.m in Pending(c.hosts[a.x]);
      assert AppOk(chain, a.m);
    }
    hide HostLog;
    hide AppOk;
    hide ChainsOk;
  }

  lemma {:induction false} LocalKeepsLogs(cfg: Config, c: State, e: Elections, chain: Chains, a: Action)
    requires |cfg.voters| >= 2 && VoteInv(cfg, c, e) && LogInv(c, e, chain) && Enabled(c, a) && Clean(c, a)
    requires !a.ClientSends? && !a.Send? && !a.ClientProposes? && (a.Deliver? ==> !Extends(c.hosts[a.x].node, a.m))
    ensures LogInv(Perform(c, a), e, chain)
  {
    HostKeepsLog(cfg, c, e, chain, a);
    hide HostLog;
    hide HostAfter;
    hide VoteInv;
    hide LogInv;
    HostReplacedOnly(c, e, chain, a.x, HostAfter(c.hosts[a.x], a));
  }

  /** A proposal that reaches the leader in a message. */
  lemma {:induction false} ProposedStep(n: Node, m: Message)
    requires n.role == Leader && m.term == n.term && m.typ == MsgPropose
    ensures Step(n, m) == Propose(n, if m.entries == [] then [] else m.entries[0].data)
  {
    hide Propose;
  }

  /** Every action of a clean run. */
  lemma {:induction false} ActionKeepsLogs(cfg: Config, c: State, e: Elections, chain: Chains, a: Action) returns (chain': Chains)
    requires ValidConfig(cfg) && |cfg.voters| >= 2 && VoteInv(cfg, c, e) && LogInv(c, e, chain)
    requires Enabled(c, a) && Clean(c, a)
    ensures ChainStep(chain, chain') && LogInv(Perform(c, a), ElectionsAfter(c, e, a), chain')
    ensures chain' != chain ==> a.ClientProposes? || (a.Deliver? && Extends(c.hosts[a.x].node, a.m))
  {
    hide VoteInv;
    hide LogInv;
    hide Clean;
    hide Wins;
    hide HostAfter;
    chain' := chain;
    assert ChainStep(chain, chain);
    if a.Send? || a.ClientSends? {
      SendKeepsLogs(c, e, chain, a);
    } else if a.ClientProposes? {
      chain' := ProposeKeepsLogs(cfg, c, e, chain, a.x, a.data);
      PerformProposal(c, a);
    } else if a.Deliver? && Wins(c.hosts[a.x].node, a.m) {
      chain' := ElectionKeepsLogs(cfg, c, e, chain, a.x, a.m);
    } else if a.Deliver? && Extends(c.hosts[a.x].node, a.m) {
      var n, m := c.hosts[a.x].node, a.m;
      chain' := ProposeKeepsLogs(cfg, c, e, chain, a.x, if m.entries == [] then [] else m.entries[0].data);
      PerformProposal(c, a);
    } else {
      LocalKeepsLogs(cfg, c, e, chain, a);
    }
  }

  lemma {:induction false} PerformProposal(c: State, a: Action)
    requires Enabled(c, a) && (a.ClientProposes? ||
               (a.Deliver? && c.hosts[a.x].node.role == Leader && a.m.term == c.hosts[a.x].node.term && a.m.typ == MsgPropose))
    ensures var h := c.hosts[a.x];
            var data := if a.ClientProposes? then a.data else if a.m.entries == [] then [] else a.m.entries[0].data;
            Perform(c, a) == c.(hosts := c.hosts[a.x := h.(node := Propose(h.node, data))])
  {
    hide Propose;
    if a.Deliver? { ProposedStep(c.hosts[a.x].node, a.m); }
    hide Step;
  }
}
