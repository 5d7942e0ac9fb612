/** Every action that leaves term and vote intact keeps the votes in order, with the record extended
    where somebody is elected.  Here the cluster has at least two voters; a single voter elects
    itself without asking anybody and is treated apart. */
module ElectionSteps {
  import opened Bytes
  import opened RaftTypes
  import opened LogSpec
  import opened NodeSpec
  import opened Cluster
  import opened Votes
  import opened NodeEffects
  import opened VoteSteps

  // ----- counting -----

  lemma {:induction false} DistinctCount(s: seq<NodeId>)
    requires NoRepeats(s)
    ensures |Elements(s)| == |s|
  {
    if s != [] {
      var k := |s| - 1;
      DistinctCount(s[..k]);
      assert Elements(s) == Elements(s[..k]) + {s[k]};
    }
  }

  lemma {:induction false} MajoritiesMeet(a: set<NodeId>, b: set<NodeId>, all: set<NodeId>) returns (w: NodeId)
    requires a <= all && b <= all && |a| + |b| > |all|
    ensures w in a && w in b
  {
    if a * b == {} {
      assert |a + b| == |a| + |b|;
      SubsetCount(a + b, all);
      assert false;
    }
    w :| w in a * b;
  }

  // ----- the first quorum of a term -----

  /** Over the whole run a node's grants of one term went to one candidate. */
  lemma {:induction false} OneGrantee(cfg: Config, c: State, e: Elections, w: NodeId, x: NodeId, y: NodeId, t: nat)
    requires VoteInv(cfg, c, e) && GrantMsg(w, x, t) in c.net && GrantMsg(w, y, t) in c.net
    ensures x == y
  {
    assert VoteMsgOk(cfg, c.net, GrantMsg(w, x, t));
    assert HostVotes(cfg, c.net, e, w, c.hosts[w]);
    assert IsGrant(GrantMsg(w, x, t)) && IsGrant(GrantMsg(w, y, t));
  }

  /** Whoever was elected in a term granted nobody a vote in it. */
  lemma {:induction false} ElectedGrantsNobody(cfg: Config, c: State, e: Elections, t: nat, z: NodeId)
    requires VoteInv(cfg, c, e) && t in e.winner
    ensures GrantMsg(e.winner[t], z, t) !in c.net
  {
    var y := e.winner[t];
    assert ElectionOk(cfg, c.net, e, t);
    assert HostVotes(cfg, c.net, e, y, c.hosts[y]);
    assert ElectedStays(y, c.hosts[y], c.net, t);
    assert IsGrant(GrantMsg(y, z, t));
  }

  /** A candidate has granted nobody a vote in its term, and was not elected in it before. */
  lemma {:induction false} CandidateGrantsNobody(cfg: Config, c: State, e: Elections, x: NodeId, z: NodeId)
    requires VoteInv(cfg, c, e) && x in c.hosts && c.hosts[x].node.role == Candidate
    ensures GrantMsg(x, z, c.hosts[x].node.term) !in c.net
    ensures var t := c.hosts[x].node.term; t in e.winner ==> e.winner[t] != x
  {
    var g := GrantMsg(x, z, c.hosts[x].node.term);
    assert HostVotes(cfg, c.net, e, x, c.hosts[x]);
    assert g in c.net ==> VoteMsgOk(cfg, c.net, g);
  }

  /** A ballot that reaches a quorum and an earlier election of that term share a voter. */
  lemma {:induction false} CommonVoter(cfg: Config, net: set<Message>, e: Elections, n: Node) returns (w: NodeId)
    requires ValidConfig(cfg) && BallotOk(cfg, net, n) && |n.votes| >= Quorum(cfg)
    requires n.term in e.winner && n.term in e.quorum && ElectionOk(cfg, net, e, n.term)
    ensures w == n.id || GrantMsg(w, n.id, n.term) in net
    ensures w == e.winner[n.term] || GrantMsg(w, e.winner[n.term], n.term) in net
  {
    DistinctCount(n.votes);
    DistinctCount(cfg.voters);
    w := MajoritiesMeet(Elements(n.votes), e.quorum[n.term], Elements(cfg.voters));
  }

  /** A candidate that reaches a quorum is the first to do so in its term. */
  lemma {:induction false} QuorumMeansFirst(cfg: Config, c: State, e: Elections, x: NodeId, votes: seq<NodeId>)
    requires ValidConfig(cfg) && VoteInv(cfg, c, e)
    requires x in c.hosts && c.hosts[x].node.role == Candidate && c.hosts[x].node.id == x
    requires BallotOk(cfg, c.net, c.hosts[x].node.(votes := votes)) && |votes| >= Quorum(cfg)
    ensures c.hosts[x].node.term !in e.winner
  {
    hide HostVotes;
    hide VoteMsgOk;
    var t := c.hosts[x].node.term;
    if t in e.winner {
      var y := e.winner[t];
      var w := CommonVoter(cfg, c.net, e, c.hosts[x].node.(votes := votes));
      CandidateGrantsNobody(cfg, c, e, x, y);
      ElectedGrantsNobody(cfg, c, e, t, x);
      if GrantMsg(w, x, t) in c.net && GrantMsg(w, y, t) in c.net { OneGrantee(cfg, c, e, w, x, y, t); }
    }
  }

  // ----- election -----

  /** The disk of a candidate that somebody granted a vote already holds its candidacy. */
  lemma {:induction false} CandidacyIsOnDisk(cfg: Config, net: set<Message>, e: Elections, x: NodeId, h: Host, g: Message)
    requires HostVotes(cfg, net, e, x, h) && h.node.role == Candidate
    requires VoteMsgOk(cfg, net, g) && IsGrant(g) && g.to == x && g.term == h.node.term
    ensures h.disk.term == h.node.term && h.disk.vote == x
  {
  }

  lemma {:induction false} BallotElects(cfg: Config, net: set<Message>, e: Elections, n: Node)
    requires RecordOk(cfg, net, e) && n.id in cfg.voters && BallotOk(cfg, net, n) && |n.votes| >= Quorum(cfg)
    ensures RecordOk(cfg, net, Won(e, n.id, n.term, Elements(n.votes)))
  {
    var e' := Won(e, n.id, n.term, Elements(n.votes));
    forall t | t in e'.winner ensures ElectionOk(cfg, net, e', t) {
      if t != n.term { assert ElectionOk(cfg, net, e, t); } else { DistinctCount(n.votes); }
    }
  }

  lemma {:induction false} WinnerOk(cfg: Config, net: set<Message>, e: Elections, x: NodeId, h: Host, voters: set<NodeId>, g: Message)
    requires HostVotes(cfg, net, e, x, h) && h.phase.Idle? && h.node.role == Candidate && h.node.term !in e.winner
    requires forall m :: m in net ==> VoteMsgOk(cfg, net, m)
    requires g in net && IsGrant(g) && g.to == x && g.term == h.node.term
    ensures HostVotes(cfg, net, Won(e, x, h.node.term, voters), x, h.(node := h.node.(role := Leader)))
  {
    var e' := Won(e, x, h.node.term, voters);
    var h' := h.(node := h.node.(role := Leader));
    assert Pending(h') == Pending(h);
    CandidacyIsOnDisk(cfg, net, e, x, h, g);
    forall t | t in e'.winner && e'.winner[t] == x ensures ElectedStays(x, h', net, t) {
      if t != h.node.term {
        assert ElectedStays(x, h, net, t);
      } else {
        assert NoGrant(Pending(h) + net, x, t) by {
          forall m | m in Pending(h) + net && IsGrant(m) && m.from == x ensures m.term != t {
            assert VoteMsgOk(cfg, net, m);
          }
        }
      }
    }
  }

  lemma {:induction false} OfficeIsSilent(n: Node)
    ensures Silent(n.(role := Leader), BecomeLeader(n))
  {
    hide BroadcastAppend;
    hide Append;
    BroadcastAppendIsRoutine(InOffice(n));
  }

  /** Someone else's election does not concern a host. */
  lemma {:induction false} BystanderKeeps(cfg: Config, net: set<Message>, e: Elections, x: NodeId, t: nat, voters: set<NodeId>, y: NodeId, h: Host)
    requires HostVotes(cfg, net, e, y, h) && y != x && t !in e.winner
    ensures HostVotes(cfg, net, Won(e, x, t, voters), y, h)
  {
    var e' := Won(e, x, t, voters);
    forall u | u in e'.winner && e'.winner[u] == y ensures ElectedStays(y, h, net, u) {
      assert u in e.winner && e.winner[u] == y;
    }
  }

  lemma {:induction false} WinningStep(n: Node, m: Message)
    requires Wins(n, m)
    ensures Step(n, m) == BecomeLeader(n.(votes := n.votes + [m.from]))
  {
    hide BecomeLeader;
  }

  lemma {:induction false} WinnerIsFirst(cfg: Config, c: State, e: Elections, x: NodeId, m: Message)
    requires ValidConfig(cfg) && VoteInv(cfg, c, e) && Enabled(c, Deliver(x, m)) && Wins(c.hosts[x].node, m)
    ensures c.hosts[x].node.term !in e.winner && c.hosts[x].node.id == x
  {
    var h := c.hosts[x];
    assert HostVotes(cfg, c.net, e, x, h) && VoteMsgOk(cfg, c.net, m);
    CountKeeps(cfg, c.net, e, x, h, m);
    QuorumMeansFirst(cfg, c, e, x, h.node.votes + [m.from]);
  }

  /** The host's side: counting the last vote and taking office. */
  lemma {:induction false} WinKeeps(cfg: Config, net: set<Message>, e: Elections, x: NodeId, h: Host, m: Message)
    requires ValidConfig(cfg) && x in cfg.voters && RecordOk(cfg, net, e)
    requires HostVotes(cfg, net, e, x, h) && h.phase.Idle? && h.node.term !in e.winner
    requires forall m :: m in net ==> VoteMsgOk(cfg, net, m)
    requires m in net && m.to == x && Wins(h.node, m)
    ensures var e' := Won(e, x, h.node.term, Elements(h.node.votes + [m.from]));
            RecordOk(cfg, net, e') && HostVotes(cfg, net, e', x, h.(node := Step(h.node, m)))
  {
    hide Step;
    hide BecomeLeader;
    var n := h.node.(votes := h.node.votes + [m.from]);
    CountKeeps(cfg, net, e, x, h, m);
    BallotElects(cfg, net, e, n);
    WinnerOk(cfg, net, e, x, h.(node := n), Elements(n.votes), m);
    OfficeIsSilent(n);
    WinningStep(h.node, m);
    SilentKeeps(cfg, net, Won(e, x, n.term, Elements(n.votes)), x, h.(node := n.(role := Leader)), Step(h.node, m));
  }

  /** One host takes office and the record says so. */
  lemma {:induction false} HostElected(cfg: Config, c: State, e: Elections, x: NodeId, t: nat, voters: set<NodeId>, h': Host)
    requires VoteInv(cfg, c, e) && x in c.hosts && t !in e.winner
    requires var e' := Won(e, x, t, voters); RecordOk(cfg, c.net, e') && HostVotes(cfg, c.net, e', x, h')
    ensures VoteInv(cfg, c.(hosts := c.hosts[x := h']), Won(e, x, t, voters))
  {
    hide HostVotes;
    hide VoteMsgOk;
    hide RecordOk;
    forall y | y in c.hosts && y != x ensures HostVotes(cfg, c.net, Won(e, x, t, voters), y, c.hosts[y]) {
      BystanderKeeps(cfg, c.net, e, x, t, voters, y, c.hosts[y]);
    }
  }

  lemma {:induction false} ElectionKeeps(cfg: Config, c: State, e: Elections, x: NodeId, m: Message)
    requires ValidConfig(cfg) && VoteInv(cfg, c, e) && Enabled(c, Deliver(x, m)) && Wins(c.hosts[x].node, m)
    ensures VoteInv(cfg, Perform(c, Deliver(x, m)), ElectionsAfter(c, e, Deliver(x, m)))
  {
    WinnerIsFirst(cfg, c, e, x, m);
    hide Step;
    hide HostVotes;
    hide VoteMsgOk;
    hide RecordOk;
    var h := c.hosts[x];
    assert HostVotes(cfg, c.net, e, x, h);
    WinKeeps(cfg, c.net, e, x, h, m);
    hide Wins;
    HostElected(cfg, c, e, x, h.node.term, Elements(h.node.votes + [m.from]), h.(node := Step(h.node, m)));
    hide VoteInv;
  }

  // ----- sending -----

  /** A message that is not an election message of this host reaches the network. */
  lemma {:induction false} OthersMessageKeeps(cfg: Config, net: set<Message>, e: Elections, y: NodeId, h: Host, m: Message)
    requires HostVotes(cfg, net, e, y, h) && (ElectionMsg(m) ==> m.from != y)
    ensures HostVotes(cfg, net + {m}, e, y, h)
  {
    forall t | t in e.winner && e.winner[t] == y ensures ElectedStays(y, h, net + {m}, t) {
      assert ElectedStays(y, h, net, t);
    }
  }

  /** A message of the frozen batch leaves after its hard state is on disk. */
  lemma {:induction false} OwnMessageKeeps(cfg: Config, net: set<Message>, e: Elections, x: NodeId, h: Host, m: Message)
    requires HostVotes(cfg, net, e, x, h) && h.phase.Synced? && m in h.phase.rd.msgs
    ensures HostVotes(cfg, net + {m}, e, x, h)
  {
    assert Pending(h) + (net + {m}) == Pending(h) + net;
    forall t | t in e.winner && e.winner[t] == x ensures ElectedStays(x, h, net + {m}, t) {
      assert ElectedStays(x, h, net, t);
    }
  }

  lemma {:induction false} MoreMessages(cfg: Config, net: set<Message>, e: Elections, m: Message)
    requires RecordOk(cfg, net, e) && VoteMsgOk(cfg, net, m) && forall p :: p in net ==> VoteMsgOk(cfg, net, p)
    ensures RecordOk(cfg, net + {m}, e) && forall p :: p in net + {m} ==> VoteMsgOk(cfg, net + {m}, p)
  {
    forall t | t in e.winner ensures ElectionOk(cfg, net + {m}, e, t) {
      assert ElectionOk(cfg, net, e, t);
    }
  }

  lemma {:induction false} SendKeeps(cfg: Config, c: State, e: Elections, x: NodeId, m: Message)
    requires VoteInv(cfg, c, e) && Enabled(c, Send(x, m))
    ensures VoteInv(cfg, c.(net := c.net + {m}), e)
  {
    assert HostVotes(cfg, c.net, e, x, c.hosts[x]);
    assert m in Pending(c.hosts[x]);
    MoreMessages(cfg, c.net, e, m);
    forall y | y in c.hosts ensures HostVotes(cfg, c.net + {m}, e, y, c.hosts[y]) {
      if y == x { OwnMessageKeeps(cfg, c.net, e, x, c.hosts[x], m); }
      else { OthersMessageKeeps(cfg, c.net, e, y, c.hosts[y], m); }
    }
  }

  lemma {:induction false} ClientMessageKeeps(cfg: Config, c: State, e: Elections, m: Message)
    requires VoteInv(cfg, c, e) && m.typ == MsgPropose
    ensures VoteInv(cfg, c.(net := c.net + {m}), e)
  {
    MoreMessages(cfg, c.net, e, m);
    forall y | y in c.hosts ensures HostVotes(cfg, c.net + {m}, e, y, c.hosts[y]) {
      OthersMessageKeeps(cfg, c.net, e, y, c.hosts[y], m);
    }
  }

  // ----- delivery and the rest -----

  lemma {:induction false} DispatchKeeps(cfg: Config, net: set<Message>, e: Elections, x: NodeId, h: Host, m: Message)
    requires ValidConfig(cfg) && x in cfg.voters && HostVotes(cfg, net, e, x, h) && h.phase.Idle?
    requires forall m :: m in net ==> VoteMsgOk(cfg, net, m)
    requires m in net && m.to == x && m.term == h.node.term && !Wins(h.node, m)
    ensures HostVotes(cfg, net, e, x, h.(node := Dispatch(h.node, m)))
  {
    hide StepLeader;
    hide StepCandidate;
    hide StepFollower;
    match h.node.role
    case Leader => LeaderStepKeeps(cfg, net, e, x, h, m);
    case Candidate => LosingStepKeeps(cfg, net, e, x, h, m);
    case Follower => FollowerStepKeeps(cfg, net, e, x, h, m);
  }

  lemma {:induction false} DeliverKeeps(cfg: Config, net: set<Message>, e: Elections, x: NodeId, h: Host, m: Message)
    requires ValidConfig(cfg) && x in cfg.voters && HostVotes(cfg, net, e, x, h) && h.phase.Idle?
    requires forall m :: m in net ==> VoteMsgOk(cfg, net, m)
    requires m in net && m.to == x && !Wins(h.node, m)
    ensures HostVotes(cfg, net, e, x, h.(node := Step(h.node, m)))
  {
    hide Dispatch;
    hide StaleReply;
    hide HostVotes;
    hide VoteMsgOk;
    if m.term > h.node.term {
      LaterTermKeeps(cfg, net, e, x, h, m.term);
      DispatchKeeps(cfg, net, e, x, h.(node := BecomeFollower(h.node, m.term, 0)), m);
    } else if m.term < h.node.term {
      StaleReplyIsRoutine(h.node, m);
      SilentKeeps(cfg, net, e, x, h, StaleReply(h.node, m));
    } else {
      DispatchKeeps(cfg, net, e, x, h, m);
    }
  }

  /** Whatever changes one host without electing it. */
  lemma {:induction false} HostKeeps(cfg: Config, c: State, e: Elections, a: Action)
    requires ValidConfig(cfg) && |cfg.voters| >= 2 && VoteInv(cfg, c, e) && Enabled(c, a) && Intact(c, a)
    requires !a.ClientSends? && !a.Send? && (a.Deliver? ==> !Wins(c.hosts[a.x].node, a.m))
    ensures HostVotes(cfg, c.net, e, a.x, HostAfter(c.hosts[a.x], a))
  {
    hide HostVotes;
    hide VoteMsgOk;
    hide RecordOk;
    var x, h := a.x, c.hosts[a.x];
    assert HostVotes(cfg, c.net, e, x, h);
    match a
    case TimerFires(_) => TimeoutKeeps(cfg, c.net, e, x, h);
    case Deliver(_, m) => DeliverKeeps(cfg, c.net, e, x, h, m);
    case PeerDown(_, peer) => SilentKeeps(cfg, c.net, e, x, h, Unreachable(h.node, peer));
    case ClientProposes(_, data) =>
      ProposeIsSilent(h.node, data);
      SilentKeeps(cfg, c.net, e, x, h, Propose(h.node, data));
    case Poll(_) => PollKeeps(cfg, c.net, e, x, h);
    case SaveEntries(_) => SaveEntriesKeeps(cfg, c.net, e, x, h);
    case SaveHardState(_) => SaveHardStateKeeps(cfg, c.net, e, x, h);
    case Finish(_) => FinishKeeps(cfg, c.net, e, x, h);
    case Crash(_) => RestartKeeps(cfg, c.net, e, x, h, h.disk);
    case CrashWhileSaving(_, kept) =>
      var full := FileAfter(h, h.phase.rd.entries);
      RestartKeeps(cfg, c.net, e, x, h, h.disk.(file := full[..Min(kept, |full|)]));
    case CrashWhileSavingHard(_, kept) => CutHardStateKeeps(cfg, c.net, e, x, h, kept);
  }

  /** Every action that leaves term and vote intact. */
  lemma {:induction false} ActionKeepsVotes(cfg: Config, c: State, e: Elections, a: Action)
    requires ValidConfig(cfg) && |cfg.voters| >= 2 && VoteInv(cfg, c, e) && Enabled(c, a) && Intact(c, a)
    ensures VoteInv(cfg, Perform(c, a), ElectionsAfter(c, e, a)) && WinnersStay(e, ElectionsAfter(c, e, a))
  {
    hide HostVotes;
    hide VoteMsgOk;
    hide RecordOk;
    hide HostAfter;
    if a.Send? {
      SendKeeps(cfg, c, e, a.x, a.m);
    } else if a.ClientSends? {
      ClientMessageKeeps(cfg, c, e, a.m);
    } else if a.Deliver? && Wins(c.hosts[a.x].node, a.m) {
      WinnerIsFirst(cfg, c, e, a.x, a.m);
      ElectionKeeps(cfg, c, e, a.x, a.m);
    } else {
      HostKeeps(cfg, c, e, a);
    }
  }
}
