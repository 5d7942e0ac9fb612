/** What a careful run asks of deliveries is what a node needs to do its part. */
module CarefulDelivery {
  import opened Bytes
  import opened RaftTypes
  import opened LogSpec
  import opened NodeSpec
  import opened NodeEffects
  import opened Cluster
  import opened Canon
  import opened Claims
  import opened Votes
  import opened Replication
  import opened RaftSafety
  import opened CarefulRuns
  import opened Commitment
  import opened LeaderSteps
  import opened FollowerSteps
  import opened CommitSteps
  import opened ElectionOrder
  import opened CarefulFrame
  import opened CarefulAccount
  import opened CarefulCycle
  import opened CarefulNodes

  // ----- one node acts -----

  lemma {:induction false} FreshClaims(cfg: Config, s: Account, x: NodeId, n': Node)
    requires x in s.c.hosts && WellDone(cfg, s.c.net, s.e, s.chain, s.c.hosts[x].node, n')
    ensures ClaimsFresh(s.c, WithHost(s, x, s.c.hosts[x].(node := n')).c, x)
  {
    hide NodeOk;
    hide MessageOk;
  }

  /** A node that does its part, without an election or a new entry. */
  lemma {:induction false} NodeKeepsCommit(cfg: Config, s: Account, x: NodeId, n': Node)
    requires Holds(cfg, s) && x in s.c.hosts && HoldsApart(cfg, WithHost(s, x, s.c.hosts[x].(node := n')))
    requires WellDone(cfg, s.c.net, s.e, s.chain, s.c.hosts[x].node, n') && n'.term >= s.c.hosts[x].node.term
    requires AsksAnew(s.c.hosts[x].node, n') && Valid(n'.log)
    requires KeepsClaims(s.c.net, s.chain, s.ord, x, s.c.hosts[x].(node := n'))
    requires forall y :: y in s.c.hosts ==> Valid(WithHost(s, x, s.c.hosts[x].(node := n')).c.hosts[y].node.log)
                                            && NewVoteOk(s, WithHost(s, x, s.c.hosts[x].(node := n')), x, y)
    ensures Holds(cfg, WithHost(s, x, s.c.hosts[x].(node := n')))
  {
    hide Holds;
    hide HoldsApart;
    hide KeepsClaims;
    hide NewVoteOk;
    hide AsksAnew;
    hide Valid;
    hide WellDone;
    hide HostOk;
    hide HostLog;
    var h' := s.c.hosts[x].(node := n');
    OneHost(cfg, s, x);
    WasAsking(cfg, s, x);
    assert s.c.hosts[x].node.id == x;
    hide HostVotes;
    HostDoesWell(cfg, s.c.net, s.e, s.chain, x, s.c.hosts[x], n');
    FreshClaims(cfg, s, x, n');
    AsksStayOk(cfg, s, x, n');
    OneHostMoves(cfg, s, x, h');
    hide Moves;
    hide KnownWell;
    hide AsksOk;
    hide CandidacyFresh;
    hide ClaimsFresh;
    Assembled(cfg, s, WithHost(s, x, h'), x);
  }

  // ----- what the node may rely on -----

  /** What one node may rely on. */
  lemma {:induction false} OneNode(cfg: Config, s: Account, x: NodeId)
    requires Holds(cfg, s) && x in s.c.hosts
    ensures var h := s.c.hosts[x];
            && h.node.id == x && h.node.cfg == cfg && h.disk.term <= h.node.term
            && LogOk(s.chain, h.node.log) && ChainsOk(s.chain) && NetOk(cfg, s.c.net, s.e, s.chain)
            && NodeOk(cfg, s.c.net, s.e, s.chain, h.node) && OfficeRecorded(cfg, s.e, s.chain, h.node)
            && KeepsClaims(s.c.net, s.chain, s.ord, x, h)
  {
    hide Holds;
    hide KeepsClaims;
    hide NodeOk;
    hide MessageOk;
    hide Canonical;
    OneHost(cfg, s, x);
    OrderedWinners(cfg, s);
    VotesHold(cfg, s);
    assert x in Elements(cfg.voters);
    hide VoteInv;
    hide CommitInv;
  }

  /** Leader Completeness, as a node of term t uses it. */
  lemma {:induction false} LeaderIsComplete(cfg: Config, s: Account, t: nat)
    requires ValidConfig(cfg) && Holds(cfg, s)
    ensures Complete(cfg, s.c.net, s.chain, t)
  {
    hide Holds;
    hide VoteInv;
    hide LogInv;
    hide CommitInv;
    hide OrderOk;
    hide ValidConfig;
    hide ChainsRise;
    hide NetOk;
    VotesHold(cfg, s);
    OrderIsChains(cfg, s);
    OrderedWinners(cfg, s);
    hide Backers;
    if t in s.chain {
      forall u: nat, k: nat | Committed(cfg, s.c.net, s.chain, u, k) && u <= t ensures Has(s.chain, u, k, t) {
        LeadersAreComplete(cfg, s.c, s.e, s.chain, s.ord, u, k);
      }
    }
  }

  /** The term that the leader had at an index is the one in its term's log. */
  lemma {:induction false} LeaderHeld(chain: Chains, c: State, y: NodeId, term: nat, i: nat, t: nat)
    requires LogsRecorded(chain, c) && LeaderHolds(c, y, term, i, t) && i >= 1
    ensures term in chain && i <= |chain[term]| && chain[term][i - 1].term == t
  {
    var l := c.hosts[y].node.log;
    assert LogOk(chain, l);
    hide Canonical;
    TermRefines(l, i);
    hide Logical;
  }

  lemma {:induction false} HeartbeatIsTrue(run: seq<State>, chain: Chains, n: Node, m: Message)
    requires CarefulHeartbeat(run, n, m) && forall j :: 0 <= j < |run| ==> LogsRecorded(chain, run[j])
    ensures HeartbeatAgrees(chain, n, m)
  {
    hide LogsRecorded;
    hide LeaderHolds;
    if m.commit > n.log.committed {
      var i := Min(m.commit, LastIndex(n.log));
      if i > 0 {
        var j, y :| 0 <= j < |run| && LeaderHolds(run[j], y, m.term, i, TermAt(n.log, i));
        LeaderHeld(chain, run[j], y, m.term, i, TermAt(n.log, i));
      }
    }
  }

  lemma {:induction false} DeliveryIsCareful(run: seq<State>, chain: Chains, x: NodeId, m: Message)
    requires |run| >= 1 && Enabled(run[|run| - 1], Deliver(x, m)) && Careful(run, Deliver(x, m))
    requires forall j :: 0 <= j < |run| ==> LogsRecorded(chain, run[j])
    ensures StepIsCareful(chain, run[|run| - 1].hosts[x].node, m)
  {
    hide CarefulAppend;
    hide CarefulHeartbeat;
    hide HeartbeatAgrees;
    hide LogsRecorded;
    var n := run[|run| - 1].hosts[x].node;
    if FromLeader(n, m) && m.typ == MsgHeartbeat { HeartbeatIsTrue(run, chain, n, m); }
  }

  lemma {:induction false} StillValid(cfg: Config, s: Account, x: NodeId, n': Node)
    requires x in s.c.hosts && HoldsApart(cfg, WithHost(s, x, s.c.hosts[x].(node := n')))
    ensures Valid(n'.log) && LeaderLog(s.chain, n')
    ensures forall y :: y in s.c.hosts ==> Valid(WithHost(s, x, s.c.hosts[x].(node := n')).c.hosts[y].node.log)
  {
    var s' := WithHost(s, x, s.c.hosts[x].(node := n'));
    assert LogInv(s'.c, s'.e, s'.chain);
    LogsAreValid(s');
    assert HostLog(s'.chain, s'.c.hosts[x]);
  }

  // ----- timers and lost peers -----

  /** New grants come from deliveries only. */
  lemma {:induction false} NoNewVote(s: Account, x: NodeId, n': Node, y: NodeId)
    requires x in s.c.hosts && y in s.c.hosts && (forall g :: g in n'.msgs && IsGrant(g) ==> g in s.c.hosts[x].node.msgs)
    requires Valid(WithHost(s, x, s.c.hosts[x].(node := n')).c.hosts[y].node.log)
    ensures NewVoteOk(s, WithHost(s, x, s.c.hosts[x].(node := n')), x, y)
  {
    hide CandidateOk;
    hide Valid;
    var s' := WithHost(s, x, s.c.hosts[x].(node := n'));
    var g := GrantMsg(x, y, s'.c.hosts[y].node.term);
    assert IsGrant(g);
  }

  lemma {:induction false} PlainKeepsCommit(cfg: Config, s: Account, x: NodeId, n': Node)
    requires Holds(cfg, s) && x in s.c.hosts && HoldsApart(cfg, WithHost(s, x, s.c.hosts[x].(node := n')))
    requires WellDone(cfg, s.c.net, s.e, s.chain, s.c.hosts[x].node, n') && n'.term >= s.c.hosts[x].node.term
    requires AsksAnew(s.c.hosts[x].node, n') && SameEntries(s.c.hosts[x].node.log, n'.log) && LeaderClaims(s.c.hosts[x].node, n')
    requires forall g :: g in n'.msgs && IsGrant(g) ==> g in s.c.hosts[x].node.msgs
    ensures Holds(cfg, WithHost(s, x, s.c.hosts[x].(node := n')))
  {
    hide Holds;
    hide HoldsApart;
    hide WellDone;
    hide AsksAnew;
    hide LeaderClaims;
    hide NodeOk;
    hide OfficeRecorded;
    hide KeepsClaims;
    hide NetOk;
    hide ChainsOk;
    hide Canonical;
    OneNode(cfg, s, x);
    StillValid(cfg, s, x, n');
    hide LeaderLog;
    hide Valid;
    PlainKeepsClaims(cfg, s, x, n');
    forall y | y in s.c.hosts ensures NewVoteOk(s, WithHost(s, x, s.c.hosts[x].(node := n')), x, y) { NoNewVote(s, x, n', y); }
    hide NewVoteOk;
    NodeKeepsCommit(cfg, s, x, n');
  }

  lemma {:induction false} TimeoutGrants(n: Node, g: Message)
    requires g in Timeout(n).msgs && IsGrant(g) && Quorum(n.cfg) > 1
    ensures g in n.msgs
  {
  }

  lemma {:induction false} TimerKeepsCommit(cfg: Config, s: Account, x: NodeId)
    requires Quorum(cfg) >= 2 && Holds(cfg, s) && Enabled(s.c, TimerFires(x)) && HoldsApart(cfg, s.(c := Perform(s.c, TimerFires(x))))
    ensures Holds(cfg, s.(c := Perform(s.c, TimerFires(x))))
  {
    hide Holds;
    hide HoldsApart;
    hide NodeOk;
    hide OfficeRecorded;
    hide KeepsClaims;
    hide NetOk;
    hide ChainsOk;
    hide Canonical;
    hide Timeout;
    OneNode(cfg, s, x);
    var n := s.c.hosts[x].node;
    TimeoutDoesWell(cfg, s.c.net, s.e, s.chain, n);
    TimeoutAsks(n);
    TimeoutClaims(n);
    forall g | g in Timeout(n).msgs && IsGrant(g) ensures g in n.msgs { TimeoutGrants(n, g); }
    hide WellDone;
    hide AsksAnew;
    hide LeaderClaims;
    PlainKeepsCommit(cfg, s, x, Timeout(n));
  }

  lemma {:induction false} PeerDownKeepsCommit(cfg: Config, s: Account, x: NodeId, peer: NodeId)
    requires Holds(cfg, s) && Enabled(s.c, PeerDown(x, peer)) && HoldsApart(cfg, s.(c := Perform(s.c, PeerDown(x, peer))))
    ensures Holds(cfg, s.(c := Perform(s.c, PeerDown(x, peer))))
  {
    hide Holds;
    hide HoldsApart;
    hide NodeOk;
    hide OfficeRecorded;
    hide KeepsClaims;
    hide NetOk;
    hide ChainsOk;
    hide Canonical;
    OneNode(cfg, s, x);
    var n := s.c.hosts[x].node;
    UnreachableDoesWell(cfg, s.c.net, s.e, s.chain, n, peer);
    UnreachableAsks(n, peer);
    UnreachableClaims(n, peer);
    hide WellDone;
    hide AsksAnew;
    hide LeaderClaims;
    PlainKeepsCommit(cfg, s, x, Unreachable(n, peer));
  }

  // ----- deliveries -----

  lemma {:induction false} DeliveryKeepsClaims(cfg: Config, s: Account, x: NodeId, m: Message)
    requires Holds(cfg, s) && Enabled(s.c, Deliver(x, m)) && StepIsCareful(s.chain, s.c.hosts[x].node, m)
    requires !Wins(s.c.hosts[x].node, m) && !(s.c.hosts[x].node.role == Leader && m.term == s.c.hosts[x].node.term && m.typ == MsgPropose)
    requires var n' := Step(s.c.hosts[x].node, m);
             && Valid(n'.log) && LeaderLog(s.chain, n') && WellDone(cfg, s.c.net, s.e, s.chain, s.c.hosts[x].node, n')
             && n'.term >= s.c.hosts[x].node.term
    ensures KeepsClaims(s.c.net, s.chain, s.ord, x, s.c.hosts[x].(node := Step(s.c.hosts[x].node, m)))
  {
    hide Holds;
    hide WellDone;
    hide NodeOk;
    hide OfficeRecorded;
    hide KeepsClaims;
    hide Canonical;
    hide Step;
    hide LeaderLog;
    hide HeartbeatAgrees;
    hide CarefulAppend;
    OneNode(cfg, s, x);
    hide ChainsOk;
    var h := s.c.hosts[x];
    if TakesAppend(h.node, m) {
      OrderIsChains(cfg, s);
      assert MessageOk(cfg, s.c.net, s.e, s.chain, m);
      StepTerm(h.node, m);
      OneHost(cfg, s, x);
      hide HostVotes;
      hide HostLog;
      HostDoesWell(cfg, s.c.net, s.e, s.chain, x, h, Step(h.node, m));
      hide HostOk;
      TakingKeepsAll(cfg, s, x, m);
    } else {
      StepClaims(h.node, m);
      PlainKeepsClaims(cfg, s, x, Step(h.node, m));
    }
  }

  lemma {:induction false} DeliveryKeepsCommit(cfg: Config, s: Account, x: NodeId, m: Message)
    requires ValidConfig(cfg) && Quorum(cfg) >= 2 && Holds(cfg, s) && Enabled(s.c, Deliver(x, m)) && StepIsCareful(s.chain, s.c.hosts[x].node, m)
    requires !Wins(s.c.hosts[x].node, m) && !(s.c.hosts[x].node.role == Leader && m.term == s.c.hosts[x].node.term && m.typ == MsgPropose)
    requires HoldsApart(cfg, s.(c := Perform(s.c, Deliver(x, m))))
    ensures Holds(cfg, s.(c := Perform(s.c, Deliver(x, m))))
  {
    hide Holds;
    hide HoldsApart;
    hide NodeOk;
    hide OfficeRecorded;
    hide KeepsClaims;
    hide NetOk;
    hide Canonical;
    hide Step;
    hide StepIsCareful;
    hide Complete;
    OneNode(cfg, s, x);
    LeaderIsComplete(cfg, s, m.term);
    var n := s.c.hosts[x].node;
    var n' := Step(n, m);
    StepDoesWell(cfg, s.c.net, s.e, s.chain, n, m);
    hide ChainsOk;
    StillValid(cfg, s, x, n');
    DeliveryKeepsClaims(cfg, s, x, m);
    hide Valid;
    hide LeaderLog;
    StepAsks(n, m);
    FreshClaims(cfg, s, x, n');
    hide WellDone;
    hide AsksAnew;
    hide ClaimsFresh;
    forall y | y in s.c.hosts ensures NewVoteOk(s, WithHost(s, x, s.c.hosts[x].(node := n')), x, y) {
      if NewVote(s, WithHost(s, x, s.c.hosts[x].(node := n')), x, y) { NewGrantOk(cfg, s, x, m, y); }
    }
    hide NewVoteOk;
    NodeKeepsCommit(cfg, s, x, n');
  }
}
