/** A timer, a lost peer or a delivered message that neither elects nor proposes keeps the invariant
    about commitment. */
module CarefulNodes {
  import opened RaftTypes
  import opened LogSpec
  import opened NodeSpec
  import opened NodeEffects
  import opened Cluster
  import opened Canon
  import opened Acceptance
  import opened Claims
  import opened Votes
  import opened VoteSteps
  import opened Replication
  import opened CarefulRuns
  import opened Commitment
  import opened LeaderSteps
  import opened AppendSteps
  import opened FollowerSteps
  import opened KeptSteps
  import opened ElectionOrder
  import opened InformedVotes
  import opened CarefulFrame
  import opened CarefulAccount
  import opened CarefulCycle

  // ----- candidacies -----

  /** A candidate as before, or one of a later term whose requests describe its log. */
  ghost predicate AsksAnew(n: Node, n': Node) {
    if n'.role == Candidate && !(n.role == Candidate && n'.term == n.term)
    then n'.term > n.term && forall m :: m in n'.msgs && m.typ == MsgVote && m.term == n'.term ==>
           m in n.msgs || (m.logTerm == LastTerm(n'.log) && m.index == LastIndex(n'.log))
    else n'.role == Candidate ==> n'.log == n.log && forall m :: m in n'.msgs && m.typ == MsgVote ==> m in n.msgs
  }

  lemma {:induction false} TimeoutAsks(n: Node)
    requires Quorum(n.cfg) > 1
    ensures AsksAnew(n, Timeout(n))
  {
  }

  lemma {:induction false} UnreachableAsks(n: Node, peer: NodeId)
    ensures AsksAnew(n, Unreachable(n, peer))
  {
  }

  lemma {:induction false} StepAsks(n: Node, m: Message)
    requires !Wins(n, m)
    ensures AsksAnew(n, Step(n, m))
  {
    hide MaybeAppend;
    hide CommitTo;
    hide GrantsVote;
    hide StepLeader;
    hide BecomeLeader;
    hide LastTerm;
    hide LastIndex;
    hide AppendReply;
    if n.role == Leader && m.term == n.term { StepLeaderSilent(n, m); }
  }

  lemma {:induction false} AsksStayOk(cfg: Config, s: Account, x: NodeId, n': Node)
    requires x in s.c.hosts && HostVotes(cfg, s.c.net, s.e, x, s.c.hosts[x]) && AsksOk(Said(s.c, x), x, s.c.hosts[x].node)
    requires AsksAnew(s.c.hosts[x].node, n') && Valid(s.c.hosts[x].node.log) && Valid(n'.log)
    ensures var h' := s.c.hosts[x].(node := n');
            CandidacyFresh(s.c.hosts[x], h') && AsksOk(Said(WithHost(s, x, h').c, x), x, n')
  {
    hide Valid;
    hide LastTerm;
    hide LastIndex;
    hide Logical;
  }

  // ----- grants -----

  /** A grant that is new in a step answers the request delivered. */
  lemma {:induction false} StepGrants(n: Node, m: Message, g: Message)
    requires !Wins(n, m) && g in Step(n, m).msgs && g !in n.msgs && IsGrant(g)
    ensures m.typ == MsgVote && m.term >= n.term && g == GrantMsg(n.id, m.from, m.term)
    ensures GrantsVote(if m.term > n.term then BecomeFollower(n, m.term, 0) else n, m)
  {
    hide MaybeAppend;
    hide CommitTo;
    hide GrantsVote;
    hide StepLeader;
    hide BecomeLeader;
    if n.role == Leader && m.term == n.term { StepLeaderSilent(n, m); }
  }

  lemma {:induction false} StepLeaderSilent(n: Node, m: Message)
    requires n.role == Leader
    ensures Silent(n, StepLeader(n, m))
  {
    if m.typ == MsgPropose {
      ProposeIsSilent(n, if m.entries == [] then [] else m.entries[0].data);
    } else {
      StepLeaderIsRoutine(n, m);
    }
  }

  // ----- claims -----

  /** New claims are a leader's. */
  ghost predicate LeaderClaims(n: Node, n': Node) {
    forall m :: m in n'.msgs && m !in n.msgs && IsClaim(m) ==> n'.role == Leader
  }

  /** An append that is taken as a follower. */
  ghost predicate TakesAppend(n: Node, m: Message) { m.typ == MsgApp && FromLeader(n, m) }

  lemma {:induction false} StepClaims(n: Node, m: Message)
    requires Valid(n.log) && !Wins(n, m) && !TakesAppend(n, m) && !(n.role == Leader && m.term == n.term && m.typ == MsgPropose)
    ensures var n' := Step(n, m); SameEntries(n.log, n'.log) && LeaderClaims(n, n')
  {
    hide MaybeAppend;
    hide GrantsVote;
    hide StepLeader;
    hide BecomeLeader;
    hide Logical;
    if n.role == Leader && m.term == n.term { StepLeaderIsRoutine(n, m); }
  }

  lemma {:induction false} TimeoutClaims(n: Node)
    requires Quorum(n.cfg) > 1
    ensures var n' := Timeout(n); SameEntries(n.log, n'.log) && LeaderClaims(n, n')
  {
    hide LastTerm;
    hide LastIndex;
  }

  lemma {:induction false} UnreachableClaims(n: Node, peer: NodeId)
    ensures var n' := Unreachable(n, peer); SameEntries(n.log, n'.log) && LeaderClaims(n, n')
  {
  }

  /** An append is taken on behalf of a follower of its term. */
  lemma {:induction false} TakenAs(n: Node, m: Message) returns (n1: Node)
    requires TakesAppend(n, m)
    ensures n1.log == n.log && n1.msgs == n.msgs && n1.id == n.id && n1.term == m.term && n1.role == Follower
    ensures Step(n, m) == StepFollower(n1, m)
  {
    hide StepFollower;
    n1 := if m.term > n.term then BecomeFollower(n, m.term, 0)
          else if n.role == Candidate then BecomeFollower(n, m.term, m.from) else n;
  }

  lemma {:induction false} SameEntriesExtend(l: Log, l': Log)
    requires Valid(l) && SameEntries(l, l')
    ensures Valid(l') && Logical(l') == Logical(l) && Lengthens(l, l')
  {
  }

  /** Without an append, what was claimed is kept. */
  lemma {:induction false} PlainKeepsClaims(cfg: Config, s: Account, x: NodeId, n': Node)
    requires x in s.c.hosts && s.c.hosts[x].node.id == x && Valid(s.c.hosts[x].node.log) && Valid(n'.log)
    requires KeepsClaims(s.c.net, s.chain, s.ord, x, s.c.hosts[x]) && LeaderLog(s.chain, n')
    requires SameEntries(s.c.hosts[x].node.log, n'.log) && LeaderClaims(s.c.hosts[x].node, n')
    requires WellDone(cfg, s.c.net, s.e, s.chain, s.c.hosts[x].node, n')
    ensures KeepsClaims(s.c.net, s.chain, s.ord, x, s.c.hosts[x].(node := n'))
  {
    var h := s.c.hosts[x];
    SameEntriesExtend(h.node.log, n'.log);
    forall m | m in n'.msgs && m !in h.node.msgs && IsClaim(m) ensures n'.role == Leader && m.term == n'.term {
      assert MaySend(cfg, s.c.net, s.e, s.chain, n', m);
    }
    hide Valid;
    hide Logical;
    hide WellDone;
    hide Kept;
    hide AllHave;
    hide Lengthens;
    forall t: nat, k: nat | Marked(s.chain, t, k) && AllHave(s.chain, s.ord, t, k)
      ensures Kept(s.c.net, x, h.(node := n'), t, k, s.chain[t][..k])
    {
      NodeKeepsClaims(s.c.net, x, h, n', t, k, s.chain[t][..k]);
    }
  }

  /** A host whose term is past has nothing to keep of term t. */
  lemma {:induction false} FutureIsUnclaimed(cfg: Config, s: Account, x: NodeId, h: Host, t: nat, k: nat)
    requires Valid(h.node.log) && HostOk(cfg, s.c.net, s.e, s.chain, x, h) && h.disk.term <= h.node.term < t
    ensures Kept(s.c.net, x, h, t, k, s.chain[t][..k])
    requires Marked(s.chain, t, k)
  {
    hide NodeOk;
    hide MessageOk;
    hide Logical;
    hide Valid;
  }

  /** Taking an append keeps what was claimed before, and makes good the claim it adds. */
  lemma {:induction false} TakingKeepsAll(cfg: Config, s: Account, x: NodeId, m: Message)
    requires x in s.c.hosts && s.c.hosts[x].node.id == x && s.c.hosts[x].phase.Idle? && TakesAppend(s.c.hosts[x].node, m)
    requires LogOk(s.chain, s.c.hosts[x].node.log) && ChainsOk(s.chain) && AppendOk(s.e, s.chain, m) && CarefulAppend(s.c.hosts[x].node, m)
    requires KeepsClaims(s.c.net, s.chain, s.ord, x, s.c.hosts[x]) && (forall u :: u in s.chain ==> u in s.ord)
    requires var h' := s.c.hosts[x].(node := Step(s.c.hosts[x].node, m));
             Valid(h'.node.log) && HostOk(cfg, s.c.net, s.e, s.chain, x, h') && h'.disk.term <= h'.node.term == m.term
    ensures KeepsClaims(s.c.net, s.chain, s.ord, x, s.c.hosts[x].(node := Step(s.c.hosts[x].node, m)))
  {
    hide HostOk;
    hide Canonical;
    hide StepFollower;
    hide Kept;
    hide Logical;
    hide ConflictPos;
    var h := s.c.hosts[x];
    var h' := h.(node := Step(h.node, m));
    MessageRelates(s.e, s.chain, h.node.log, m);
    var n1 := TakenAs(h.node, m);
    assert CarefulAppend(n1, m);
    hide CarefulAppend;
    hide Related;
    hide Step;
    hide ChainsOk;
    hide RunFull;
    forall t: nat, k: nat | Marked(s.chain, t, k) && AllHave(s.chain, s.ord, t, k) ensures Kept(s.c.net, x, h', t, k, s.chain[t][..k]) {
      if t > m.term {
        FutureIsUnclaimed(cfg, s, x, h', t, k);
      } else {
        assert t < m.term ==> Has(s.chain, t, k, m.term);
        assert s.chain[t][..k] == s.chain[m.term][..k];
        TakingKeepsClaims(s.c.net, x, h, n1, s.chain[m.term], m, t, k);
      }
    }
  }

  // ----- the new vote is informed -----

  lemma {:induction false} Requester(cfg: Config, s: Account, x: NodeId, m: Message)
    requires Holds(cfg, s) && Enabled(s.c, Deliver(x, m)) && m.typ == MsgVote && m.from in s.c.hosts
    ensures m.from != x
    ensures var n := s.c.hosts[m.from].node; n.role == Candidate && n.term == m.term ==> m.logTerm == LastTerm(n.log) && m.index == LastIndex(n.log)
  {
    hide CommitInv;
    assert VoteMsgOk(cfg, s.c.net, m);
    hide VoteInv;
    WasAsking(cfg, s, m.from);
    assert m in Said(s.c, m.from);
  }

  lemma {:induction false} GrantIsInformed(cfg: Config, s: Account, x: NodeId, m: Message, n: Node)
    requires Holds(cfg, s) && Enabled(s.c, Deliver(x, m)) && m.typ == MsgVote && m.from in s.c.hosts
    requires n.log == s.c.hosts[x].node.log && n.term >= s.c.hosts[x].node.term && n.term == m.term && GrantsVote(n, m)
    requires Valid(s.c.hosts[m.from].node.log) && s.c.hosts[m.from].node.role == Candidate && s.c.hosts[m.from].node.term == m.term
    ensures VoteIsInformed(s.e, s.chain, s.ord, s.c.hosts[m.from].node, x, Said(s.c, x)) && m.from != x
  {
    Requester(cfg, s, x, m);
    hide Holds;
    hide GrantsVote;
    OneHost(cfg, s, x);
    OneHost(cfg, s, m.from);
    OrderIsChains(cfg, s);
    OrderedWinners(cfg, s);
    assert VoteInv(cfg, s.c, s.e) by { VotesHold(cfg, s); }
    hide VoteInv;
    hide HostOk;
    hide HostVotes;
    hide Canonical;
    hide KeepsClaims;
    hide ChainsRise;
    NewVoteIsInformed(cfg, s.c, s.e, s.chain, s.ord, x, m.from, n, m);
  }

  lemma {:induction false} VotesHold(cfg: Config, s: Account)
    requires Holds(cfg, s)
    ensures VoteInv(cfg, s.c, s.e) && CommitInv(cfg, s.c, s.e, s.chain, s.ord) && LogInv(s.c, s.e, s.chain)
  {
  }

  /** What a vote knew when it was given, it knows when the step is done. */
  lemma {:induction false} GrantStaysInformed(cfg: Config, s: Account, c': State, x: NodeId, y: NodeId)
    requires Holds(cfg, s) && x in s.c.hosts && y in s.c.hosts && x in c'.hosts && Valid(s.c.hosts[y].node.log)
    requires VoteIsInformed(s.e, s.chain, s.ord, s.c.hosts[y].node, x, Said(s.c, x))
    requires ClaimsFresh(s.c, c', x) && c'.hosts[x].node.term >= s.c.hosts[y].node.term
    ensures VoteIsInformed(s.e, s.chain, s.ord, s.c.hosts[y].node, x, Said(c', x))
  {
    hide Holds;
    hide ClaimsFresh;
    hide VoteIsInformed;
    hide HostOk;
    hide HostVotes;
    hide KeepsClaims;
    hide Canonical;
    hide VoteInv;
    hide CommitInv;
    hide LogInv;
    OneHost(cfg, s, y);
    VotesHold(cfg, s);
    SaidInside(cfg, s.c, s.e, s.chain, s.ord, x);
    OrderIsChains(cfg, s);
    assert ChainStep(s.chain, s.chain);
    VoteStaysInformed(cfg, s.c, c', s.e, s.e, s.chain, s.chain, s.ord, s.ord, s.c.hosts[y].node, s.c.hosts[y].node, x);
  }

  lemma {:induction false} NewGrantOk(cfg: Config, s: Account, x: NodeId, m: Message, y: NodeId)
    requires Holds(cfg, s) && Enabled(s.c, Deliver(x, m)) && !Wins(s.c.hosts[x].node, m) && y in s.c.hosts && s.c.hosts[x].node.id == x
    requires var s' := WithHost(s, x, s.c.hosts[x].(node := Step(s.c.hosts[x].node, m)));
             Valid(s'.c.hosts[y].node.log) && ClaimsFresh(s.c, s'.c, x) && NewVote(s, s', x, y)
    ensures var s' := WithHost(s, x, s.c.hosts[x].(node := Step(s.c.hosts[x].node, m)));
            CandidateOk(s'.c, s'.e, s'.chain, s'.ord, y, x)
  {
    hide Holds;
    hide ClaimsFresh;
    hide GrantsVote;
    hide VoteIsInformed;
    hide Valid;
    hide Step;
    hide Wins;
    var n := s.c.hosts[x].node;
    var s' := WithHost(s, x, s.c.hosts[x].(node := Step(n, m)));
    var g := GrantMsg(x, y, s'.c.hosts[y].node.term);
    assert g in Step(n, m).msgs && g !in n.msgs;
    StepGrants(n, m, g);
    Requester(cfg, s, x, m);
    if s'.c.hosts[y].node.role == Candidate {
      GrantIsInformed(cfg, s, x, m, if m.term > n.term then BecomeFollower(n, m.term, 0) else n);
      assert Step(n, m).term >= m.term by { GrantTerm(n, m); }
      GrantStaysInformed(cfg, s, s'.c, x, y);
    }
  }

  lemma {:induction false} GrantTerm(n: Node, m: Message)
    requires m.typ == MsgVote && m.term >= n.term && !Wins(n, m)
    ensures Step(n, m).term >= m.term
  {
    hide GrantsVote;
    hide LastTerm;
    hide LastIndex;
  }
}
