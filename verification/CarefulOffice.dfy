/** New entries and new leaders keep the invariant about commitment. */
module CarefulOffice {
  import opened Bytes
  import opened RaftTypes
  import opened LogSpec
  import opened NodeSpec
  import opened NodeEffects
  import opened Cluster
  import opened Canon
  import opened Claims
  import opened Votes
  import opened VoteSteps
  import opened ElectionSteps
  import opened Replication
  import opened Commitment
  import opened LeaderSteps
  import opened CommitGrowth
  import opened FollowerSteps
  import opened CommitSteps
  import opened KeptSteps
  import opened ElectionOrder
  import opened InformedVotes
  import opened CarefulFrame
  import opened CarefulAccount
  import opened CarefulCycle
  import opened CarefulNodes
  import opened CarefulDelivery
  import ReplicationSteps

  /** The host changes, and perhaps the record, the chains and the order with it. */
  ghost predicate TakesOver(s: Account, s': Account, x: NodeId, n': Node) {
    x in s.c.hosts && s'.c == WithHost(s, x, s.c.hosts[x].(node := n')).c
  }

  // ----- the acting host -----

  lemma {:induction false} ExtendingKeepsClaim(cfg: Config, s: Account, s': Account, x: NodeId, n': Node, t: nat, k: nat)
    requires Holds(cfg, s) && Moves(s, s', x) && TakesOver(s, s', x, n') && Valid(s.c.hosts[x].node.log) && Valid(n'.log)
    requires Lengthens(s.c.hosts[x].node.log, n'.log) && LeaderLog(s'.chain, n') && LeaderClaims(s.c.hosts[x].node, n')
    requires WellDone(cfg, s.c.net, s'.e, s'.chain, s.c.hosts[x].node, n')
    requires Marked(s'.chain, t, k) && AllHave(s'.chain, s'.ord, t, k)
    ensures Kept(s.c.net, x, s.c.hosts[x].(node := n'), t, k, s'.chain[t][..k])
  {
    hide Holds;
    var h, p := s.c.hosts[x], s'.chain[t][..k];
    VotesHold(cfg, s);
    SaidInside(cfg, s.c, s.e, s.chain, s.ord, x);
    OrderIsChains(cfg, s);
    OrderGrows(s, s', x);
    OneHost(cfg, s, x);
    hide VoteInv;
    hide CommitInv;
    hide LogInv;
    hide HostOk;
    hide HostVotes;
    hide HostLog;
    hide KeepsClaims;
    hide Kept;
    hide Lengthens;
    hide ClaimsInside;
    hide Valid;
    KeepsOne(s.c.net, s.c.net, s.chain, s'.chain, s.ord, s'.ord, x + 1, x, h, t, k);
    forall m | m in n'.msgs && m !in h.node.msgs && IsClaim(m) && m.term == t ensures p <= Logical(n'.log) {
      assert MaySend(cfg, s.c.net, s'.e, s'.chain, n', m);
    }
    NodeKeepsClaims(s.c.net, x, h, n', t, k, p);
  }

  lemma {:induction false} ExtendingHoldsWell(cfg: Config, s: Account, s': Account, x: NodeId, n': Node)
    requires Holds(cfg, s) && Moves(s, s', x) && TakesOver(s, s', x, n') && Valid(s.c.hosts[x].node.log) && Valid(n'.log)
    requires Lengthens(s.c.hosts[x].node.log, n'.log) && LeaderLog(s'.chain, n') && LeaderClaims(s.c.hosts[x].node, n')
    requires WellDone(cfg, s.c.net, s'.e, s'.chain, s.c.hosts[x].node, n') && n'.term >= s.c.hosts[x].node.term
    ensures HoldsWell(cfg, s', x)
  {
    hide Holds;
    hide WellDone;
    hide Valid;
    hide Lengthens;
    hide LeaderLog;
    hide LeaderClaims;
    hide Kept;
    forall t: nat, k: nat | Marked(s'.chain, t, k) && AllHave(s'.chain, s'.ord, t, k)
      ensures Kept(s.c.net, x, s.c.hosts[x].(node := n'), t, k, s'.chain[t][..k])
    {
      ExtendingKeepsClaim(cfg, s, s', x, n', t, k);
    }
    OneHost(cfg, s, x);
    hide HostLog;
    hide KeepsClaims;
    assert s.c.hosts[x].node.id == x;
    assert ClaimsUpTo(s.c.net, x, s.c.hosts[x].disk.term);
    hide HostVotes;
    hide HostOk;
    StepGrows(s.chain, s'.chain);
    BystanderGrows(cfg, s.c.net, s.c.net, s.e, s'.e, s.chain, s'.chain, x, s.c.hosts[x]);
    HostDoesWell(cfg, s.c.net, s'.e, s'.chain, x, s.c.hosts[x], n');
  }

  /** No election message is new, and a candidate is one as before. */
  lemma {:induction false} SilentSpeaks(cfg: Config, s: Account, s': Account, x: NodeId, n': Node)
    requires x in s.c.hosts && AsksOk(Said(s.c, x), x, s.c.hosts[x].node) && TakesOver(s, s', x, n')
    requires WellDone(cfg, s.c.net, s'.e, s'.chain, s.c.hosts[x].node, n') && Valid(s.c.hosts[x].node.log)
    requires forall m :: m in n'.msgs && ElectionMsg(m) ==> m in s.c.hosts[x].node.msgs
    requires n'.role == Candidate ==> n' == s.c.hosts[x].node
    requires forall y :: y in s'.c.hosts ==> Valid(s'.c.hosts[y].node.log)
    ensures SpeaksWell(s, s', x)
  {
    hide NodeOk;
    hide MessageOk;
    hide Valid;
    hide Logical;
    hide LastTerm;
    hide LastIndex;
    hide CandidateOk;
    assert forall y :: y in s'.c.hosts ==> ElectionMsg(GrantMsg(x, y, s'.c.hosts[y].node.term));
    assert forall g :: g in Said(s'.c, x) && ElectionMsg(g) ==> g in Said(s.c, x);
  }

  lemma {:induction false} NetGrowsOk(cfg: Config, net: set<Message>, e: Elections, e': Elections, chain: Chains, chain': Chains)
    requires NetOk(cfg, net, e, chain) && WinnersStay(e, e') && ChainStep(chain, chain')
    ensures NetOk(cfg, net, e', chain')
  {
    hide MessageOk;
    StepGrows(chain, chain');
    forall m | m in net ensures MessageOk(cfg, net, e', chain', m) { MessageGrows(cfg, net, net, e, e', chain, chain', m); }
  }

  lemma {:induction false} OneMoreRises(t: nat, log: seq<Entry>, log': seq<Entry>)
    requires Rising(log, t) && OneMore(t, log, log')
    ensures Rising(log', t)
  {
  }

  // ----- proposals -----

  lemma {:induction false} OwnAppendExtends(l: Log, l': Log, en: Entry)
    requires Valid(l) && AppendedOwn(l, l', en)
    ensures Valid(l') && Lengthens(l, l')
  {
  }

  lemma {:induction false} ProposeExtends(n: Node, data: seq<Byte>)
    requires Valid(n.log) && (n.role == Leader ==> n.term >= 1)
    ensures var n' := Propose(n, data);
            && Valid(n'.log) && Lengthens(n.log, n'.log) && n'.term == n.term && n'.role == n.role
            && (n.role != Leader ==> n' == n)
            && forall m :: m in n'.msgs && ElectionMsg(m) ==> m in n.msgs
  {
    if n.role == Leader && n.id in n.pr {
      AppendOwnOnlyAppends(n, data);
      OwnAppendExtends(n.log, AppendOwn(n, data).log, Entry(n.term, LastIndex(n.log) + 1, 0, data));
      BroadcastSameLog(AppendOwn(n, data));
    }
    hide AppendOwn;
    hide BroadcastAppend;
    ProposeIsSilent(n, data);
  }

  lemma {:induction false} ProposeWell(cfg: Config, s: Account, chain': Chains, x: NodeId, data: seq<Byte>)
    requires Holds(cfg, s) && x in s.c.hosts && ChainStep(s.chain, chain')
    requires Valid(Propose(s.c.hosts[x].node, data).log) && LeaderLog(chain', Propose(s.c.hosts[x].node, data))
    ensures WellDone(cfg, s.c.net, s.e, chain', s.c.hosts[x].node, Propose(s.c.hosts[x].node, data))
  {
    hide Holds;
    hide KeepsClaims;
    hide Canonical;
    hide ChainsOk;
    hide BroadcastAppend;
    hide AppendOwn;
    var n := s.c.hosts[x].node;
    OneNode(cfg, s, x);
    hide NetOk;
    StepGrows(s.chain, chain');
    if n.role == Leader {
      ProposeExtends(n, data);
      assert n.id in n.pr;
      hide NodeOk;
      ProposeDoesWell(cfg, s.c.net, s.e, s.chain, chain', n, data);
    } else {
      hide NodeOk;
      NodeGrows(cfg, s.c.net, s.c.net, s.e, s.e, s.chain, chain', n);
    }
  }

  lemma {:induction false} ProposalMoves(cfg: Config, s: Account, s': Account, x: NodeId, n': Node)
    requires Holds(cfg, s) && TakesOver(s, s', x, n') && s'.e == s.e && s'.ord == s.ord
    requires ChainStep(s.chain, s'.chain) && s'.chain.Keys == s.chain.Keys
    ensures Moves(s, s', x) && KnownWell(cfg, s, s')
  {
    hide Holds;
    hide LastIsInformed;
    OrderedWinners(cfg, s);
    hide OrderOk;
    forall t | t in s.chain ensures t in s.e.quorum { RecordedTerms(cfg, s, t); }
    NetGrowsOk(cfg, s.c.net, s.e, s.e, s.chain, s'.chain);
    hide NetOk;
    forall t | t in s'.chain ensures Rising(s'.chain[t], t) { OneMoreRises(t, s.chain[t], s'.chain[t]); }
    hide Rising;
    hide OneMore;
  }

  lemma {:induction false} ProposalKeepsCommit(cfg: Config, s: Account, s': Account, x: NodeId, data: seq<Byte>)
    requires Holds(cfg, s) && HoldsApart(cfg, s') && x in s.c.hosts && TakesOver(s, s', x, Propose(s.c.hosts[x].node, data))
    requires s'.e == s.e && s'.ord == s.ord && ChainStep(s.chain, s'.chain) && s'.chain.Keys == s.chain.Keys
    ensures Holds(cfg, s')
  {
    hide Holds;
    hide Propose;
    var n := s.c.hosts[x].node;
    var n' := Propose(n, data);
    LogsAreValid(s');
    assert LeaderLog(s'.chain, n') by { assert s'.c.hosts[x].node == n' && HostLog(s'.chain, s'.c.hosts[x]); }
    hide HoldsApart;
    OneNode(cfg, s, x);
    ProposeExtends(n, data);
    hide NodeOk;
    hide NetOk;
    hide ChainsOk;
    hide Canonical;
    hide KeepsClaims;
    hide Valid;
    hide ChainStep;
    ProposeWell(cfg, s, s'.chain, x, data);
    hide LeaderLog;
    ProposalMoves(cfg, s, s', x, n');
    assert LeaderClaims(n, n') by { ProposeClaims(n, data); }
    hide LeaderClaims;
    hide Moves;
    hide KnownWell;
    hide Lengthens;
    hide WellDone;
    ExtendingHoldsWell(cfg, s, s', x, n');
    WasAsking(cfg, s, x);
    hide AsksOk;
    SilentSpeaks(cfg, s, s', x, n');
    hide HoldsWell;
    hide SpeaksWell;
    Assembled(cfg, s, s', x);
  }

  lemma {:induction false} ProposeClaims(n: Node, data: seq<Byte>)
    ensures LeaderClaims(n, Propose(n, data))
  {
    ProposeIsSilent(n, data);
  }

  // ----- elections -----

  /** x wins with its last vote counted, and its log becomes the chain of its term. */
  ghost predicate Elects(s: Account, s': Account, x: NodeId, m: Message) {
    && Enabled(s.c, Deliver(x, m)) && Wins(s.c.hosts[x].node, m) && s.c.hosts[x].node.term !in s.e.winner
    && TakesOver(s, s', x, Step(s.c.hosts[x].node, m))
    && s'.e == ElectionsAfter(s.c, s.e, Deliver(x, m)) && s'.ord == s.ord + [s.c.hosts[x].node.term]
    && ChainStep(s.chain, s'.chain) && s'.chain.Keys == s.chain.Keys + {s.c.hosts[x].node.term}
  }

  function Counted(n: Node, m: Message): Node { n.(votes := n.votes + [m.from]) }

  lemma {:induction false} WinExtends(n: Node, m: Message)
    requires Valid(n.log) && n.term >= 1 && Wins(n, m)
    ensures var n' := Step(n, m);
            && n' == BecomeLeader(Counted(n, m)) && Valid(n'.log) && Lengthens(n.log, n'.log)
            && n'.term == n.term && n'.role == Leader
            && (Logical(n'.log) == Logical(n.log) || exists en: Entry :: en.term == n.term && Logical(n'.log) == Logical(n.log) + [en])
            && forall g :: g in n'.msgs && ElectionMsg(g) ==> g in n.msgs
  {
    hide BroadcastAppend;
    hide BecomeLeader;
    WinningStep(n, m);
    hide Step;
    OfficeIsSilent(Counted(n, m));
    var n1 := ReplicationSteps.BecomeLeaderTakesOffice(Counted(n, m));
    OwnAppendExtends(n.log, n1.log, Entry(n.term, LastIndex(n.log) + 1, 0, []));
    BroadcastSameLog(n1);
    hide Lengthens;
  }

  lemma {:induction false} WinWell(cfg: Config, s: Account, s': Account, x: NodeId, m: Message)
    requires Holds(cfg, s) && Elects(s, s', x, m) && s.c.hosts[x].node.term >= 1
    requires Valid(Step(s.c.hosts[x].node, m).log) && LeaderLog(s'.chain, Step(s.c.hosts[x].node, m))
    ensures WellDone(cfg, s.c.net, s'.e, s'.chain, s.c.hosts[x].node, Step(s.c.hosts[x].node, m))
  {
    hide Holds;
    hide KeepsClaims;
    hide Canonical;
    hide ChainsOk;
    hide BecomeLeader;
    hide Logical;
    var n := s.c.hosts[x].node;
    OneNode(cfg, s, x);
    hide NetOk;
    StepGrows(s.chain, s'.chain);
    WinExtends(n, m);
    hide Step;
    hide Lengthens;
    assert NodeOk(cfg, s.c.net, s.e, s.chain, Counted(n, m));
    hide NodeOk;
    WinDoesWell(cfg, s.c.net, s.e, s'.e, s.chain, s'.chain, Counted(n, m));
  }

  /** The winner's votes, its last one counted. */
  lemma {:induction false} WinningBallot(cfg: Config, s: Account, x: NodeId, m: Message)
    requires Holds(cfg, s) && Enabled(s.c, Deliver(x, m)) && Wins(s.c.hosts[x].node, m)
    ensures var n := s.c.hosts[x].node;
            && n.id == x && n.cfg == cfg && n.role == Candidate && n.term >= 1
            && BallotOk(cfg, s.c.net, Counted(n, m)) && |Counted(n, m).votes| >= Quorum(cfg)
  {
    hide CommitInv;
    hide LogInv;
    assert HostVotes(cfg, s.c.net, s.e, x, s.c.hosts[x]) && VoteMsgOk(cfg, s.c.net, m);
    hide VoteInv;
  }

  lemma {:induction false} Candidates(cfg: Config, s: Account, x: NodeId, w: NodeId)
    requires Holds(cfg, s) && x in s.c.hosts && w in s.c.hosts
    ensures Valid(s.c.hosts[x].node.log) && CandidateOk(s.c, s.e, s.chain, s.ord, x, w)
  {
    hide VoteInv;
    LogsAreValid(s);
  }

  lemma {:induction false} AllEarlier(cfg: Config, s: Account, x: NodeId, m: Message)
    requires ValidConfig(cfg) && Holds(cfg, s) && Enabled(s.c, Deliver(x, m)) && Wins(s.c.hosts[x].node, m) && s.c.hosts[x].node.term !in s.e.winner
    requires Valid(s.c.hosts[x].node.log)
    ensures Rising(Logical(s.c.hosts[x].node.log), s.c.hosts[x].node.term)
  {
    hide Holds;
    hide VoteInv;
    hide BallotOk;
    hide CandidateOk;
    hide Wins;
    hide Canonical;
    hide Logical;
    hide CommitInv;
    hide LogInv;
    hide NodeOk;
    hide NetOk;
    hide ChainsOk;
    hide ChainsRise;
    hide KeepsClaims;
    hide OfficeRecorded;
    hide OrderOk;
    var n := s.c.hosts[x].node;
    WinningBallot(cfg, s, x, m);
    OneNode(cfg, s, x);
    VotesHold(cfg, s);
    OrderedWinners(cfg, s);
    OrderIsChains(cfg, s);
    forall w | w in s.c.hosts ensures CandidateOk(s.c, s.e, s.chain, s.ord, x, w) { Candidates(cfg, s, x, w); }
    CanonicalRises(s.chain, Logical(n.log));
    forall i: nat | i < |Logical(n.log)| ensures Logical(n.log)[i].term < n.term {
      WinnerRises(cfg, s.c, s.e, s.chain, s.ord, x, n.votes + [m.from], i);
    }
  }

  lemma {:induction false} NewChainRises(log: seq<Entry>, log': seq<Entry>, t: nat)
    requires Rising(log, t) && (log' == log || exists en: Entry :: en.term == t && log' == log + [en])
    ensures Rising(log', t)
  {
  }

  lemma {:induction false} AllChainsRise(cfg: Config, s: Account, s': Account, x: NodeId, m: Message)
    requires ValidConfig(cfg) && Holds(cfg, s) && Elects(s, s', x, m)
    requires Valid(s.c.hosts[x].node.log) && Valid(Step(s.c.hosts[x].node, m).log) && LeaderLog(s'.chain, Step(s.c.hosts[x].node, m))
    ensures ChainsRise(s'.chain)
  {
    hide Holds;
    hide Logical;
    hide Rising;
    var n := s.c.hosts[x].node;
    AllEarlier(cfg, s, x, m);
    WinningBallot(cfg, s, x, m);
    hide BallotOk;
    WinExtends(n, m);
    hide Step;
    hide Lengthens;
    hide Valid;
    hide BecomeLeader;
    NewChainRises(Logical(n.log), Logical(Step(n, m).log), n.term);
    OrderedWinners(cfg, s);
    hide OrderOk;
    hide NetOk;
    forall t | t in s'.chain ensures Rising(s'.chain[t], t) {
      if t != n.term { OneMoreRises(t, s.chain[t], s'.chain[t]); }
    }
  }

  lemma {:induction false} ElectionMoves(cfg: Config, s: Account, s': Account, x: NodeId, m: Message)
    requires Holds(cfg, s) && Elects(s, s', x, m)
    ensures Moves(s, s', x) && NetOk(cfg, s'.c.net, s'.e, s'.chain)
  {
    hide Holds;
    hide Wins;
    hide Step;
    hide OrderOk;
    hide ChainsRise;
    OrderedWinners(cfg, s);
    OrderIsChains(cfg, s);
    forall t | t in s.chain ensures t in s.e.quorum { RecordedTerms(cfg, s, t); }
    assert WinnersStay(s.e, s'.e);
    NetGrowsOk(cfg, s.c.net, s.e, s'.e, s.chain, s'.chain);
    hide NetOk;
    hide OneMore;
    assert Elements(s.ord + [s.c.hosts[x].node.term]) == Elements(s.ord) + {s.c.hosts[x].node.term};
  }

  /** A claim of w of an earlier term is an old one, and the leaders there were had it. */
  lemma {:induction false} WasClaimed(cfg: Config, s: Account, s': Account, w: NodeId, t: nat, k: nat)
    requires Holds(cfg, s) && w in s.c.hosts && w in s'.c.hosts && ClaimsFresh(s.c, s'.c, w) && s'.c.hosts[w].node.term > t
    requires ChainStep(s.chain, s'.chain) && Marked(s'.chain, t, k) && AllHave(s'.chain, s.ord, t, k) && ClaimedBy(Said(s'.c, w), w, t, k)
    ensures ClaimedBy(Said(s.c, w), w, t, k) && Marked(s.chain, t, k) && AllHave(s.chain, s.ord, t, k) && s'.chain[t][..k] == s.chain[t][..k]
  {
    hide Holds;
    hide ClaimsFresh;
    hide VoteInv;
    hide LogInv;
    hide CommitInv;
    hide ClaimsInside;
    hide ClaimedBy;
    hide Has;
    VotesHold(cfg, s);
    SaidInside(cfg, s.c, s.e, s.chain, s.ord, w);
    OrderIsChains(cfg, s);
    OldClaim(s.c, s'.c, w, t, k);
    ClaimedIsMarked(s.chain, s'.chain, Said(s.c, w), w, t, k);
    AllHadIt(s.chain, s'.chain, s.ord, s.ord, t, k);
  }

  /** The winner has what one of its voters claimed, if every leader before it has. */
  lemma {:induction false} ElectedHasIt(cfg: Config, s: Account, s': Account, x: NodeId, m: Message, w: NodeId, t: nat, k: nat)
    requires Holds(cfg, s) && Elects(s, s', x, m) && w in s.c.hosts && ClaimsFresh(s.c, s'.c, w) && s'.c.hosts[w].node.term > t
    requires w == x || GrantMsg(w, x, s.c.hosts[x].node.term) in s.c.net
    requires Valid(s.c.hosts[x].node.log) && Logical(s.c.hosts[x].node.log) <= s'.chain[s.c.hosts[x].node.term]
    requires t < s.c.hosts[x].node.term && Marked(s'.chain, t, k) && AllHave(s'.chain, s.ord, t, k) && ClaimedBy(Said(s'.c, w), w, t, k)
    ensures Has(s'.chain, t, k, s.c.hosts[x].node.term)
  {
    hide Holds;
    hide ClaimsFresh;
    hide Step;
    hide Logical;
    hide ChainStep;
    hide Wins;
    hide HostOk;
    hide HostVotes;
    hide HostLog;
    hide KeepsClaims;
    hide CandidateOk;
    hide BallotOk;
    hide ClaimedBy;
    hide AllHave;
    WasClaimed(cfg, s, s', w, t, k);
    Candidates(cfg, s, x, w);
    OneHost(cfg, s, x);
    WinningBallot(cfg, s, x, m);
    WinnerHasIt(cfg, s.c, s.e, s.chain, s.ord, x, w, t, k);
  }

  lemma {:induction false} VotersOfWinner(cfg: Config, s: Account, s': Account, x: NodeId, m: Message, w: NodeId)
    requires HoldsApart(cfg, s') && Elects(s, s', x, m)
    requires var t := s.c.hosts[x].node.term; t in s'.e.quorum && w in s'.e.quorum[t]
    ensures w in s'.c.hosts && s'.c.hosts[w].node.term >= s.c.hosts[x].node.term
    ensures w == x || GrantMsg(w, x, s.c.hosts[x].node.term) in s.c.net
  {
    hide Wins;
    hide Step;
    var t := s.c.hosts[x].node.term;
    assert t in s'.e.winner && s'.e.winner[t] == x;
    VoterMovedOn(cfg, s'.c, s'.e, t, w);
    assert ElectionOk(cfg, s'.c.net, s'.e, t);
  }

  lemma {:induction false} ElectionIsInformed(cfg: Config, s: Account, s': Account, x: NodeId, m: Message)
    requires Holds(cfg, s) && HoldsApart(cfg, s') && Elects(s, s', x, m) && Moves(s, s', x) && ClaimsFresh(s.c, s'.c, x)
    requires Valid(s.c.hosts[x].node.log) && Logical(s.c.hosts[x].node.log) <= s'.chain[s.c.hosts[x].node.term]
    ensures LastIsInformed(s', |s.ord|)
  {
    hide Holds;
    hide HoldsApart;
    hide ClaimsFresh;
    hide Logical;
    hide Valid;
    hide Wins;
    hide Step;
    hide Has;
    hide OneMore;
    var u := s.c.hosts[x].node.term;
    assert s'.ord[..|s.ord|] == s.ord;
    forall w | w in s'.c.hosts && u in s'.e.quorum && w in s'.e.quorum[u] ensures ElectionInformed(s'.c, s'.e, s'.chain, s'.ord, |s.ord|, w) {
      VotersOfWinner(cfg, s, s', x, m, w);
      if w != x { OthersFresh(s, s', x, w); }
      forall t: nat, k: nat | t < u && Marked(s'.chain, t, k) && AllHave(s'.chain, s.ord, t, k) && ClaimedBy(Said(s'.c, w), w, t, k)
        ensures Has(s'.chain, t, k, u)
      {
        ElectedHasIt(cfg, s, s', x, m, w, t, k);
      }
    }
  }

  lemma {:induction false} FreshAfterWin(cfg: Config, s: Account, s': Account, x: NodeId, n': Node)
    requires TakesOver(s, s', x, n') && WellDone(cfg, s.c.net, s'.e, s'.chain, s.c.hosts[x].node, n')
    ensures ClaimsFresh(s.c, s'.c, x)
  {
    hide NodeOk;
    hide MessageOk;
  }

  lemma {:induction false} ElectionKeepsCommit(cfg: Config, s: Account, s': Account, x: NodeId, m: Message)
    requires ValidConfig(cfg) && Holds(cfg, s) && HoldsApart(cfg, s') && Elects(s, s', x, m)
    ensures Holds(cfg, s')
  {
    hide Holds;
    hide Step;
    hide Wins;
    hide Logical;
    hide BecomeLeader;
    var n := s.c.hosts[x].node;
    var n' := Step(n, m);
    LogsAreValid(s');
    assert LeaderLog(s'.chain, n') by { assert s'.c.hosts[x].node == n' && HostLog(s'.chain, s'.c.hosts[x]); }
    hide HoldsApart;
    WasAsking(cfg, s, x);
    WinningBallot(cfg, s, x, m);
    hide BallotOk;
    WinExtends(n, m);
    WinWell(cfg, s, s', x, m);
    AllChainsRise(cfg, s, s', x, m);
    hide ChainsRise;
    ElectionMoves(cfg, s, s', x, m);
    hide NetOk;
    FreshAfterWin(cfg, s, s', x, n');
    assert Logical(n.log) <= s'.chain[n.term];
    ElectionIsInformed(cfg, s, s', x, m);
    hide LastIsInformed;
    hide ClaimsFresh;
    assert KnownWell(cfg, s, s');
    hide KnownWell;
    hide Valid;
    hide LeaderLog;
    hide Lengthens;
    hide WellDone;
    hide AsksOk;
    assert LeaderClaims(n, n');
    hide LeaderClaims;
    hide Moves;
    hide ElectionMsg;
    ExtendingHoldsWell(cfg, s, s', x, n');
    hide HoldsWell;
    SilentSpeaks(cfg, s, s', x, n');
    hide SpeaksWell;
    Assembled(cfg, s, s', x);
  }
}
