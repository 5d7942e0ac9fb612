/** One host acts; the others see more messages, longer logs and perhaps one more election.  What the
    invariant about commitment says of them, and of pairs of hosts, stays true. */
module CarefulFrame {
  import opened RaftTypes
  import opened LogSpec
  import opened NodeSpec
  import opened Cluster
  import opened Canon
  import opened Claims
  import opened Votes
  import opened Replication
  import opened Commitment
  import opened CommitGrowth
  import opened ElectionOrder

  /** A state with its record of elections, its chains and their order. */
  datatype Account = Account(c: State, e: Elections, chain: Chains, ord: seq<nat>)

  ghost predicate Holds(cfg: Config, s: Account) {
    VoteInv(cfg, s.c, s.e) && LogInv(s.c, s.e, s.chain) && CommitInv(cfg, s.c, s.e, s.chain, s.ord)
  }

  /** What the votes and the logs already know of the next state. */
  ghost predicate HoldsApart(cfg: Config, s: Account) { VoteInv(cfg, s.c, s.e) && LogInv(s.c, s.e, s.chain) }

  /** Messages that reached the network are x's own, as far as they are claims or about elections. */
  ghost predicate NetFrom(net: set<Message>, net': set<Message>, x: NodeId) {
    net <= net' && forall m :: m in net' && m !in net && (IsClaim(m) || ElectionMsg(m)) ==> m.from == x
  }

  /** Only x changed; records, chains and order grow. */
  ghost predicate Moves(s: Account, s': Account, x: NodeId) {
    && x in s.c.hosts && s'.c.hosts.Keys == s.c.hosts.Keys
    && (forall y :: y in s.c.hosts && y != x ==> s'.c.hosts[y] == s.c.hosts[y])
    && NetFrom(s.c.net, s'.c.net, x)
    && ChainStep(s.chain, s'.chain) && WinnersStay(s.e, s'.e)
    && (forall t :: t in s.chain ==> t in s.e.quorum && t in s'.e.quorum && s'.e.quorum[t] == s.e.quorum[t])
    && (s'.ord == s.ord || (|s'.ord| == |s.ord| + 1 && s.ord <= s'.ord))
    && Elements(s'.ord) == s'.e.winner.Keys
  }

  lemma {:induction false} OrderIsChains(cfg: Config, s: Account)
    requires Holds(cfg, s)
    ensures s.chain.Keys == s.e.winner.Keys && forall u :: u in s.ord <==> u in s.chain
  {
    assert forall u :: u in s.ord <==> u in Elements(s.ord);
  }

  lemma {:induction false} OrderGrows(s: Account, s': Account, x: NodeId)
    requires Moves(s, s', x)
    ensures forall u :: u in s.ord ==> u in s'.ord
  {
  }

  // ----- the others -----

  lemma {:induction false} OthersOk(cfg: Config, s: Account, s': Account, x: NodeId, y: NodeId)
    requires Holds(cfg, s) && Moves(s, s', x) && y in s.c.hosts && y != x
    ensures HostOk(cfg, s'.c.net, s'.e, s'.chain, y, s'.c.hosts[y])
  {
    var h := s.c.hosts[y];
    assert HostOk(cfg, s.c.net, s.e, s.chain, y, h);
    StepGrows(s.chain, s'.chain);
    hide CommitInv;
    hide VoteInv;
    hide LogInv;
    BystanderGrows(cfg, s.c.net, s'.c.net, s.e, s'.e, s.chain, s'.chain, y, h);
  }

  lemma {:induction false} OthersClaims(net: set<Message>, net': set<Message>, x: NodeId, y: NodeId, t: nat, k: nat)
    requires NetFrom(net, net', x) && x != y && ClaimedBy(net', y, t, k)
    ensures ClaimedBy(net, y, t, k)
  {
    var m :| m in net' && IsClaim(m) && m.from == y && m.term == t && End(m) >= k;
  }

  /** A host that did nothing keeps what it claimed. */
  lemma {:induction false} OthersKeep(cfg: Config, s: Account, s': Account, x: NodeId, y: NodeId)
    requires Holds(cfg, s) && Moves(s, s', x) && y in s.c.hosts && y != x
    requires Valid(s.c.hosts[y].node.log)
    ensures KeepsClaims(s'.c.net, s'.chain, s'.ord, y, s'.c.hosts[y])
  {
    var h := s.c.hosts[y];
    assert KeepsClaims(s.c.net, s.chain, s.ord, y, h);
    SaidInside(cfg, s.c, s.e, s.chain, s.ord, y);
    OrderIsChains(cfg, s);
    OrderGrows(s, s', x);
    hide Holds;
    hide Valid;
    forall t: nat, k: nat | Marked(s'.chain, t, k) && AllHave(s'.chain, s'.ord, t, k)
      ensures Kept(s'.c.net, y, h, t, k, s'.chain[t][..k])
    {
      KeepsOne(s.c.net, s'.c.net, s.chain, s'.chain, s.ord, s'.ord, x, y, h, t, k);
    }
  }

  lemma {:induction false} KeepsOne(net: set<Message>, net': set<Message>, chain: Chains, chain': Chains, ord: seq<nat>, ord': seq<nat>,
                                    x: NodeId, y: NodeId, h: Host, t: nat, k: nat)
    requires Valid(h.node.log) && KeepsClaims(net, chain, ord, y, h) && ClaimsInside(chain, net + Pending(h))
    requires NetFrom(net, net', x) && x != y && ChainStep(chain, chain') && (forall u :: u in ord ==> u in ord' && u in chain)
    requires Marked(chain', t, k) && AllHave(chain', ord', t, k)
    ensures Kept(net', y, h, t, k, chain'[t][..k])
  {
    if ClaimedBy(net + Pending(h), y, t, k) {
      ClaimedIsMarked(chain, chain', net + Pending(h), y, t, k);
      AllHadIt(chain, chain', ord, ord', t, k);
      if ClaimedBy(net', y, t, k) { OthersClaims(net, net', x, y, t, k); }
    } else {
      NothingClaimed(net, net', x, y, h, t, k);
    }
    hide ClaimedBy;
    hide Logical;
  }

  lemma {:induction false} NothingClaimed(net: set<Message>, net': set<Message>, x: NodeId, y: NodeId, h: Host, t: nat, k: nat)
    requires NetFrom(net, net', x) && x != y && !ClaimedBy(net + Pending(h), y, t, k)
    ensures !ClaimedBy(net', y, t, k) && !ClaimedBy(h.node.msgs, y, t, k)
    ensures !h.phase.Idle? ==> !ClaimedBy(h.phase.rd.msgs, y, t, k)
  {
    hide ClaimedBy;
    if ClaimedBy(net', y, t, k) {
      OthersClaims(net, net', x, y, t, k);
      ClaimedMore(net, net + Pending(h), y, t, k, k);
    }
    if ClaimedBy(h.node.msgs, y, t, k) { ClaimedMore(h.node.msgs, net + Pending(h), y, t, k, k); }
    var polled := if h.phase.Idle? then {} else h.phase.rd.msgs;
    if ClaimedBy(polled, y, t, k) { ClaimedMore(polled, net + Pending(h), y, t, k, k); }
  }

  lemma {:induction false} OthersAsk(s: Account, s': Account, x: NodeId, y: NodeId)
    requires Moves(s, s', x) && y in s.c.hosts && y != x && AsksOk(Said(s.c, y), y, s.c.hosts[y].node)
    ensures AsksOk(Said(s'.c, y), y, s'.c.hosts[y].node)
  {
    forall m | m in Said(s'.c, y) && m.typ == MsgVote && m.from == y ensures m in Said(s.c, y) { assert ElectionMsg(m); }
  }

  // ----- elections of the past -----

  lemma {:induction false} OthersFresh(s: Account, s': Account, x: NodeId, y: NodeId)
    requires Moves(s, s', x) && y in s.c.hosts && y != x
    ensures ClaimsFresh(s.c, s'.c, y)
  {
  }

  lemma {:induction false} WasInformed(cfg: Config, s: Account, i: nat, w: NodeId)
    requires Holds(cfg, s) && i < |s.ord| && w in s.c.hosts
    ensures s.ord[i] in s.chain && ClaimsInside(s.chain, Said(s.c, w))
    ensures s.ord[i] in s.e.quorum && w in s.e.quorum[s.ord[i]] ==> ElectionInformed(s.c, s.e, s.chain, s.ord, i, w)
  {
    hide VoteInv;
    hide ElectionInformed;
    OrderIsChains(cfg, s);
    SaidInside(cfg, s.c, s.e, s.chain, s.ord, w);
  }

  lemma {:induction false} PastElection(cfg: Config, s: Account, s': Account, x: NodeId, i: nat, w: NodeId)
    requires Holds(cfg, s) && VoteInv(cfg, s'.c, s'.e) && Moves(s, s', x) && ClaimsFresh(s.c, s'.c, x)
    requires i < |s.ord| && w in s.c.hosts && s.ord[i] in s'.e.quorum && w in s'.e.quorum[s.ord[i]]
    ensures ElectionInformed(s'.c, s'.e, s'.chain, s'.ord, i, w)
  {
    hide Holds;
    hide VoteInv;
    hide ElectionInformed;
    hide ClaimsFresh;
    hide ClaimsInside;
    hide OneMore;
    WasInformed(cfg, s, i, w);
    OrderIsChains(cfg, s);
    assert s.ord[i] in s'.ord && s.ord[i] in Elements(s'.ord);
    VoterMovedOn(cfg, s'.c, s'.e, s.ord[i], w);
    if w != x { OthersFresh(s, s', x, w); }
    ElectionStaysInformed(cfg, s.c, s'.c, s.e, s.chain, s'.chain, s.ord, i, w);
    if s'.ord != s.ord {
      assert s'.ord == s.ord + [s'.ord[|s.ord|]];
      PrefixOrder(s'.c, s.e, s'.e, s'.chain, s.ord, s'.ord[|s.ord|], i, w);
    } else {
      SameRecord(s'.c, s.e, s'.e, s'.chain, s.ord, i, w);
    }
  }

  lemma {:induction false} SameRecord(c: State, e: Elections, e': Elections, chain: Chains, ord: seq<nat>, i: nat, w: NodeId)
    requires w in c.hosts && i < |ord| && ElectionInformed(c, e, chain, ord, i, w)
    ensures ElectionInformed(c, e', chain, ord, i, w)
  {
  }

  // ----- votes of the past -----

  /** x is a candidate as before, or in a term that its disk does not know yet. */
  ghost predicate CandidacyFresh(h: Host, h': Host)
    requires Valid(h.node.log) && Valid(h'.node.log)
  {
    h'.node.role == Candidate ==>
      || (h.node.role == Candidate && h.node.term == h'.node.term && Logical(h'.node.log) == Logical(h.node.log))
      || h'.node.term > h'.disk.term
  }

  lemma {:induction false} PastVote(cfg: Config, s: Account, s': Account, x: NodeId, y: NodeId, w: NodeId)
    requires Holds(cfg, s) && VoteInv(cfg, s'.c, s'.e) && Moves(s, s', x) && ClaimsFresh(s.c, s'.c, x)
    requires y in s.c.hosts && w in s.c.hosts && Valid(s.c.hosts[y].node.log) && Valid(s'.c.hosts[y].node.log)
    requires CandidacyFresh(s.c.hosts[y], s'.c.hosts[y])
    requires GrantMsg(w, y, s'.c.hosts[y].node.term) in Said(s'.c, w) ==> GrantMsg(w, y, s'.c.hosts[y].node.term) in Said(s.c, w)
    ensures CandidateOk(s'.c, s'.e, s'.chain, s'.ord, y, w)
  {
    var n, n' := s.c.hosts[y].node, s'.c.hosts[y].node;
    if n'.role == Candidate && GrantMsg(w, y, n'.term) in Said(s'.c, w) {
      if n'.term > s'.c.hosts[y].disk.term {
        NoVotesYet(cfg, s'.c, s'.e, w, y);
      } else {
        OrderIsChains(cfg, s);
        OrderGrows(s, s', x);
        assert CandidateOk(s.c, s.e, s.chain, s.ord, y, w);
        SaidInside(cfg, s.c, s.e, s.chain, s.ord, w);
        assert LogOk(s.chain, n.log) by { assert HostLog(s.chain, s.c.hosts[y]); }
        hide Holds;
        GrantorMovedOn(cfg, s'.c, s'.e, w, y, n'.term);
        if w != x { OthersFresh(s, s', x, w); }
        hide VoteInv;
        hide LogOk;
        hide VoteIsInformed;
        VoteStaysInformed(cfg, s.c, s'.c, s.e, s'.e, s.chain, s'.chain, s.ord, s'.ord, n, n', w);
      }
    }
  }
}
