/** Leader Completeness: whoever is elected has what is committed.  A voter of the election and a voter
    that claims the entries are one and the same, it kept them, and it voted for a log at least as
    up-to-date as its own. */
module ElectionOrder {
  import opened RaftTypes
  import opened LogSpec
  import opened NodeSpec
  import opened Cluster
  import opened Canon
  import opened Claims
  import opened Votes
  import opened ElectionSteps
  import opened Commitment

  // ----- who took part in an election has moved on to its term -----

  lemma {:induction false} VoterMovedOn(cfg: Config, c: State, e: Elections, t: nat, w: NodeId)
    requires VoteInv(cfg, c, e) && t in e.winner && w in e.quorum[t]
    ensures w in c.hosts && c.hosts[w].disk.term >= t && c.hosts[w].node.term >= t
  {
    assert ElectionOk(cfg, c.net, e, t);
    assert w in c.hosts;
    assert HostVotes(cfg, c.net, e, w, c.hosts[w]);
    if w == e.winner[t] {
      assert ElectedStays(w, c.hosts[w], c.net, t);
    } else {
      assert IsGrant(GrantMsg(w, e.winner[t], t));
    }
  }

  /** A vote is of the voter's term or an earlier one. */
  lemma {:induction false} GrantorMovedOn(cfg: Config, c: State, e: Elections, w: NodeId, x: NodeId, t: nat)
    requires VoteInv(cfg, c, e) && w in c.hosts && GrantMsg(w, x, t) in Said(c, w)
    ensures c.hosts[w].node.term >= t
  {
    assert HostVotes(cfg, c.net, e, w, c.hosts[w]);
    assert IsGrant(GrantMsg(w, x, t));
  }

  /** Nobody voted for a candidacy that is not on disk yet. */
  lemma {:induction false} NoVotesYet(cfg: Config, c: State, e: Elections, w: NodeId, x: NodeId)
    requires VoteInv(cfg, c, e) && w in c.hosts && x in c.hosts && c.hosts[x].node.term > c.hosts[x].disk.term
    ensures GrantMsg(w, x, c.hosts[x].node.term) !in Said(c, w)
  {
    var g := GrantMsg(w, x, c.hosts[x].node.term);
    assert IsGrant(g);
    assert HostVotes(cfg, c.net, e, w, c.hosts[w]) && HostVotes(cfg, c.net, e, x, c.hosts[x]);
    assert g in Said(c, w) ==> VoteMsgOk(cfg, c.net, g);
  }

  // ----- claims lie inside their logs -----

  ghost predicate ClaimsInside(chain: Chains, ms: set<Message>) {
    forall m :: m in ms && IsClaim(m) ==> m.term in chain && End(m) <= |chain[m.term]|
  }

  lemma {:induction false} SaidInside(cfg: Config, c: State, e: Elections, chain: Chains, ord: seq<nat>, w: NodeId)
    requires CommitInv(cfg, c, e, chain, ord) && w in c.hosts
    ensures ClaimsInside(chain, Said(c, w))
  {
    assert HostOk(cfg, c.net, e, chain, w, c.hosts[w]);
    forall m | m in Said(c, w) && IsClaim(m) ensures m.term in chain && End(m) <= |chain[m.term]| {
      assert MessageOk(cfg, c.net, e, chain, m);
    }
  }

  /** A claim of an entry that was not there before is a new one. */
  lemma {:induction false} ClaimedIsMarked(chain: Chains, chain': Chains, ms: set<Message>, w: NodeId, t: nat, k: nat)
    requires ClaimsInside(chain, ms) && ClaimedBy(ms, w, t, k) && ChainStep(chain, chain') && Marked(chain', t, k)
    ensures Marked(chain, t, k) && chain'[t][..k] == chain[t][..k]
  {
    var m :| m in ms && IsClaim(m) && m.from == w && m.term == t && End(m) >= k;
    assert chain'[t][k - 1] == chain[t][k - 1];
  }

  // ----- from one state to the next -----

  /** A claim of w that is new is of the term w is in now. */
  ghost predicate ClaimsFresh(c: State, c': State, w: NodeId)
    requires w in c.hosts && w in c'.hosts
  {
    forall m :: m in Said(c', w) && IsClaim(m) && m.from == w ==> m in Said(c, w) || m.term == c'.hosts[w].node.term
  }

  lemma {:induction false} OldClaim(c: State, c': State, w: NodeId, t: nat, k: nat)
    requires w in c.hosts && w in c'.hosts && ClaimsFresh(c, c', w) && t < c'.hosts[w].node.term
    requires ClaimedBy(Said(c', w), w, t, k)
    ensures ClaimedBy(Said(c, w), w, t, k)
  {
    var m :| m in Said(c', w) && IsClaim(m) && m.from == w && m.term == t && End(m) >= k;
  }

  /** What was an informed election stays one. */
  lemma {:induction false} ElectionStaysInformed(cfg: Config, c: State, c': State, e: Elections, chain: Chains, chain': Chains,
                                                 ord: seq<nat>, i: nat, w: NodeId)
    requires w in c.hosts && w in c'.hosts && i < |ord| && ElectionInformed(c, e, chain, ord, i, w)
    requires ClaimsInside(chain, Said(c, w)) && ClaimsFresh(c, c', w) && ChainStep(chain, chain') && c'.hosts[w].node.term >= ord[i]
    requires forall u :: u in ord ==> u in chain
    ensures ElectionInformed(c', e, chain', ord, i, w)
  {
    StepGrows(chain, chain');
    forall t: nat, k: nat | t < ord[i] && Marked(chain', t, k) && AllHave(chain', ord[..i], t, k) && ClaimedBy(Said(c', w), w, t, k)
      ensures Has(chain', t, k, ord[i])
    {
      OldClaim(c, c', w, t, k);
      ClaimedIsMarked(chain, chain', Said(c, w), w, t, k);
      AllHadIt(chain, chain', ord[..i], ord[..i], t, k);
      HasIt(chain, chain', t, k, ord[i]);
    }
  }

  lemma {:induction false} PrefixOrder(c: State, e: Elections, e': Elections, chain: Chains, ord: seq<nat>, u: nat, i: nat, w: NodeId)
    requires w in c.hosts && i < |ord| && ElectionInformed(c, e, chain, ord, i, w)
    ensures ElectionInformed(c, e', chain, ord + [u], i, w)
  {
    assert (ord + [u])[..i] == ord[..i] && (ord + [u])[i] == ord[i];
  }

  /** What was an informed vote stays one, while the candidate keeps its log. */
  lemma {:induction false} VoteStaysInformed(cfg: Config, c: State, c': State, e: Elections, e': Elections, chain: Chains, chain': Chains,
                                             ord: seq<nat>, ord': seq<nat>, n: Node, n': Node, w: NodeId)
    requires w in c.hosts && w in c'.hosts && Valid(n.log) && Valid(n'.log) && LogOk(chain, n.log)
    requires VoteIsInformed(e, chain, ord, n, w, Said(c, w)) && n'.term == n.term && Logical(n'.log) == Logical(n.log)
    requires ClaimsInside(chain, Said(c, w)) && ClaimsFresh(c, c', w) && ChainStep(chain, chain') && c'.hosts[w].node.term >= n.term
    requires forall u :: u in ord ==> u in ord' && u in chain
    requires forall u :: u in chain ==> (u in e'.quorum <==> u in e.quorum) && (u in e.quorum ==> e'.quorum[u] == e.quorum[u])
    ensures VoteIsInformed(e', chain', ord', n', w, Said(c', w))
  {
    forall t: nat | HasTerm(Logical(n'.log), t) && t in e'.quorum && w in e'.quorum[t] ensures t <= n'.term {
      var i :| 0 <= i < |Logical(n.log)| && Logical(n.log)[i].term == t;
      assert Backed(chain, Logical(n.log), i);
      assert HasTerm(Logical(n.log), t);
    }
    forall t: nat, k: nat | t < n'.term && Marked(chain', t, k) && AllHave(chain', ord', t, k) && ClaimedBy(Said(c', w), w, t, k)
      ensures chain'[t][..k] <= Logical(n'.log)
    {
      OldClaim(c, c', w, t, k);
      ClaimedIsMarked(chain, chain', Said(c, w), w, t, k);
      AllHadIt(chain, chain', ord, ord', t, k);
    }
  }

  // ----- Leader Completeness -----

  lemma {:induction false} MeetingVoter(cfg: Config, c: State, e: Elections, u: nat, t: nat, k: nat) returns (w: NodeId)
    requires ValidConfig(cfg) && VoteInv(cfg, c, e) && u in e.winner && |Backers(cfg, c.net, t, k)| >= Quorum(cfg)
    ensures u in e.quorum && w in e.quorum[u] && w in c.hosts && ClaimedBy(c.net, w, t, k)
  {
    assert ElectionOk(cfg, c.net, e, u);
    DistinctCount(cfg.voters);
    w := MajoritiesMeet(e.quorum[u], Backers(cfg, c.net, t, k), Elements(cfg.voters));
  }

  /** If every term elected before has it, so has the next one. */
  lemma {:induction false} NextHasIt(cfg: Config, c: State, e: Elections, chain: Chains, ord: seq<nat>, t: nat, k: nat, i: nat)
    requires ValidConfig(cfg) && VoteInv(cfg, c, e) && OrderOk(c, e, chain, ord) && Committed(cfg, c.net, chain, t, k)
    requires i < |ord| && AllHave(chain, ord[..i], t, k) && ord[i] > t
    ensures Has(chain, t, k, ord[i])
  {
    hide VoteInv;
    hide AllHave;
    hide Has;
    assert ord[i] in Elements(ord);
    var w := MeetingVoter(cfg, c, e, ord[i], t, k);
    assert ElectionInformed(c, e, chain, ord, i, w);
    ClaimedMore(c.net, Said(c, w), w, t, k, k);
  }

  lemma {:induction false} NobodyBefore(chain: Chains, ord: seq<nat>, t: nat, k: nat)
    ensures AllHave(chain, ord[..0], t, k)
  {
  }

  lemma {:induction false} OneMoreHas(chain: Chains, ord: seq<nat>, t: nat, k: nat, i: nat)
    requires i < |ord| && AllHave(chain, ord[..i], t, k) && (ord[i] > t ==> Has(chain, t, k, ord[i]))
    ensures AllHave(chain, ord[..i + 1], t, k)
  {
    assert ord[..i + 1] == ord[..i] + [ord[i]];
  }

  /** Every later term has what is committed, in the order in which leaders were elected. */
  lemma {:induction false} CommittedIsHad(cfg: Config, c: State, e: Elections, chain: Chains, ord: seq<nat>, t: nat, k: nat, i: nat)
    requires ValidConfig(cfg) && VoteInv(cfg, c, e) && OrderOk(c, e, chain, ord) && Committed(cfg, c.net, chain, t, k) && i <= |ord|
    ensures AllHave(chain, ord[..i], t, k)
    decreases i
  {
    hide VoteInv;
    hide OrderOk;
    hide AllHave;
    hide Has;
    hide Committed;
    hide ValidConfig;
    if i == 0 {
      NobodyBefore(chain, ord, t, k);
    } else {
      CommittedIsHad(cfg, c, e, chain, ord, t, k, i - 1);
      if ord[i - 1] > t { NextHasIt(cfg, c, e, chain, ord, t, k, i - 1); }
      OneMoreHas(chain, ord, t, k, i - 1);
    }
  }

  lemma {:induction false} LeadersAreComplete(cfg: Config, c: State, e: Elections, chain: Chains, ord: seq<nat>, t: nat, k: nat)
    requires ValidConfig(cfg) && VoteInv(cfg, c, e) && OrderOk(c, e, chain, ord) && Committed(cfg, c.net, chain, t, k)
    ensures AllHave(chain, ord, t, k)
  {
    CommittedIsHad(cfg, c, e, chain, ord, t, k, |ord|);
    assert ord[..|ord|] == ord;
  }
}
