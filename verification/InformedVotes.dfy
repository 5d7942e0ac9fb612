/** A vote goes to a log at least as up-to-date as the voter's, and an election to a log that rises to
    the new term and holds what its voters claimed. */
module InformedVotes {
  import opened RaftTypes
  import opened LogSpec
  import opened LogTheorems
  import opened NodeSpec
  import opened Cluster
  import opened Canon
  import opened Claims
  import opened Votes
  import opened ElectionSteps
  import opened Commitment
  import opened KeptSteps
  import opened ElectionOrder

  function FinalTerm(log: seq<Entry>): nat { if log == [] then 0 else log[|log| - 1].term }

  lemma {:induction false} FinalTermIs(l: Log)
    requires Valid(l)
    ensures LastTerm(l) == FinalTerm(Logical(l)) && LastIndex(l) == |Logical(l)|
  {
    LogicalNumbered(l);
    if LastIndex(l) > 0 { TermRefines(l, LastIndex(l)); }
  }

  // ----- terms rise -----

  /** A canonical log is a prefix of its final term's log. */
  lemma {:induction false} FinalChain(chain: Chains, log: seq<Entry>)
    requires Canonical(chain, log) && log != []
    ensures FinalTerm(log) in chain && log <= chain[FinalTerm(log)]
  {
    assert Backed(chain, log, |log| - 1);
  }

  lemma {:induction false} CanonicalRises(chain: Chains, log: seq<Entry>)
    requires Canonical(chain, log) && ChainsRise(chain)
    ensures Rising(log, FinalTerm(log))
  {
    if log != [] {
      FinalChain(chain, log);
      assert Rising(chain[FinalTerm(log)], FinalTerm(log));
    }
  }

  // ----- a vote -----

  ghost predicate UpToDate(a: seq<Entry>, b: seq<Entry>) {
    FinalTerm(a) > FinalTerm(b) || (FinalTerm(a) == FinalTerm(b) && |a| >= |b|)
  }

  /** What the voter's log starts with, a log that is at least as up-to-date starts with too. */
  lemma {:induction false} UpToDateHasIt(chain: Chains, ord: seq<nat>, a: seq<Entry>, b: seq<Entry>, t: nat, k: nat)
    requires Canonical(chain, a) && Canonical(chain, b) && ChainsRise(chain) && UpToDate(a, b)
    requires Marked(chain, t, k) && AllHave(chain, ord, t, k) && (forall u :: u in chain ==> u in ord)
    requires chain[t][..k] <= b
    ensures chain[t][..k] <= a
  {
    var p := chain[t][..k];
    assert b[k - 1] == p[k - 1];
    FinalChain(chain, b);
    CanonicalRises(chain, b);
    assert FinalTerm(b) >= t;
    FinalChain(chain, a);
    CanonicalRises(chain, a);
    if FinalTerm(a) > FinalTerm(b) {
      var u := FinalTerm(a);
      assert Has(chain, t, k, u);
      assert Rising(chain[u], u);
      assert chain[u][k - 1] == p[k - 1] && chain[u][|a| - 1] == a[|a| - 1];
    }
  }

  lemma {:induction false} GrantComparesLogs(n: Node, m: Message, cand: Log)
    requires Valid(n.log) && Valid(cand) && GrantsVote(n, m) && m.logTerm == LastTerm(cand) && m.index == LastIndex(cand)
    ensures UpToDate(Logical(cand), Logical(n.log))
  {
    FinalTermIs(n.log);
    FinalTermIs(cand);
  }

  /** What an idle host has claimed is in its log. */
  lemma {:induction false} ClaimedIsLogical(net: set<Message>, x: NodeId, h: Host, t: nat, k: nat, p: seq<Entry>)
    requires Valid(h.node.log) && h.phase.Idle? && Kept(net, x, h, t, k, p) && |p| == k && ClaimedBy(net + Pending(h), x, t, k)
    ensures p <= Logical(h.node.log)
  {
    if ClaimedBy(net, x, t, k) {
      StoredIsLogical(h.node.log, k, p);
    } else {
      var m := ClaimedWhere(net, net + Pending(h), x, t, k);
      assert ClaimedBy(h.node.msgs, x, t, k);
    }
  }

  lemma {:induction false} QuorumIsRecorded(cfg: Config, c: State, e: Elections, t: nat)
    requires VoteInv(cfg, c, e) && t in e.quorum
    ensures t in e.winner
  {
  }

  /** w, idle in term U, votes for x: the vote is informed. */
  lemma {:induction false} NewVoteIsInformed(cfg: Config, c: State, e: Elections, chain: Chains, ord: seq<nat>, w: NodeId, x: NodeId, n: Node, m: Message)
    requires VoteInv(cfg, c, e) && w in c.hosts && x in c.hosts && c.hosts[w].phase.Idle? && Valid(c.hosts[w].node.log)
    requires KeepsClaims(c.net, chain, ord, w, c.hosts[w]) && LogOk(chain, c.hosts[w].node.log)
    requires Valid(c.hosts[x].node.log) && LogOk(chain, c.hosts[x].node.log) && ChainsRise(chain)
    requires forall u :: u in chain ==> u in ord
    requires n.log == c.hosts[w].node.log && n.term >= c.hosts[w].node.term && n.term == m.term == c.hosts[x].node.term
    requires GrantsVote(n, m) && m.logTerm == LastTerm(c.hosts[x].node.log) && m.index == LastIndex(c.hosts[x].node.log)
    ensures VoteIsInformed(e, chain, ord, c.hosts[x].node, w, Said(c, w))
  {
    hide VoteInv;
    var cand, h := c.hosts[x].node, c.hosts[w];
    forall t: nat | HasTerm(Logical(cand.log), t) && t in e.quorum && w in e.quorum[t] ensures t <= cand.term {
      assert t in e.winner by { QuorumIsRecorded(cfg, c, e, t); }
      VoterMovedOn(cfg, c, e, t, w);
    }
    hide HasTerm;
    GrantComparesLogs(n, m, cand.log);
    hide GrantsVote;
    hide UpToDate;
    hide Canonical;
    forall t: nat, k: nat | t < cand.term && Marked(chain, t, k) && AllHave(chain, ord, t, k) && ClaimedBy(Said(c, w), w, t, k)
      ensures chain[t][..k] <= Logical(cand.log)
    {
      ClaimedIsLogical(c.net, w, h, t, k, chain[t][..k]);
      UpToDateHasIt(chain, ord, Logical(cand.log), Logical(h.node.log), t, k);
    }
  }

  // ----- an election -----

  lemma {:induction false} DiskIsBehind(cfg: Config, c: State, e: Elections, x: NodeId)
    requires VoteInv(cfg, c, e) && x in c.hosts
    ensures c.hosts[x].disk.term <= c.hosts[x].node.term
  {
    assert HostVotes(cfg, c.net, e, x, c.hosts[x]);
  }

  lemma {:induction false} TermIsElected(chain: Chains, log: seq<Entry>, i: nat)
    requires Canonical(chain, log) && i < |log|
    ensures log[i].term in chain && HasTerm(log, log[i].term)
  {
    assert Backed(chain, log, i);
  }

  /** x, a candidate with a quorum: every term of its log is earlier than its own. */
  lemma {:induction false} WinnerRises(cfg: Config, c: State, e: Elections, chain: Chains, ord: seq<nat>, x: NodeId, votes: seq<NodeId>, i: nat)
    requires ValidConfig(cfg) && VoteInv(cfg, c, e) && chain.Keys == e.winner.Keys && x in c.hosts
    requires var n := c.hosts[x].node; Valid(n.log) && LogOk(chain, n.log) && n.role == Candidate && n.id == x && n.term !in chain && i < |Logical(n.log)|
    requires BallotOk(cfg, c.net, c.hosts[x].node.(votes := votes)) && |votes| >= Quorum(cfg)
    requires forall w :: w in c.hosts ==> CandidateOk(c, e, chain, ord, x, w)
    ensures Logical(c.hosts[x].node.log)[i].term < c.hosts[x].node.term
  {
    hide VoteInv;
    hide BallotOk;
    hide HasTerm;
    hide Canonical;
    hide Logical;
    hide CandidateOk;
    hide Numbered;
    var n := c.hosts[x].node;
    var t := Logical(n.log)[i].term;
    TermIsElected(chain, Logical(n.log), i);
    var w := VoterOfBoth(cfg, c, e, n.(votes := votes), t);
    VoterMovedOn(cfg, c, e, t, w);
    DiskIsBehind(cfg, c, e, x);
    if w != x { VoteBoundsTerm(c, e, chain, ord, x, w, t); }
  }

  lemma {:induction false} VoteBoundsTerm(c: State, e: Elections, chain: Chains, ord: seq<nat>, x: NodeId, w: NodeId, t: nat)
    requires x in c.hosts && w in c.hosts && Valid(c.hosts[x].node.log) && CandidateOk(c, e, chain, ord, x, w)
    requires c.hosts[x].node.role == Candidate && GrantMsg(w, x, c.hosts[x].node.term) in c.net
    requires HasTerm(Logical(c.hosts[x].node.log), t) && t in e.quorum && w in e.quorum[t]
    ensures t <= c.hosts[x].node.term
  {
    hide Logical;
    hide HasTerm;
    hide Has;
    hide AllHave;
  }

  lemma {:induction false} VoterOfBoth(cfg: Config, c: State, e: Elections, n: Node, t: nat) returns (w: NodeId)
    requires ValidConfig(cfg) && VoteInv(cfg, c, e) && BallotOk(cfg, c.net, n) && |n.votes| >= Quorum(cfg) && t in e.winner
    ensures t in e.quorum && w in e.quorum[t] && (w == n.id || GrantMsg(w, n.id, n.term) in c.net)
  {
    assert ElectionOk(cfg, c.net, e, t);
    DistinctCount(n.votes);
    DistinctCount(cfg.voters);
    w := MajoritiesMeet(Elements(n.votes), e.quorum[t], Elements(cfg.voters));
  }

  /** The winner has what its voter w claimed, if every later leader has it. */
  lemma {:induction false} WinnerHasIt(cfg: Config, c: State, e: Elections, chain: Chains, ord: seq<nat>, x: NodeId, w: NodeId, t: nat, k: nat)
    requires x in c.hosts && w in c.hosts && Valid(c.hosts[x].node.log) && c.hosts[x].phase.Idle? && c.hosts[x].node.role == Candidate
    requires CandidateOk(c, e, chain, ord, x, w) && KeepsClaims(c.net, chain, ord, x, c.hosts[x])
    requires w == x || GrantMsg(w, x, c.hosts[x].node.term) in c.net
    requires t < c.hosts[x].node.term && Marked(chain, t, k) && AllHave(chain, ord, t, k) && ClaimedBy(Said(c, w), w, t, k)
    ensures chain[t][..k] <= Logical(c.hosts[x].node.log)
  {
    if w == x { ClaimedIsLogical(c.net, x, c.hosts[x], t, k, chain[t][..k]); }
  }
}
