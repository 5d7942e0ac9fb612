/** If the host that acts does its part, the invariant about commitment holds of the next state. */
module CarefulAccount {
  import opened RaftTypes
  import opened LogSpec
  import opened NodeSpec
  import opened Votes
  import opened Replication
  import opened Commitment
  import opened LeaderSteps
  import opened ElectionOrder
  import opened CarefulFrame

  /** x has given y a vote of y's term that it had not given before. */
  ghost predicate NewVote(s: Account, s': Account, x: NodeId, y: NodeId)
    requires x in s.c.hosts && x in s'.c.hosts && y in s'.c.hosts
  {
    var g := GrantMsg(x, y, s'.c.hosts[y].node.term); g in Said(s'.c, x) && g !in Said(s.c, x)
  }

  /** A vote that x has given now is an informed one. */
  ghost predicate NewVoteOk(s: Account, s': Account, x: NodeId, y: NodeId)
    requires x in s.c.hosts && x in s'.c.hosts && y in s'.c.hosts && Valid(s'.c.hosts[y].node.log)
  {
    NewVote(s, s', x, y) ==> CandidateOk(s'.c, s'.e, s'.chain, s'.ord, y, x)
  }

  /** What the acting host says and may be elected with. */
  ghost predicate SpeaksWell(s: Account, s': Account, x: NodeId)
    requires x in s.c.hosts && x in s'.c.hosts && Valid(s.c.hosts[x].node.log)
    requires forall y :: y in s'.c.hosts ==> Valid(s'.c.hosts[y].node.log)
  {
    && ClaimsFresh(s.c, s'.c, x)
    && CandidacyFresh(s.c.hosts[x], s'.c.hosts[x])
    && AsksOk(Said(s'.c, x), x, s'.c.hosts[x].node)
    && forall y :: y in s'.c.hosts ==> NewVoteOk(s, s', x, y)
  }

  /** What the acting host holds. */
  ghost predicate HoldsWell(cfg: Config, s': Account, x: NodeId)
    requires x in s'.c.hosts && Valid(s'.c.hosts[x].node.log)
  {
    && HostOk(cfg, s'.c.net, s'.e, s'.chain, x, s'.c.hosts[x])
    && KeepsClaims(s'.c.net, s'.chain, s'.ord, x, s'.c.hosts[x])
  }

  ghost predicate LastIsInformed(s: Account, i: nat)
    requires i < |s.ord|
  {
    forall w :: w in s.c.hosts && s.ord[i] in s.e.quorum && w in s.e.quorum[s.ord[i]] ==>
      ElectionInformed(s.c, s.e, s.chain, s.ord, i, w)
  }

  /** What everybody knows. */
  ghost predicate KnownWell(cfg: Config, s: Account, s': Account) {
    && ChainsRise(s'.chain)
    && NetOk(cfg, s'.c.net, s'.e, s'.chain)
    && (s'.ord != s.ord ==> |s.ord| < |s'.ord| && LastIsInformed(s', |s.ord|))
  }

  lemma {:induction false} LogsAreValid(s: Account)
    requires LogInv(s.c, s.e, s.chain)
    ensures forall y :: y in s.c.hosts ==> Valid(s.c.hosts[y].node.log)
  {
    forall y | y in s.c.hosts ensures Valid(s.c.hosts[y].node.log) { assert HostLog(s.chain, s.c.hosts[y]); }
  }

  lemma {:induction false} NextHosts(cfg: Config, s: Account, s': Account, x: NodeId)
    requires Holds(cfg, s) && HoldsApart(cfg, s') && Moves(s, s', x)
    requires Valid(s'.c.hosts[x].node.log) && HoldsWell(cfg, s', x)
    ensures forall y :: y in s'.c.hosts ==> HostOk(cfg, s'.c.net, s'.e, s'.chain, y, s'.c.hosts[y])
    ensures forall y :: y in s'.c.hosts ==> Valid(s'.c.hosts[y].node.log) && KeepsClaims(s'.c.net, s'.chain, s'.ord, y, s'.c.hosts[y])
  {
    hide Holds;
    hide VoteInv;
    hide HostOk;
    hide KeepsClaims;
    LogsAreValid(s');
    hide LogInv;
    hide Valid;
    forall y | y in s'.c.hosts && y != x
      ensures HostOk(cfg, s'.c.net, s'.e, s'.chain, y, s'.c.hosts[y]) && KeepsClaims(s'.c.net, s'.chain, s'.ord, y, s'.c.hosts[y])
    {
      OthersOk(cfg, s, s', x, y);
      OthersKeep(cfg, s, s', x, y);
    }
  }

  lemma {:induction false} WasAsking(cfg: Config, s: Account, y: NodeId)
    requires Holds(cfg, s) && y in s.c.hosts
    ensures AsksOk(Said(s.c, y), y, s.c.hosts[y].node) && Valid(s.c.hosts[y].node.log)
  {
    hide VoteInv;
    LogsAreValid(s);
  }

  lemma {:induction false} NextVotes(cfg: Config, s: Account, s': Account, x: NodeId, y: NodeId, w: NodeId)
    requires Holds(cfg, s) && HoldsApart(cfg, s') && Moves(s, s', x) && y in s'.c.hosts && w in s'.c.hosts
    requires Valid(s.c.hosts[x].node.log) && forall y :: y in s'.c.hosts ==> Valid(s'.c.hosts[y].node.log)
    requires SpeaksWell(s, s', x)
    ensures CandidateOk(s'.c, s'.e, s'.chain, s'.ord, y, w)
  {
    hide Holds;
    hide VoteInv;
    hide LogInv;
    hide CandidateOk;
    hide ClaimsFresh;
    hide AsksOk;
    hide Valid;
    WasAsking(cfg, s, y);
    var g := GrantMsg(w, y, s'.c.hosts[y].node.term);
    assert ElectionMsg(g);
    assert NewVoteOk(s, s', x, y);
    if g !in Said(s'.c, w) || g in Said(s.c, w) || w != x {
      PastVote(cfg, s, s', x, y, w);
    }
  }

  lemma {:induction false} NextAsks(cfg: Config, s: Account, s': Account, x: NodeId, y: NodeId)
    requires Holds(cfg, s) && Moves(s, s', x) && y in s'.c.hosts && AsksOk(Said(s'.c, x), x, s'.c.hosts[x].node)
    ensures AsksOk(Said(s'.c, y), y, s'.c.hosts[y].node)
  {
    hide Holds;
    hide AsksOk;
    WasAsking(cfg, s, y);
    if y != x { OthersAsk(s, s', x, y); }
  }

  lemma {:induction false} NextOrder(cfg: Config, s: Account, s': Account, x: NodeId)
    requires Holds(cfg, s) && HoldsApart(cfg, s') && Moves(s, s', x) && KnownWell(cfg, s, s') && ClaimsFresh(s.c, s'.c, x)
    ensures OrderOk(s'.c, s'.e, s'.chain, s'.ord)
  {
    hide Holds;
    hide VoteInv;
    hide LogInv;
    hide ElectionInformed;
    hide NetOk;
    hide ChainsRise;
    hide ClaimsFresh;
    forall i, w | 0 <= i < |s'.ord| && w in s'.c.hosts && s'.ord[i] in s'.e.quorum && w in s'.e.quorum[s'.ord[i]]
      ensures ElectionInformed(s'.c, s'.e, s'.chain, s'.ord, i, w)
    {
      if i < |s.ord| { PastElection(cfg, s, s', x, i, w); }
    }
  }

  /** The invariant again. */
  lemma {:induction false} Assembled(cfg: Config, s: Account, s': Account, x: NodeId)
    requires Holds(cfg, s) && HoldsApart(cfg, s') && Moves(s, s', x) && KnownWell(cfg, s, s')
    requires Valid(s.c.hosts[x].node.log) && forall y :: y in s'.c.hosts ==> Valid(s'.c.hosts[y].node.log)
    requires HoldsWell(cfg, s', x) && SpeaksWell(s, s', x)
    ensures Holds(cfg, s')
  {
    hide VoteInv;
    hide LogInv;
    hide Holds;
    hide CommitInv;
    hide OrderOk;
    hide HostOk;
    hide AsksOk;
    hide KeepsClaims;
    hide CandidateOk;
    hide MessageOk;
    hide Valid;
    hide ClaimsFresh;
    hide LastIsInformed;
    hide ChainsRise;
    hide NewVoteOk;
    hide CandidacyFresh;
    NextHosts(cfg, s, s', x);
    NextOrder(cfg, s, s', x);
    forall y | y in s'.c.hosts ensures AsksOk(Said(s'.c, y), y, s'.c.hosts[y].node) { NextAsks(cfg, s, s', x, y); }
    forall y, w | y in s'.c.hosts && w in s'.c.hosts ensures CandidateOk(s'.c, s'.e, s'.chain, s'.ord, y, w) {
      NextVotes(cfg, s, s', x, y, w);
    }
    AllTogether(cfg, s');
  }

  lemma {:induction false} AllTogether(cfg: Config, s: Account)
    requires HoldsApart(cfg, s) && ChainsRise(s.chain) && NetOk(cfg, s.c.net, s.e, s.chain) && OrderOk(s.c, s.e, s.chain, s.ord)
    requires forall y :: y in s.c.hosts ==> HostOk(cfg, s.c.net, s.e, s.chain, y, s.c.hosts[y])
    requires forall y :: y in s.c.hosts ==> Valid(s.c.hosts[y].node.log) && KeepsClaims(s.c.net, s.chain, s.ord, y, s.c.hosts[y])
    requires forall y :: y in s.c.hosts ==> AsksOk(Said(s.c, y), y, s.c.hosts[y].node)
    requires forall y, w :: y in s.c.hosts && w in s.c.hosts ==> CandidateOk(s.c, s.e, s.chain, s.ord, y, w)
    ensures Holds(cfg, s)
  {
    hide VoteInv;
    hide LogInv;
    hide ChainsRise;
    hide OrderOk;
    hide HostOk;
    hide AsksOk;
    hide KeepsClaims;
    hide CandidateOk;
    hide MessageOk;
    hide Valid;
    hide Said;
  }
}
