/** The part of the cluster invariant that speaks about votes.  It is about the reachable state and
    a record, carried along by the proofs, of who was elected in which term and by whom.  No log
    appears in it: it also holds where a log file was misread.

    A same-term step-down clears a candidate's vote, so "one vote per term" is false of the vote
    field.  What does hold is kept apart here: a grant that left in a message is never followed by
    a grant to somebody else in that term, and a node that was elected never grants in that term. */
module Votes {
  import opened RaftTypes
  import opened NodeSpec
  import opened Cluster

  datatype Elections = Elections(winner: map<nat, NodeId>, quorum: map<nat, set<NodeId>>)

  // ----- messages -----

  ghost predicate IsGrant(m: Message) { m.typ == MsgVoteResp && !m.reject }

  ghost predicate ElectionMsg(m: Message) { m.typ == MsgVote || IsGrant(m) }

  function GrantMsg(from: NodeId, to: NodeId, term: nat): Message { Message(MsgVoteResp, to, from, term) }

  /** y asked for votes in term t, and the request has left. */
  ghost predicate Asked(net: set<Message>, y: NodeId, t: nat) {
    exists m :: m in net && m.typ == MsgVote && m.from == y && m.term == t
  }

  ghost predicate VoteMsgOk(cfg: Config, net: set<Message>, m: Message) {
    && (ElectionMsg(m) ==> m.from in cfg.voters && m.to in cfg.voters && m.from != m.to && m.term >= 1)
    && (IsGrant(m) ==> m == GrantMsg(m.from, m.to, m.term) && Asked(net, m.to, m.term))
  }

  /** What a host has produced and not yet sent. */
  function Pending(h: Host): set<Message> {
    h.node.msgs + if h.phase.Idle? then {} else h.phase.rd.msgs
  }

  // ----- votes -----

  /** Grants of x are of terms up to `term`, and those of `term` itself went to `vote`. */
  ghost predicate VotesKept(ms: set<Message>, x: NodeId, term: nat, vote: NodeId) {
    forall g :: g in ms && IsGrant(g) && g.from == x ==> g.term <= term && (g.term == term ==> g.to == vote)
  }

  ghost predicate OneVotePerTerm(ms: set<Message>, x: NodeId) {
    forall g, g' :: g in ms && g' in ms && IsGrant(g) && IsGrant(g') && g.from == g'.from == x && g.term == g'.term
                    ==> g.to == g'.to
  }

  ghost predicate NoGrant(ms: set<Message>, x: NodeId, t: nat) {
    forall g :: g in ms && IsGrant(g) && g.from == x ==> g.term != t
  }

  ghost predicate AsksUpTo(ms: set<Message>, x: NodeId, term: nat) {
    forall m :: m in ms && m.typ == MsgVote && m.from == x ==> m.term <= term
  }

  ghost predicate ElectionMsgsAreOwn(ms: set<Message>, x: NodeId) {
    forall m :: m in ms && ElectionMsg(m) ==> m.from == x
  }

  /** Past term t, or in it with the vote on x itself. */
  ghost predicate Beyond(term: nat, vote: NodeId, t: nat, x: NodeId) { term > t || (term == t && vote == x) }

  ghost predicate ElectedStays(x: NodeId, h: Host, net: set<Message>, t: nat) {
    && NoGrant(Pending(h) + net, x, t)
    && Beyond(h.node.term, h.node.vote, t, x)
    && (h.node.term == t ==> h.node.role != Candidate)
    && Beyond(h.disk.term, h.disk.vote, t, x)
  }

  ghost predicate NoRepeats(s: seq<NodeId>) { forall i, j :: 0 <= i < j < |s| ==> s[i] != s[j] }

  ghost predicate BallotOk(cfg: Config, net: set<Message>, n: Node) {
    && NoRepeats(n.votes)
    && forall v :: v in n.votes ==> v in cfg.voters && (v == n.id || GrantMsg(v, n.id, n.term) in net)
  }

  ghost predicate VoteOk(cfg: Config, net: set<Message>, x: NodeId, h: Host) {
    var n := h.node;
    && n.id == x && n.cfg == cfg
    && h.disk.term <= n.term
    && (n.term == 0 ==> n.vote == 0 && n.role == Follower)
    && (h.disk.term == 0 ==> h.disk.vote == 0)
    && (n.role != Follower ==> n.vote == x && (h.disk.term == n.term ==> h.disk.vote == x))
    && VotesKept(Pending(h) + net, x, n.term, n.vote)
    && VotesKept(net, x, h.disk.term, h.disk.vote)
    && OneVotePerTerm(Pending(h) + net, x)
    && AsksUpTo(Pending(h), x, n.term)
    && AsksUpTo(net, x, h.disk.term)
    && ElectionMsgsAreOwn(Pending(h), x)
    && (n.role == Candidate ==> BallotOk(cfg, net, n))
  }

  /** Whoever was elected stands by it, and whoever leads was elected. */
  ghost predicate OfficeOk(net: set<Message>, e: Elections, x: NodeId, h: Host) {
    && (forall t :: t in e.winner && e.winner[t] == x ==> ElectedStays(x, h, net, t))
    && (h.node.role == Leader ==> h.node.term in e.winner && e.winner[h.node.term] == x)
  }

  /** The hard state on its way to disk is the node's, and messages leave only once it is there. */
  ghost predicate HardStateOk(h: Host) {
    match h.phase
    case Idle => true
    case Polled(rd) => rd.term == h.node.term && rd.vote == h.node.vote
    case Saved(rd) => rd.term == h.node.term && rd.vote == h.node.vote
    case Synced(rd) => h.disk.term == h.node.term && h.disk.vote == h.node.vote
  }

  ghost predicate HostVotes(cfg: Config, net: set<Message>, e: Elections, x: NodeId, h: Host) {
    && VoteOk(cfg, net, x, h)
    && OfficeOk(net, e, x, h)
    && HardStateOk(h)
    && forall m :: m in Pending(h) ==> VoteMsgOk(cfg, net, m)
  }

  // ----- the record -----

  ghost predicate ElectionOk(cfg: Config, net: set<Message>, e: Elections, t: nat)
    requires t in e.winner && t in e.quorum
  {
    && e.winner[t] in cfg.voters
    && e.quorum[t] <= Elements(cfg.voters)
    && |e.quorum[t]| >= Quorum(cfg)
    && forall v :: v in e.quorum[t] ==> v == e.winner[t] || GrantMsg(v, e.winner[t], t) in net
  }

  ghost predicate RecordOk(cfg: Config, net: set<Message>, e: Elections) {
    e.winner.Keys == e.quorum.Keys && forall t :: t in e.winner ==> ElectionOk(cfg, net, e, t)
  }

  ghost predicate VoteInv(cfg: Config, c: State, e: Elections) {
    && c.hosts.Keys == Elements(cfg.voters)
    && RecordOk(cfg, c.net, e)
    && (forall m :: m in c.net ==> VoteMsgOk(cfg, c.net, m))
    && (forall x :: x in c.hosts ==> HostVotes(cfg, c.net, e, x, c.hosts[x]))
  }

  /** The message is a grant that completes the candidate's quorum. */
  ghost predicate Wins(n: Node, m: Message) {
    && n.role == Candidate && m.term == n.term
    && IsGrant(m) && m.from !in n.votes && |n.votes| + 1 >= Quorum(n.cfg)
  }

  /** Elections are never forgotten. */
  ghost predicate WinnersStay(e: Elections, e': Elections) {
    forall t :: t in e.winner ==> t in e'.winner && e'.winner[t] == e.winner[t]
  }

  /** The record with x elected in term t. */
  function Won(e: Elections, x: NodeId, t: nat, voters: set<NodeId>): Elections {
    Elections(e.winner[t := x], e.quorum[t := voters])
  }

  /** The record after an action: a delivery may elect the host it is for. */
  ghost function ElectionsAfter(c: State, e: Elections, a: Action): Elections {
    if a.Deliver? && a.x in c.hosts && Wins(c.hosts[a.x].node, a.m)
    then var n := c.hosts[a.x].node; Won(e, a.x, n.term, Elements(n.votes + [a.m.from]))
    else e
  }

  lemma {:induction false} VotesStart(cfg: Config, c: State)
    requires ValidConfig(cfg) && Init(cfg, c)
    ensures VoteInv(cfg, c, Elections(map[], map[]))
  {
  }
}
