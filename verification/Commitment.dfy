/** The part of the cluster invariant that speaks about commitment, for careful runs.  The proofs carry
    along the order in which terms got their leaders. */
module Commitment {
  import opened Bytes
  import opened RaftTypes
  import opened LogSpec
  import opened NodeSpec
  import opened Cluster
  import opened Canon
  import opened Acceptance
  import opened Claims
  import opened Votes

  // ----- messages -----

  /** An append of term t that ends at index i has left. */
  ghost predicate AppendSent(net: set<Message>, t: nat, i: nat) {
    exists m :: m in net && m.typ == MsgApp && m.term == t && End(m) == i
  }

  /** A commit index that a node of term t may know of. */
  ghost predicate CommitKnown(cfg: Config, net: set<Message>, chain: Chains, t: nat, i: nat) {
    i == 0 || exists u: nat, k: nat :: Committed(cfg, net, chain, u, k) && u <= t && i <= k
  }

  /** An append is a run of its term's log, from that term's leader. */
  ghost predicate AppendOk(e: Elections, chain: Chains, m: Message) {
    m.typ == MsgApp ==>
      && m.term in chain && RunFull(chain[m.term], m.index, m.logTerm, m.entries)
      && m.term in e.winner && m.from == e.winner[m.term]
  }

  /** A reply speaks of an index of its term's log; an acceptance, of an append that was sent. */
  ghost predicate ReplyOk(net: set<Message>, chain: Chains, m: Message) {
    m.typ == MsgAppResp ==>
      && (m.index == 0 || (m.term in chain && m.index <= |chain[m.term]|))
      && (!m.reject ==> m.term in chain && AppendSent(net, m.term, m.index))
  }

  ghost predicate CommitFieldOk(cfg: Config, net: set<Message>, chain: Chains, m: Message) {
    m.typ == MsgApp || m.typ == MsgHeartbeat ==> CommitKnown(cfg, net, chain, m.term, m.commit)
  }

  ghost predicate MessageOk(cfg: Config, net: set<Message>, e: Elections, chain: Chains, m: Message) {
    AppendOk(e, chain, m) && ReplyOk(net, chain, m) && CommitFieldOk(cfg, net, chain, m)
  }

  // ----- one node -----

  /** An acceptance of index i in term t by v has left. */
  ghost predicate AckSent(net: set<Message>, v: NodeId, t: nat, i: nat) {
    exists m :: m in net && m.typ == MsgAppResp && !m.reject && m.from == v && m.term == t && m.index == i
  }

  /** What a leader believes of a peer lies inside its log and was acknowledged. */
  ghost predicate PeerOk(net: set<Message>, n: Node, v: NodeId)
    requires v in n.pr
  {
    && n.pr[v].nextIndex <= LastIndex(n.log) + 1 && n.pr[v].matchIndex <= LastIndex(n.log)
    && (v != n.id && n.pr[v].matchIndex > 0 ==> AckSent(net, v, n.term, n.pr[v].matchIndex))
  }

  ghost predicate PeersOk(cfg: Config, net: set<Message>, n: Node) {
    n.role == Leader ==> n.pr.Keys == Elements(cfg.voters) && forall v :: v in n.pr ==> PeerOk(net, n, v)
  }

  /** As far as the commit index reaches, the log is a committed one. */
  ghost predicate CommitOk(cfg: Config, net: set<Message>, chain: Chains, term: nat, log: seq<Entry>, i: nat) {
    i == 0 || exists u: nat, k: nat :: Committed(cfg, net, chain, u, k) && u <= term && i <= k && log[..Min(i, |log|)] <= chain[u]
  }

  ghost predicate NodeOk(cfg: Config, net: set<Message>, e: Elections, chain: Chains, n: Node) {
    && Valid(n.log)
    && PeersOk(cfg, net, n)
    && CommitOk(cfg, net, chain, n.term, Logical(n.log), n.log.committed)
  }

  ghost predicate OwnClaims(ms: set<Message>, x: NodeId, term: nat) {
    forall m :: m in ms && IsClaim(m) ==> m.from == x && m.term <= term
  }

  ghost predicate ClaimsUpTo(ms: set<Message>, x: NodeId, term: nat) {
    forall m :: m in ms && IsClaim(m) && m.from == x ==> m.term <= term
  }

  /** An entry handed to the state machine is a committed one. */
  ghost predicate HandedOk(cfg: Config, net: set<Message>, chain: Chains, en: Entry) {
    exists u: nat, k: nat :: Committed(cfg, net, chain, u, k) && 1 <= en.index <= k && chain[u][en.index - 1] == en
  }

  ghost predicate HostOk(cfg: Config, net: set<Message>, e: Elections, chain: Chains, x: NodeId, h: Host) {
    && NodeOk(cfg, net, e, chain, h.node)
    && OwnClaims(Pending(h), x, h.node.term)
    && ClaimsUpTo(net, x, h.disk.term)
    && (forall m :: m in Pending(h) ==> MessageOk(cfg, net, e, chain, m))
    && (!h.phase.Idle? ==> forall en :: en in h.phase.rd.committed ==> HandedOk(cfg, net, chain, en))
  }

  // ----- what was claimed is kept -----

  /** What storage holds, or will hold once the batch in hand is written. */
  function Durable(h: Host): seq<Entry> {
    if h.phase.Polled? then Persist(h.node.log, h.phase.rd.entries).stored else h.node.log.stored
  }

  predicate WindowBeyond(l: Log, k: nat) { l.window == [] || l.offset > k }

  /** The polled batch is in storage and still in the window. */
  predicate Written(h: Host) { (h.phase.Saved? || h.phase.Synced?) && h.phase.rd.entries != [] }

  /** The first k entries are p: in the log, if a message not yet polled claims them; in storage once the
      batch is written, if a polled message does; in storage for good, if the claim has left. */
  ghost predicate Kept(net: set<Message>, x: NodeId, h: Host, t: nat, k: nat, p: seq<Entry>)
    requires Valid(h.node.log)
  {
    && (ClaimedBy(h.node.msgs, x, t, k) ==> p <= Logical(h.node.log))
    && (!h.phase.Idle? && ClaimedBy(h.phase.rd.msgs, x, t, k) ==>
          p <= Durable(h) && (h.phase.rd.entries != [] || WindowBeyond(h.node.log, k)))
    && (ClaimedBy(net, x, t, k) ==>
          p <= h.node.log.stored && (Written(h) || WindowBeyond(h.node.log, k)))
  }

  ghost predicate KeepsClaims(net: set<Message>, chain: Chains, ord: seq<nat>, x: NodeId, h: Host)
    requires Valid(h.node.log)
  {
    forall t: nat, k: nat :: Marked(chain, t, k) && AllHave(chain, ord, t, k) ==> Kept(net, x, h, t, k, chain[t][..k])
  }

  // ----- elections -----

  /** A vote request of a candidate describes its log. */
  ghost predicate AsksOk(ms: set<Message>, x: NodeId, n: Node) {
    n.role == Candidate ==>
      forall m :: m in ms && m.typ == MsgVote && m.from == x && m.term == n.term ==>
        m.logTerm == LastTerm(n.log) && m.index == LastIndex(n.log)
  }

  ghost predicate HasTerm(log: seq<Entry>, t: nat) { exists i :: 0 <= i < |log| && log[i].term == t }

  /** Candidate n, voted for by w: no term of its log is later than its own if w took part in that term's
      election, and it holds what w has claimed. */
  ghost predicate VoteIsInformed(e: Elections, chain: Chains, ord: seq<nat>, n: Node, w: NodeId, claims: set<Message>)
    requires Valid(n.log)
  {
    && (forall t: nat :: HasTerm(Logical(n.log), t) && t in e.quorum && w in e.quorum[t] ==> t <= n.term)
    && (forall t: nat, k: nat :: t < n.term && Marked(chain, t, k) && AllHave(chain, ord, t, k) && ClaimedBy(claims, w, t, k)
          ==> chain[t][..k] <= Logical(n.log))
  }

  /** Everything host w has said or is about to say. */
  function Said(c: State, w: NodeId): set<Message>
    requires w in c.hosts
  {
    c.net + Pending(c.hosts[w])
  }

  ghost predicate CandidateOk(c: State, e: Elections, chain: Chains, ord: seq<nat>, x: NodeId, w: NodeId)
    requires x in c.hosts && w in c.hosts && Valid(c.hosts[x].node.log)
  {
    var n := c.hosts[x].node;
    n.role == Candidate && GrantMsg(w, x, n.term) in Said(c, w) ==> VoteIsInformed(e, chain, ord, n, w, Said(c, w))
  }

  /** The i-th election: if every later term elected before it has what one of its voters claimed, so has it. */
  ghost predicate ElectionInformed(c: State, e: Elections, chain: Chains, ord: seq<nat>, i: nat, w: NodeId)
    requires i < |ord| && w in c.hosts
  {
    forall t: nat, k: nat :: t < ord[i] && Marked(chain, t, k) && AllHave(chain, ord[..i], t, k) && ClaimedBy(Said(c, w), w, t, k)
      ==> Has(chain, t, k, ord[i])
  }

  ghost predicate OrderOk(c: State, e: Elections, chain: Chains, ord: seq<nat>) {
    && Elements(ord) == e.winner.Keys
    && forall i, w :: 0 <= i < |ord| && w in c.hosts && ord[i] in e.quorum && w in e.quorum[ord[i]] ==>
         ElectionInformed(c, e, chain, ord, i, w)
  }

  ghost predicate ChainsRise(chain: Chains) { forall t :: t in chain ==> Rising(chain[t], t) }

  ghost predicate CommitInv(cfg: Config, c: State, e: Elections, chain: Chains, ord: seq<nat>) {
    && ChainsRise(chain)
    && OrderOk(c, e, chain, ord)
    && (forall m :: m in c.net ==> MessageOk(cfg, c.net, e, chain, m))
    && (forall x :: x in c.hosts ==> HostOk(cfg, c.net, e, chain, x, c.hosts[x]))
    && (forall x :: x in c.hosts ==> KeepsClaims(c.net, chain, ord, x, c.hosts[x]))
    && (forall x :: x in c.hosts ==> AsksOk(Said(c, x), x, c.hosts[x].node))
    && (forall x, w :: x in c.hosts && w in c.hosts ==> CandidateOk(c, e, chain, ord, x, w))
  }
}
