/** What nodes claim to hold.  An append claims that its sender has the log of its term through the last
    entry it carries; an accepting reply claims the same of the follower.  An index of a leader's own
    term that a quorum claims is committed. */
module Claims {
  import opened RaftTypes
  import opened NodeSpec
  import opened Canon

  ghost predicate IsClaim(m: Message) { m.typ == MsgApp || (m.typ == MsgAppResp && !m.reject) }

  /** The last index that a claim is about. */
  function End(m: Message): nat { if m.typ == MsgApp then m.index + |m.entries| else m.index }

  /** w claims index k of term t's log in one of these messages. */
  ghost predicate ClaimedBy(ms: set<Message>, w: NodeId, t: nat, k: nat) {
    exists m :: m in ms && IsClaim(m) && m.from == w && m.term == t && End(m) >= k
  }

  /** Index k of term t's log is an entry of that term. */
  ghost predicate Marked(chain: Chains, t: nat, k: nat) {
    t in chain && 1 <= k <= |chain[t]| && chain[t][k - 1].term == t
  }

  /** The log of term u starts with the first k entries of term t's. */
  ghost predicate Has(chain: Chains, t: nat, k: nat, u: nat) {
    t in chain && k <= |chain[t]| && u in chain && chain[t][..k] <= chain[u]
  }

  /** Every later term among `ord` has them. */
  ghost predicate AllHave(chain: Chains, ord: seq<nat>, t: nat, k: nat) {
    forall u :: u in ord && u > t ==> Has(chain, t, k, u)
  }

  /** Voters that claim index k of term t's log. */
  ghost function Backers(cfg: Config, net: set<Message>, t: nat, k: nat): set<NodeId> {
    set w | w in Elements(cfg.voters) && ClaimedBy(net, w, t, k)
  }

  ghost predicate Committed(cfg: Config, net: set<Message>, chain: Chains, t: nat, k: nat) {
    Marked(chain, t, k) && |Backers(cfg, net, t, k)| >= Quorum(cfg)
  }

  /** Terms never fall along a log, and stay up to `t`. */
  ghost predicate Rising(log: seq<Entry>, t: nat) {
    && (forall i, j :: 0 <= i <= j < |log| ==> log[i].term <= log[j].term)
    && (forall i :: 0 <= i < |log| ==> log[i].term <= t)
  }

  // ----- growing logs -----

  /** A term's log may get one more entry, of that term. */
  ghost predicate OneMore(t: nat, log: seq<Entry>, log': seq<Entry>) {
    log' == log || (|log'| == |log| + 1 && log <= log' && log'[|log|].term == t)
  }

  /** No chain is lost, and those there were get at most one more entry. */
  ghost predicate ChainStep(chain: Chains, chain': Chains) {
    forall t :: t in chain ==> t in chain' && OneMore(t, chain[t], chain'[t])
  }

  lemma {:induction false} StepGrows(chain: Chains, chain': Chains)
    requires ChainStep(chain, chain')
    ensures Grows(chain, chain')
  {
  }

  lemma {:induction false} ClaimedMore(ms: set<Message>, ms': set<Message>, w: NodeId, t: nat, k: nat, k': nat)
    requires ClaimedBy(ms, w, t, k) && ms <= ms' && k' <= k
    ensures ClaimedBy(ms', w, t, k')
  {
  }

  /** What is committed stays committed. */
  lemma {:induction false} CommittedStays(cfg: Config, net: set<Message>, net': set<Message>, chain: Chains, chain': Chains, t: nat, k: nat)
    requires Committed(cfg, net, chain, t, k) && net <= net' && Grows(chain, chain')
    ensures Committed(cfg, net', chain', t, k) && chain'[t][..k] == chain[t][..k]
  {
    var a, b := Backers(cfg, net, t, k), Backers(cfg, net', t, k);
    forall w | w in a ensures w in b { ClaimedMore(net, net', w, t, k, k); }
    SubsetCount(a, b);
    assert chain'[t][..k] == chain[t][..k];
    assert chain'[t][k - 1] == chain[t][k - 1];
  }

  /** A term that has an older term's marked prefix had it when that term's log was shorter. */
  lemma {:induction false} HadIt(chain: Chains, chain': Chains, t: nat, k: nat, u: nat)
    requires ChainStep(chain, chain') && Marked(chain, t, k) && u in chain && u != t && Has(chain', t, k, u)
    ensures Has(chain, t, k, u)
  {
    var p := chain[t][..k];
    assert chain'[t][..k] == p;
    assert p[k - 1] == chain'[u][k - 1];
  }

  lemma {:induction false} HasIt(chain: Chains, chain': Chains, t: nat, k: nat, u: nat)
    requires Grows(chain, chain') && Has(chain, t, k, u)
    ensures Has(chain', t, k, u)
  {
    assert chain'[t][..k] == chain[t][..k];
  }

  lemma {:induction false} AllHadIt(chain: Chains, chain': Chains, ord: seq<nat>, ord': seq<nat>, t: nat, k: nat)
    requires ChainStep(chain, chain') && Marked(chain, t, k) && AllHave(chain', ord', t, k)
    requires forall u :: u in ord ==> u in ord' && u in chain
    ensures AllHave(chain, ord, t, k)
  {
    forall u | u in ord && u > t ensures Has(chain, t, k, u) { HadIt(chain, chain', t, k, u); }
  }
}
