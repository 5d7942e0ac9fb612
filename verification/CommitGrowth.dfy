/** What is said about commitment stays true as messages are sent and logs grow, and as a leader takes
    office or appends. */
module CommitGrowth {
  import opened Bytes
  import opened RaftTypes
  import opened LogSpec
  import opened LogTheorems
  import opened NodeSpec
  import opened Cluster
  import opened Canon
  import opened Acceptance
  import opened Claims
  import opened Votes
  import opened NodeEffects
  import opened Commitment
  import opened LeaderSteps

  // ----- more messages, longer logs -----

  lemma {:induction false} KnownGrows(cfg: Config, net: set<Message>, net': set<Message>, chain: Chains, chain': Chains, t: nat, i: nat)
    requires CommitKnown(cfg, net, chain, t, i) && net <= net' && Grows(chain, chain')
    ensures CommitKnown(cfg, net', chain', t, i)
  {
    if i != 0 {
      var u: nat, k: nat :| Committed(cfg, net, chain, u, k) && u <= t && i <= k;
      CommittedStays(cfg, net, net', chain, chain', u, k);
    }
  }

  lemma {:induction false} MessageGrows(cfg: Config, net: set<Message>, net': set<Message>, e: Elections, e': Elections,
                                        chain: Chains, chain': Chains, m: Message)
    requires MessageOk(cfg, net, e, chain, m) && net <= net' && WinnersStay(e, e') && Grows(chain, chain')
    ensures MessageOk(cfg, net', e', chain', m)
  {
    hide CommitKnown;
    if m.typ == MsgApp || m.typ == MsgHeartbeat { KnownGrows(cfg, net, net', chain, chain', m.term, m.commit); }
    if m.typ == MsgApp { RunGrows(chain[m.term], chain'[m.term], m.index, m.logTerm, m.entries); }
  }

  lemma {:induction false} RunGrows(log: seq<Entry>, log': seq<Entry>, prev: nat, prevTerm: nat, es: seq<Entry>)
    requires RunFull(log, prev, prevTerm, es) && log <= log'
    ensures RunFull(log', prev, prevTerm, es)
  {
  }

  /** The commit index stays in order when the log keeps what it reaches. */
  lemma {:induction false} CommitGrows(cfg: Config, net: set<Message>, net': set<Message>, chain: Chains, chain': Chains,
                                       term: nat, term': nat, log: seq<Entry>, log': seq<Entry>, i: nat)
    requires CommitOk(cfg, net, chain, term, log, i) && net <= net' && Grows(chain, chain') && term <= term'
    requires log'[..Min(i, |log'|)] <= log[..Min(i, |log|)]
    ensures CommitOk(cfg, net', chain', term', log', i)
  {
    if i != 0 {
      var u: nat, k: nat :| Committed(cfg, net, chain, u, k) && u <= term && i <= k && log[..Min(i, |log|)] <= chain[u];
      CommittedStays(cfg, net, net', chain, chain', u, k);
      assert log'[..Min(i, |log'|)] <= chain'[u];
    }
  }

  lemma {:induction false} HandedGrows(cfg: Config, net: set<Message>, net': set<Message>, chain: Chains, chain': Chains, en: Entry)
    requires HandedOk(cfg, net, chain, en) && net <= net' && Grows(chain, chain')
    ensures HandedOk(cfg, net', chain', en)
  {
    var u: nat, k: nat :| Committed(cfg, net, chain, u, k) && 1 <= en.index <= k && chain[u][en.index - 1] == en;
    CommittedStays(cfg, net, net', chain, chain', u, k);
    assert chain'[u][en.index - 1] == en;
  }

  lemma {:induction false} NodeGrows(cfg: Config, net: set<Message>, net': set<Message>, e: Elections, e': Elections,
                                     chain: Chains, chain': Chains, n: Node)
    requires NodeOk(cfg, net, e, chain, n) && net <= net' && Grows(chain, chain')
    ensures NodeOk(cfg, net', e', chain', n)
  {
    CommitGrows(cfg, net, net', chain, chain', n.term, n.term, Logical(n.log), Logical(n.log), n.log.committed);
    hide CommitOk;
    if n.role == Leader {
      forall v | v in n.pr ensures PeerOk(net', n, v) { assert PeerOk(net, n, v); }
    }
  }

  /** A host that does nothing while others act. */
  lemma {:induction false} BystanderGrows(cfg: Config, net: set<Message>, net': set<Message>, e: Elections, e': Elections,
                                          chain: Chains, chain': Chains, x: NodeId, h: Host)
    requires HostOk(cfg, net, e, chain, x, h) && net <= net' && WinnersStay(e, e') && Grows(chain, chain')
    requires ClaimsUpTo(net', x, h.disk.term)
    ensures HostOk(cfg, net', e', chain', x, h)
  {
    NodeGrows(cfg, net, net', e, e', chain, chain', h.node);
    hide NodeOk;
    hide MessageOk;
    hide HandedOk;
    hide Grows;
    forall m | m in Pending(h) ensures MessageOk(cfg, net', e', chain', m) {
      MessageGrows(cfg, net, net', e, e', chain, chain', m);
    }
    if !h.phase.Idle? {
      forall en | en in h.phase.rd.committed ensures HandedOk(cfg, net', chain', en) {
        HandedGrows(cfg, net, net', chain, chain', en);
      }
    }
  }

  // ----- the leader's own append -----

  /** Behind the commit index, or not at all. */
  lemma {:induction false} OwnAppendKeepsCommit(l: Log, l': Log, en: Entry)
    requires Valid(l) && AppendedOwn(l, l', en)
    ensures l'.committed == l.committed && Valid(l')
    ensures var i := l.committed; Logical(l')[..Min(i, |Logical(l')|)] <= Logical(l)[..Min(i, |Logical(l)|)]
  {
    LogicalNumbered(l);
  }

  lemma {:induction false} OwnEntryOk(cfg: Config, net: set<Message>, e: Elections, chain: Chains, n: Node, data: seq<Byte>)
    requires NodeOk(cfg, net, e, chain, n) && n.role == Leader && n.term >= 1 && n.id in n.pr
    ensures NodeOk(cfg, net, e, chain, AppendOwn(n, data))
  {
    var n1 := AppendOwn(n, data);
    AppendOwnOnlyAppends(n, data);
    OwnAppendKeepsCommit(n.log, n1.log, Entry(n.term, LastIndex(n.log) + 1, 0, data));
    CommitGrows(cfg, net, net, chain, chain, n.term, n.term, Logical(n.log), Logical(n1.log), n.log.committed);
    hide CommitOk;
    assert LastIndex(n.log) <= LastIndex(n1.log);
    hide Append;
    forall v | v in n1.pr ensures PeerOk(net, n1, v) { assert PeerOk(net, n, v); }
    assert n1.pr.Keys == n.pr.Keys;
  }

  lemma {:induction false} OwnAppendLeads(cfg: Config, net: set<Message>, e: Elections, chain: Chains, chain': Chains, n: Node, data: seq<Byte>)
    requires InOfficeOk(cfg, net, e, chain, n) && n.term >= 1 && Grows(chain, chain')
    requires n.id in n.pr && n.term in chain' && Valid(AppendOwn(n, data).log) && Logical(AppendOwn(n, data).log) == chain'[n.term]
    ensures InOfficeOk(cfg, net, e, chain', AppendOwn(n, data))
  {
    NodeGrows(cfg, net, net, e, e, chain, chain', n);
    OwnEntryOk(cfg, net, e, chain', n, data);
    hide NodeOk;
    hide Append;
  }

  // ----- taking office -----

  /** In office, before its own entry. */
  function Installed(n: Node): Node { n.(role := Leader, lead := n.id, pr := FreshTable(n)) }

  lemma {:induction false} InstalledOk(cfg: Config, net: set<Message>, e: Elections, e': Elections, chain: Chains, chain': Chains, n: Node)
    requires NodeOk(cfg, net, e, chain, n) && n.id in cfg.voters && n.cfg == cfg && Grows(chain, chain')
    ensures NodeOk(cfg, net, e', chain', Installed(n))
  {
    NodeGrows(cfg, net, net, e, e', chain, chain', n.(role := Follower));
    hide CommitOk;
    var n' := Installed(n);
    assert Elements(cfg.voters) + {n.id} == Elements(cfg.voters);
    forall v | v in n'.pr ensures PeerOk(net, n', v) { assert n'.pr[v] == FreshProgress(n, v); }
  }

  lemma {:induction false} OfficeLeads(cfg: Config, net: set<Message>, e: Elections, e': Elections, chain: Chains, chain': Chains, n: Node)
    requires NodeOk(cfg, net, e, chain, n) && n.id in cfg.voters && n.cfg == cfg && n.term >= 1 && Grows(chain, chain')
    requires n.term in e'.winner && e'.winner[n.term] == n.id
    requires Valid(InOffice(n).log) && n.term in chain' && Logical(InOffice(n).log) == chain'[n.term]
    ensures InOfficeOk(cfg, net, e', chain', InOffice(n))
  {
    InstalledOk(cfg, net, e, e', chain, chain', n);
    var led := Installed(n);
    if LastIndex(n.log) >= 1 {
      OwnEntryOk(cfg, net, e', chain', led, []);
    }
  }
}
