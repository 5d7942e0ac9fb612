/** Host by host, every careful action keeps the messages, the progress and the commit index in order. */
module CommitSteps {
  import opened Bytes
  import opened RaftTypes
  import opened LogSpec
  import opened NodeSpec
  import opened Cluster
  import opened Canon
  import opened CarefulRuns
  import opened Votes
  import opened Commitment
  import opened LeaderSteps
  import opened CommitGrowth
  import opened FollowerSteps

  lemma {:induction false} LeadingIsWellDone(cfg: Config, net: set<Message>, e: Elections, chain: Chains, n: Node, n': Node)
    requires LeadsOn(cfg, net, e, chain, n, n')
    ensures WellDone(cfg, net, e, chain, n, n') && n'.term == n.term
  {
    hide NodeOk;
    hide MessageOk;
    forall m | m in n'.msgs && m !in n.msgs ensures MaySend(cfg, net, e, chain, n', m) {
      assert MaySend(cfg, net, e, chain, n, m);
    }
  }

  lemma {:induction false} HostDoesWell(cfg: Config, net: set<Message>, e: Elections, chain: Chains, x: NodeId, h: Host, n': Node)
    requires HostOk(cfg, net, e, chain, x, h) && h.node.id == x && WellDone(cfg, net, e, chain, h.node, n') && n'.term >= h.node.term
    ensures HostOk(cfg, net, e, chain, x, h.(node := n'))
  {
    hide NodeOk;
    hide MessageOk;
    hide HandedOk;
    var h' := h.(node := n');
    forall m | m in Pending(h') && m !in Pending(h) ensures MaySend(cfg, net, e, chain, n', m) {}
  }

  // ----- a message -----

  lemma {:induction false} LaterTermOk(cfg: Config, net: set<Message>, e: Elections, chain: Chains, n: Node, t: nat, lead: NodeId)
    requires NodeOk(cfg, net, e, chain, n) && t >= n.term
    ensures NodeOk(cfg, net, e, chain, BecomeFollower(n, t, lead))
  {
    CommitGrows(cfg, net, net, chain, chain, n.term, t, Logical(n.log), Logical(n.log), n.log.committed);
  }

  lemma {:induction false} StaleIsWellDone(cfg: Config, net: set<Message>, e: Elections, chain: Chains, n: Node, m: Message)
    requires NodeOk(cfg, net, e, chain, n)
    ensures WellDone(cfg, net, e, chain, n, StaleReply(n, m))
  {
    hide CommitOk;
  }

  /** A message of its term, or a later one, as a follower takes it. */
  lemma {:induction false} FollowsWell(cfg: Config, net: set<Message>, e: Elections, chain: Chains, n: Node, lead: NodeId, m: Message)
    requires NodeOk(cfg, net, e, chain, n) && LogOk(chain, n.log) && ChainsOk(chain) && m.term >= n.term
    requires MessageOk(cfg, net, e, chain, m) && m in net && Complete(cfg, net, chain, m.term)
    requires (m.typ == MsgApp ==> CarefulAppend(n, m)) && (m.typ == MsgHeartbeat ==> HeartbeatAgrees(chain, n, m))
    ensures WellDone(cfg, net, e, chain, n, StepFollower(BecomeFollower(n, m.term, lead), m))
  {
    hide NodeOk;
    hide StepFollower;
    hide MessageOk;
    hide Complete;
    hide LogOk;
    var n1 := BecomeFollower(n, m.term, lead);
    LaterTermOk(cfg, net, e, chain, n, m.term, lead);
    assert m.typ == MsgApp ==> CarefulAppend(n1, m);
    FollowerDoesWell(cfg, net, e, chain, n1, m);
  }

  ghost predicate StepIsCareful(chain: Chains, n: Node, m: Message) {
    FromLeader(n, m) ==>
      (m.typ == MsgApp ==> CarefulAppend(n, m)) && (m.typ == MsgHeartbeat ==> HeartbeatAgrees(chain, n, m))
  }

  /** A candidate that the message does not elect. */
  lemma {:induction false} CandidateDoesWell(cfg: Config, net: set<Message>, e: Elections, chain: Chains, n: Node, m: Message)
    requires NodeOk(cfg, net, e, chain, n) && LogOk(chain, n.log) && ChainsOk(chain) && n.role == Candidate && m.term == n.term
    requires MessageOk(cfg, net, e, chain, m) && m in net && Complete(cfg, net, chain, m.term)
    requires StepIsCareful(chain, n, m) && !Wins(n, m)
    ensures WellDone(cfg, net, e, chain, n, StepCandidate(n, m))
  {
    hide StepFollower;
    hide BecomeLeader;
    if m.typ == MsgApp || m.typ == MsgHeartbeat {
      FollowsWell(cfg, net, e, chain, n, m.from, m);
    } else {
      hide CommitOk;
    }
  }

  ghost predicate OfficeRecorded(cfg: Config, e: Elections, chain: Chains, n: Node)
    requires Valid(n.log)
  {
    && n.cfg == cfg && n.id in cfg.voters
    && (n.role == Leader ==>
          && n.term >= 1 && n.term in e.winner && e.winner[n.term] == n.id
          && n.term in chain && Logical(n.log) == chain[n.term])
  }

  /** Any message but a winning vote or a proposal to a leader. */
  lemma {:induction false} StepDoesWell(cfg: Config, net: set<Message>, e: Elections, chain: Chains, n: Node, m: Message)
    requires NodeOk(cfg, net, e, chain, n) && LogOk(chain, n.log) && ChainsOk(chain) && NetOk(cfg, net, e, chain) && Quorum(cfg) >= 2
    requires OfficeRecorded(cfg, e, chain, n)
    requires m in net && Complete(cfg, net, chain, m.term) && StepIsCareful(chain, n, m)
    requires !Wins(n, m) && !(n.role == Leader && m.term == n.term && m.typ == MsgPropose)
    ensures WellDone(cfg, net, e, chain, n, Step(n, m)) && Step(n, m).term >= n.term
  {
    assert MessageOk(cfg, net, e, chain, m);
    hide NodeOk;
    hide MessageOk;
    hide Complete;
    hide LogOk;
    hide StepFollower;
    hide StepCandidate;
    hide StepLeader;
    hide StaleReply;
    hide WellDone;
    if m.term > n.term {
      FollowsWell(cfg, net, e, chain, n, 0, m);
      StepTerm(n, m);
    } else if m.term < n.term {
      StaleIsWellDone(cfg, net, e, chain, n, m);
      StepTerm(n, m);
    } else if n.role == Leader {
      StepLeads(cfg, net, e, chain, n, m);
      LeadingIsWellDone(cfg, net, e, chain, n, StepLeader(n, m));
    } else if n.role == Candidate {
      CandidateDoesWell(cfg, net, e, chain, n, m);
      StepTerm(n, m);
    } else {
      FollowerDoesWell(cfg, net, e, chain, n, m);
      StepTerm(n, m);
    }
  }

  lemma {:induction false} StepTerm(n: Node, m: Message)
    ensures m.term > n.term ==> Step(n, m).term == m.term
    ensures m.term < n.term ==> Step(n, m).term == n.term
    ensures n.role != Leader && m.term == n.term && !Wins(n, m) ==> Step(n, m).term == n.term
  {
    hide MaybeAppend;
    hide GrantsVote;
    hide BecomeLeader;
    hide StepLeader;
  }

  // ----- timeouts, proposals, office -----

  lemma {:induction false} TimeoutDoesWell(cfg: Config, net: set<Message>, e: Elections, chain: Chains, n: Node)
    requires NodeOk(cfg, net, e, chain, n) && OfficeRecorded(cfg, e, chain, n) && Quorum(cfg) >= 2
    ensures WellDone(cfg, net, e, chain, n, Timeout(n)) && Timeout(n).term >= n.term
  {
    if n.role == Leader {
      HeartbeatLeads(cfg, net, e, chain, n);
      LeadingIsWellDone(cfg, net, e, chain, n, BroadcastHeartbeat(n));
    } else {
      CommitGrows(cfg, net, net, chain, chain, n.term, n.term + 1, Logical(n.log), Logical(n.log), n.log.committed);
      hide CommitOk;
    }
  }

  lemma {:induction false} UnreachableDoesWell(cfg: Config, net: set<Message>, e: Elections, chain: Chains, n: Node, peer: NodeId)
    requires NodeOk(cfg, net, e, chain, n) && OfficeRecorded(cfg, e, chain, n)
    ensures WellDone(cfg, net, e, chain, n, Unreachable(n, peer)) && Unreachable(n, peer).term == n.term
  {
    if n.role == Leader {
      UnreachableLeads(cfg, net, e, chain, n, peer);
      LeadingIsWellDone(cfg, net, e, chain, n, Unreachable(n, peer));
    } else {
      hide CommitOk;
    }
  }

  /** A leader with its own entry broadcasts. */
  lemma {:induction false} BroadcastDoesWell(cfg: Config, net: set<Message>, e: Elections, chain: Chains, n: Node, n1: Node)
    requires InOfficeOk(cfg, net, e, chain, n1) && n1.id == n.id && n1.msgs == n.msgs
    ensures WellDone(cfg, net, e, chain, n, BroadcastAppend(n1)) && BroadcastAppend(n1).term == n1.term
  {
    hide BroadcastAppend;
    BroadcastAppendLeads(cfg, net, e, chain, n1);
    LeadingIsWellDone(cfg, net, e, chain, n1, BroadcastAppend(n1));
    hide NodeOk;
    hide MessageOk;
  }

  lemma {:induction false} ProposeDoesWell(cfg: Config, net: set<Message>, e: Elections, chain: Chains, chain': Chains, n: Node, data: seq<Byte>)
    requires NodeOk(cfg, net, e, chain, n) && OfficeRecorded(cfg, e, chain, n) && Grows(chain, chain')
    requires n.role == Leader && n.id in n.pr
    requires var n' := Propose(n, data); Valid(n'.log) && n.term in chain' && Logical(n'.log) == chain'[n.term]
    ensures WellDone(cfg, net, e, chain', n, Propose(n, data)) && Propose(n, data).term == n.term
  {
    BroadcastSameLog(AppendOwn(n, data));
    OwnAppendLeads(cfg, net, e, chain, chain', n, data);
    hide AppendOwn;
    hide BroadcastAppend;
    AppendOwnOnly(n, data);
    BroadcastDoesWell(cfg, net, e, chain', n, AppendOwn(n, data));
  }

  lemma {:induction false} AppendOwnOnly(n: Node, data: seq<Byte>)
    requires n.id in n.pr
    ensures var n1 := AppendOwn(n, data); n1.id == n.id && n1.msgs == n.msgs && n1.term == n.term
  {
  }

  lemma {:induction false} BroadcastSameLog(n: Node)
    ensures BroadcastAppend(n).log == n.log
  {
  }

  lemma {:induction false} WinDoesWell(cfg: Config, net: set<Message>, e: Elections, e': Elections, chain: Chains, chain': Chains, n: Node)
    requires NodeOk(cfg, net, e, chain, n) && n.id in cfg.voters && n.cfg == cfg && n.term >= 1 && Grows(chain, chain')
    requires n.term in e'.winner && e'.winner[n.term] == n.id
    requires Valid(BecomeLeader(n).log) && n.term in chain' && Logical(BecomeLeader(n).log) == chain'[n.term]
    ensures WellDone(cfg, net, e', chain', n, BecomeLeader(n)) && BecomeLeader(n).term == n.term
  {
    BroadcastSameLog(InOffice(n));
    OfficeLeads(cfg, net, e, e', chain, chain', n);
    assert InOffice(n).id == n.id && InOffice(n).msgs == n.msgs && InOffice(n).term == n.term;
    hide InOffice;
    hide BroadcastAppend;
    BroadcastDoesWell(cfg, net, e', chain', n, InOffice(n));
  }
}
