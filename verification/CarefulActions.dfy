/** Every action of a careful run keeps the invariant about commitment. */
module CarefulActions {
  import opened RaftTypes
  import opened NodeSpec
  import opened Cluster
  import opened Canon
  import opened Claims
  import opened Votes
  import opened ElectionSteps
  import opened Replication
  import opened ReplicationSteps
  import opened RaftSafety
  import opened CarefulRuns
  import opened Commitment
  import opened CommitSteps
  import opened CarefulFrame
  import opened CarefulCycle
  import opened CarefulNodes
  import opened CarefulDelivery
  import opened CarefulOffice

  /** An action that elects nobody and adds no entry. */
  lemma {:induction false} LocalKeepsCommit(cfg: Config, run: seq<State>, s: Account, a: Action)
    requires ValidConfig(cfg) && |cfg.voters| >= 2 && Holds(cfg, s) && |run| >= 1 && s.c == run[|run| - 1]
    requires Enabled(s.c, a) && Intact(s.c, a) && Clean(s.c, a) && Careful(run, a)
    requires forall j :: 0 <= j < |run| ==> LogsRecorded(s.chain, run[j])
    requires !a.ClientProposes? && !(a.Deliver? && Extends(s.c.hosts[a.x].node, a.m))
    requires HoldsApart(cfg, s.(c := Perform(s.c, a)))
    ensures Holds(cfg, s.(c := Perform(s.c, a)))
  {
    hide Holds;
    hide HoldsApart;
    hide Intact;
    hide Clean;
    hide LogsRecorded;
    hide HostAfter;
    hide Wins;
    assert Quorum(cfg) >= 2;
    match a
    case TimerFires(x) =>
      hide Careful;
      TimerKeepsCommit(cfg, s, x);
    case Deliver(x, m) =>
      hide Careful;
      DeliveryIsCareful(run, s.chain, x, m);
      hide StepIsCareful;
      DeliveryKeepsCommit(cfg, s, x, m);
    case PeerDown(x, peer) =>
      hide Careful;
      PeerDownKeepsCommit(cfg, s, x, peer);
    case ClientSends(m) =>
      hide Careful;
      var x := cfg.voters[0];
      VotesHold(cfg, s);
      assert x in s.c.hosts;
      hide VoteInv;
      ClientKeepsCommit(cfg, s, x, m);
    case Send(x, m) =>
      hide Careful;
      SendKeepsCommit(cfg, s, x, m);
    case _ =>
      hide Careful;
      if IsCrash(a) { CrashKeepsCommit(cfg, run, s, a); } else { CycleKeepsCommit(cfg, s, a); }
  }

  lemma {:induction false} ProposalAction(cfg: Config, s: Account, a: Action, chain': Chains)
    requires ValidConfig(cfg) && Holds(cfg, s) && Enabled(s.c, a)
    requires a.ClientProposes? || (a.Deliver? && !Wins(s.c.hosts[a.x].node, a.m) && Extends(s.c.hosts[a.x].node, a.m))
    requires ChainStep(s.chain, chain') && HoldsApart(cfg, s.(c := Perform(s.c, a), chain := chain'))
    ensures Holds(cfg, s.(c := Perform(s.c, a), chain := chain'))
  {
    hide Holds;
    hide Wins;
    hide Propose;
    hide Step;
    hide HostAfter;
    PerformProposal(s.c, a);
    var data := if a.ClientProposes? then a.data else if a.m.entries == [] then [] else a.m.entries[0].data;
    var s' := s.(c := Perform(s.c, a), chain := chain');
    OrderIsChains(cfg, s);
    assert chain'.Keys == s.e.winner.Keys;
    hide HoldsApart;
    hide Perform;
    ProposalKeepsCommit(cfg, s, s', a.x, data);
  }

  /** Votes and logs know nothing of the order. */
  lemma {:induction false} WithOrder(cfg: Config, s: Account, ord: seq<nat>)
    requires HoldsApart(cfg, s)
    ensures HoldsApart(cfg, s.(ord := ord)) && s.chain.Keys == s.e.winner.Keys
  {
    hide VoteInv;
    hide HostLog;
    hide ChainsOk;
    hide AppOk;
  }

  lemma {:induction false} ElectionAction(cfg: Config, s: Account, x: NodeId, m: Message, chain': Chains) returns (s': Account)
    requires ValidConfig(cfg) && Holds(cfg, s) && Enabled(s.c, Deliver(x, m)) && Wins(s.c.hosts[x].node, m)
    requires ChainStep(s.chain, chain')
    requires HoldsApart(cfg, s.(c := Perform(s.c, Deliver(x, m)), e := ElectionsAfter(s.c, s.e, Deliver(x, m)), chain := chain'))
    ensures s'.c == Perform(s.c, Deliver(x, m)) && s'.chain == chain' && Holds(cfg, s')
  {
    hide Holds;
    hide HoldsApart;
    hide Step;
    hide VoteInv;
    hide CommitInv;
    hide LogInv;
    hide HostAfter;
    var t := s.c.hosts[x].node.term;
    var s1 := s.(c := Perform(s.c, Deliver(x, m)), e := ElectionsAfter(s.c, s.e, Deliver(x, m)), chain := chain');
    s' := s1.(ord := s.ord + [t]);
    VotesHold(cfg, s);
    WinnerIsFirst(cfg, s.c, s.e, x, m);
    OrderIsChains(cfg, s);
    WithOrder(cfg, s1, s'.ord);
    assert s'.e.winner.Keys == s.e.winner.Keys + {t};
    ElectionHappens(s, x, m);
    hide Wins;
    hide Perform;
    hide ChainStep;
    ElectionKeepsCommit(cfg, s, s', x, m);
  }

  lemma {:induction false} ElectionHappens(s: Account, x: NodeId, m: Message)
    requires Enabled(s.c, Deliver(x, m))
    ensures Perform(s.c, Deliver(x, m)) == WithHost(s, x, s.c.hosts[x].(node := Step(s.c.hosts[x].node, m))).c
  {
    hide Step;
  }

  lemma {:induction false} ActionKeepsCommit(cfg: Config, run: seq<State>, s: Account, a: Action) returns (s': Account)
    requires ValidConfig(cfg) && |cfg.voters| >= 2 && Holds(cfg, s) && |run| >= 1 && s.c == run[|run| - 1]
    requires Enabled(s.c, a) && Intact(s.c, a) && Clean(s.c, a) && Careful(run, a)
    requires forall j :: 0 <= j < |run| ==> LogsRecorded(s.chain, run[j])
    ensures s'.c == Perform(s.c, a) && ChainStep(s.chain, s'.chain) && Holds(cfg, s')
  {
    hide Holds;
    hide VoteInv;
    hide LogInv;
    hide CommitInv;
    hide Intact;
    hide Clean;
    hide Careful;
    hide Wins;
    hide Perform;
    hide LogsRecorded;
    VotesHold(cfg, s);
    var e' := ElectionsAfter(s.c, s.e, a);
    ActionKeepsVotes(cfg, s.c, s.e, a);
    var chain' := ActionKeepsLogs(cfg, s.c, s.e, s.chain, a);
    if a.Deliver? && Wins(s.c.hosts[a.x].node, a.m) {
      s' := ElectionAction(cfg, s, a.x, a.m, chain');
    } else {
      s' := s.(c := Perform(s.c, a), chain := chain');
      if a.ClientProposes? || (a.Deliver? && Extends(s.c.hosts[a.x].node, a.m)) {
        ProposalAction(cfg, s, a, chain');
      } else {
        LocalKeepsCommit(cfg, run, s, a);
      }
    }
  }
}
