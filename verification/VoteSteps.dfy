/** Each thing a host can do while the network and the record stand still keeps its votes in order. */
module VoteSteps {
  import opened Bytes
  import opened RaftTypes
  import opened LogSpec
  import opened NodeSpec
  import opened Cluster
  import opened Votes
  import opened NodeEffects

  /** Logs, progress, the log file and messages other than election messages do not matter. */
  lemma {:induction false} UntouchedVotes(cfg: Config, net: set<Message>, e: Elections, x: NodeId, h: Host, h': Host)
    requires HostVotes(cfg, net, e, x, h) && SameOffice(h.node, h'.node)
    requires h'.disk.term == h.disk.term && h'.disk.vote == h.disk.vote && HardStateOk(h')
    requires forall m :: m in Pending(h') && ElectionMsg(m) ==> m in Pending(h)
    ensures HostVotes(cfg, net, e, x, h')
  {
    forall g | g in Pending(h') + net && IsGrant(g) ensures g in Pending(h) + net {
      assert ElectionMsg(g);
    }
    forall t | t in e.winner && e.winner[t] == x ensures ElectedStays(x, h', net, t) {
      assert ElectedStays(x, h, net, t);
    }
    forall m | m in Pending(h') ensures VoteMsgOk(cfg, net, m) {
      if ElectionMsg(m) { assert m in Pending(h); }
    }
  }

  lemma {:induction false} SilentKeeps(cfg: Config, net: set<Message>, e: Elections, x: NodeId, h: Host, n': Node)
    requires HostVotes(cfg, net, e, x, h) && Silent(h.node, n')
    ensures HostVotes(cfg, net, e, x, h.(node := n'))
  {
    UntouchedVotes(cfg, net, e, x, h, h.(node := n'));
  }

  /** Moving to a later term as a follower without a vote. */
  lemma {:induction false} LaterTermKeeps(cfg: Config, net: set<Message>, e: Elections, x: NodeId, h: Host, term: nat)
    requires HostVotes(cfg, net, e, x, h) && h.phase.Idle? && term > h.node.term
    ensures HostVotes(cfg, net, e, x, h.(node := BecomeFollower(h.node, term, 0)))
  {
    var h' := h.(node := BecomeFollower(h.node, term, 0));
    assert Pending(h') == Pending(h);
    forall t | t in e.winner && e.winner[t] == x ensures ElectedStays(x, h', net, t) {
      assert ElectedStays(x, h, net, t);
    }
  }

  /** A candidate that hears from a leader of its own term forgets its vote; it had granted nothing. */
  lemma {:induction false} StepDownKeeps(cfg: Config, net: set<Message>, e: Elections, x: NodeId, h: Host, lead: NodeId)
    requires HostVotes(cfg, net, e, x, h) && h.phase.Idle? && h.node.role == Candidate
    requires forall m :: m in net ==> VoteMsgOk(cfg, net, m)
    ensures HostVotes(cfg, net, e, x, h.(node := BecomeFollower(h.node, h.node.term, lead)))
  {
    var h' := h.(node := BecomeFollower(h.node, h.node.term, lead));
    assert Pending(h') == Pending(h);
    forall g | g in Pending(h') + net && IsGrant(g) && g.from == x ensures g.term < h.node.term {
      assert VoteMsgOk(cfg, net, g);
    }
    forall t | t in e.winner && e.winner[t] == x ensures ElectedStays(x, h', net, t) {
      assert ElectedStays(x, h, net, t);
    }
  }

  /** Granting a vote: at most one grant per term leaves, and none from a node elected in that term. */
  lemma {:induction false} GrantKeeps(cfg: Config, net: set<Message>, e: Elections, x: NodeId, h: Host, m: Message)
    requires ValidConfig(cfg) && x in cfg.voters
    requires HostVotes(cfg, net, e, x, h) && h.phase.Idle? && h.node.role == Follower
    requires forall m :: m in net ==> VoteMsgOk(cfg, net, m)
    requires m in net && m.typ == MsgVote && m.to == x && m.term == h.node.term && GrantsVote(h.node, m)
    ensures HostVotes(cfg, net, e, x, h.(node := StepFollower(h.node, m)))
  {
    var n := h.node;
    var h' := h.(node := StepFollower(n, m));
    var grant := GrantMsg(x, m.from, n.term);
    assert Pending(h') == Pending(h) + {grant};
    assert VoteMsgOk(cfg, net, m);
    assert VoteMsgOk(cfg, net, grant);
    forall g | g in Pending(h) + net && IsGrant(g) && g.from == x && g.term == n.term ensures g.to == m.from {
      assert VoteMsgOk(cfg, net, g);
    }
    forall t | t in e.winner && e.winner[t] == x ensures ElectedStays(x, h', net, t) {
      assert ElectedStays(x, h, net, t);
    }
  }

  /** Asking for votes in a new term. */
  lemma {:induction false} CampaignKeeps(cfg: Config, net: set<Message>, e: Elections, x: NodeId, h: Host)
    requires x in cfg.voters && Quorum(cfg) > 1
    requires HostVotes(cfg, net, e, x, h) && h.phase.Idle?
    ensures HostVotes(cfg, net, e, x, h.(node := Campaign(h.node)))
  {
    var h' := h.(node := Campaign(h.node));
    forall m | m in Pending(h') && m !in Pending(h)
      ensures m.typ == MsgVote && m.from == x && m.term == h'.node.term && VoteMsgOk(cfg, net, m)
    {}
    forall t | t in e.winner && e.winner[t] == x ensures ElectedStays(x, h', net, t) {
      assert ElectedStays(x, h, net, t);
    }
  }

  lemma {:induction false} TimeoutKeeps(cfg: Config, net: set<Message>, e: Elections, x: NodeId, h: Host)
    requires x in cfg.voters && Quorum(cfg) > 1 && HostVotes(cfg, net, e, x, h) && h.phase.Idle?
    ensures HostVotes(cfg, net, e, x, h.(node := Timeout(h.node)))
  {
    hide Campaign;
    if h.node.role == Leader {
      assert Silent(h.node, BroadcastHeartbeat(h.node));
      SilentKeeps(cfg, net, e, x, h, BroadcastHeartbeat(h.node));
    } else {
      CampaignKeeps(cfg, net, e, x, h);
    }
  }

  /** A candidate counts one more grant without reaching a quorum. */
  lemma {:induction false} CountKeeps(cfg: Config, net: set<Message>, e: Elections, x: NodeId, h: Host, m: Message)
    requires HostVotes(cfg, net, e, x, h) && h.phase.Idle? && h.node.role == Candidate
    requires m in net && VoteMsgOk(cfg, net, m) && IsGrant(m) && m.to == x && m.term == h.node.term
    requires m.from !in h.node.votes
    ensures HostVotes(cfg, net, e, x, h.(node := h.node.(votes := h.node.votes + [m.from])))
  {
    var h' := h.(node := h.node.(votes := h.node.votes + [m.from]));
    assert Pending(h') == Pending(h);
    forall t | t in e.winner && e.winner[t] == x ensures ElectedStays(x, h', net, t) {
      assert ElectedStays(x, h, net, t);
    }
  }

  // ----- delivery without an election -----

  lemma {:induction false} FollowerStepKeeps(cfg: Config, net: set<Message>, e: Elections, x: NodeId, h: Host, m: Message)
    requires ValidConfig(cfg) && x in cfg.voters
    requires HostVotes(cfg, net, e, x, h) && h.phase.Idle? && h.node.role == Follower
    requires forall m :: m in net ==> VoteMsgOk(cfg, net, m)
    requires m in net && m.to == x && m.term == h.node.term
    ensures HostVotes(cfg, net, e, x, h.(node := StepFollower(h.node, m)))
  {
    if m.typ == MsgVote && GrantsVote(h.node, m) {
      GrantKeeps(cfg, net, e, x, h, m);
    } else {
      assert Silent(h.node, StepFollower(h.node, m));
      SilentKeeps(cfg, net, e, x, h, StepFollower(h.node, m));
    }
  }

  lemma {:induction false} LosingStepKeeps(cfg: Config, net: set<Message>, e: Elections, x: NodeId, h: Host, m: Message)
    requires ValidConfig(cfg) && x in cfg.voters
    requires HostVotes(cfg, net, e, x, h) && h.phase.Idle? && h.node.role == Candidate
    requires forall m :: m in net ==> VoteMsgOk(cfg, net, m)
    requires m in net && m.to == x && m.term == h.node.term && !Wins(h.node, m)
    ensures HostVotes(cfg, net, e, x, h.(node := StepCandidate(h.node, m)))
  {
    hide StepFollower;
    var n := h.node;
    if IsGrant(m) && m.from !in n.votes {
      CountKeeps(cfg, net, e, x, h, m);
    } else if m.typ == MsgApp || m.typ == MsgHeartbeat {
      StepDownKeeps(cfg, net, e, x, h, m.from);
      FollowerStepKeeps(cfg, net, e, x, h.(node := BecomeFollower(n, n.term, m.from)), m);
    }
  }

  lemma {:induction false} ProposeIsSilent(n: Node, data: seq<Byte>)
    ensures Silent(n, Propose(n, data))
  {
    hide BroadcastAppend;
    if n.role == Leader && n.id in n.pr { BroadcastAppendIsRoutine(AppendOwn(n, data)); }
  }

  lemma {:induction false} LeaderStepKeeps(cfg: Config, net: set<Message>, e: Elections, x: NodeId, h: Host, m: Message)
    requires HostVotes(cfg, net, e, x, h) && h.node.role == Leader
    ensures HostVotes(cfg, net, e, x, h.(node := StepLeader(h.node, m)))
  {
    if m.typ == MsgPropose {
      ProposeIsSilent(h.node, if m.entries == [] then [] else m.entries[0].data);
    } else {
      StepLeaderIsRoutine(h.node, m);
    }
    SilentKeeps(cfg, net, e, x, h, StepLeader(h.node, m));
  }

  // ----- the Ready cycle and crashes -----

  lemma {:induction false} PollKeeps(cfg: Config, net: set<Message>, e: Elections, x: NodeId, h: Host)
    requires HostVotes(cfg, net, e, x, h) && h.phase.Idle?
    ensures HostVotes(cfg, net, e, x, HostAfter(h, Poll(x)))
  {
    assert Pending(HostAfter(h, Poll(x))) == Pending(h);
    UntouchedVotes(cfg, net, e, x, h, HostAfter(h, Poll(x)));
  }

  lemma {:induction false} SaveEntriesKeeps(cfg: Config, net: set<Message>, e: Elections, x: NodeId, h: Host)
    requires HostVotes(cfg, net, e, x, h) && h.phase.Polled?
    ensures HostVotes(cfg, net, e, x, HostAfter(h, SaveEntries(x)))
  {
    hide Persist;
    hide FileAfter;
    assert Pending(HostAfter(h, SaveEntries(x))) == Pending(h);
    UntouchedVotes(cfg, net, e, x, h, HostAfter(h, SaveEntries(x)));
  }

  lemma {:induction false} SaveHardStateKeeps(cfg: Config, net: set<Message>, e: Elections, x: NodeId, h: Host)
    requires HostVotes(cfg, net, e, x, h) && h.phase.Saved?
    ensures HostVotes(cfg, net, e, x, HostAfter(h, SaveHardState(x)))
  {
    var h' := HostAfter(h, SaveHardState(x));
    assert Pending(h') == Pending(h);
    forall t | t in e.winner && e.winner[t] == x ensures ElectedStays(x, h', net, t) {
      assert ElectedStays(x, h, net, t);
    }
  }

  lemma {:induction false} FinishKeeps(cfg: Config, net: set<Message>, e: Elections, x: NodeId, h: Host)
    requires HostVotes(cfg, net, e, x, h) && h.phase.Synced?
    ensures HostVotes(cfg, net, e, x, HostAfter(h, Finish(x)))
  {
    UntouchedVotes(cfg, net, e, x, h, HostAfter(h, Finish(x)));
  }

  /** Starting again with the term and vote on disk, whatever the log file holds. */
  lemma {:induction false} RestartKeeps(cfg: Config, net: set<Message>, e: Elections, x: NodeId, h: Host, disk: Disk)
    requires HostVotes(cfg, net, e, x, h) && disk.term == h.disk.term && disk.vote == h.disk.vote
    ensures HostVotes(cfg, net, e, x, Restarted(h, disk))
  {
    var h' := Restarted(h, disk);
    assert Pending(h') + net == net;
    forall t | t in e.winner && e.winner[t] == x ensures ElectedStays(x, h', net, t) {
      assert ElectedStays(x, h, net, t);
    }
  }

  /** A hard state write that is cut behind the vote is as good as a whole one. */
  lemma {:induction false} CutHardStateKeeps(cfg: Config, net: set<Message>, e: Elections, x: NodeId, h: Host, kept: nat)
    requires HostVotes(cfg, net, e, x, h) && h.phase.Saved? && WritesHard(h.phase.rd)
    requires var rd := h.phase.rd; HardAfter(rd, kept).term == rd.term && HardAfter(rd, kept).vote == rd.vote
    ensures HostVotes(cfg, net, e, x, HostAfter(h, CrashWhileSavingHard(x, kept)))
  {
    hide HardAfter;
    SaveHardStateKeeps(cfg, net, e, x, h);
    var synced := HostAfter(h, SaveHardState(x));
    RestartKeeps(cfg, net, e, x, synced, synced.disk);
  }
}
