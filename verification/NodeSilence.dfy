/** The rest of what a node does with messages: those that only carry a later term, those that it drops,
    proposals, and reports that a peer cannot be reached. */
module NodeSilence {
  import opened RaftTypes
  import opened LogSpec
  import opened LogTheorems
  import opened ProgressSpec
  import opened NodeSpec
  import opened NodeEffects
  import opened NodeAnswers

  /** A reply or a proposal of a later term makes the node a follower of nobody in that term, and no more. */
  lemma {:induction false} LaterTermDeposes(n: Node, m: Message)
    requires m.term > n.term && (m.typ == MsgAppResp || m.typ == MsgVoteResp || m.typ == MsgHeartbeatResp || m.typ == MsgPropose)
    ensures Step(n, m) == n.(role := Follower, term := m.term, lead := 0, vote := 0, votes := [])
  {
  }

  /** Messages without effect.  An earlier term's reply or proposal; for a leader, whatever only a follower
      or a candidate takes, and replies of nodes it does not track; for a candidate, everything but votes
      and the messages of a leader, a proposal too; for a follower, replies, and a proposal as long as it
      knows no leader. */
  predicate Dropped(n: Node, m: Message) {
    if m.term < n.term then m.typ != MsgApp && m.typ != MsgHeartbeat && m.typ != MsgVote
    else m.term == n.term && match n.role
      case Leader =>
        || m.typ == MsgVote || m.typ == MsgVoteResp || m.typ == MsgApp || m.typ == MsgHeartbeat
        || ((m.typ == MsgAppResp || m.typ == MsgHeartbeatResp) && m.from !in n.pr)
      case Candidate =>
        || m.typ == MsgVote || m.typ == MsgPropose || m.typ == MsgAppResp || m.typ == MsgHeartbeatResp
        || (m.typ == MsgVoteResp && (m.reject || m.from in n.votes))
      case Follower =>
        || m.typ == MsgVoteResp || m.typ == MsgAppResp || m.typ == MsgHeartbeatResp || (m.typ == MsgPropose && n.lead == 0)
  }

  lemma {:induction false} NothingHappens(n: Node, m: Message)
    requires Dropped(n, m)
    ensures Step(n, m) == n
  {
  }

  /** A vote request of a later term leaves the node without a leader; one of its own term leaves it the
      leader it has. */
  lemma {:induction false} VoterKeepsLeader(n: Node, m: Message)
    requires Follows(n, m) && m.typ == MsgVote
    ensures Step(n, m).lead == if m.term > n.term then 0 else n.lead
  {
  }

  /** A proposal that reaches a leader, from a client or forwarded, becomes the next entry of its log. */
  lemma {:induction false} ProposalIsTaken(n: Node, m: Message)
    requires n.role == Leader && n.id in n.pr && Valid(n.log) && n.term >= 1 && n.log.committed <= LastIndex(n.log)
    requires m.typ == MsgPropose && m.term == n.term
    ensures var n', data := Step(n, m), if m.entries == [] then [] else m.entries[0].data;
            && Valid(n'.log) && Logical(n'.log) == Logical(n.log) + [Entry(n.term, LastIndex(n.log) + 1, 0, data)]
            && n'.role == Leader && n'.term == n.term && n'.log.committed == n.log.committed
  {
    var data := if m.entries == [] then [] else m.entries[0].data;
    var e := Entry(n.term, LastIndex(n.log) + 1, 0, data);
    AppendExtendsIffCommitInside(n.log, e);
    AppendOwnOnlyAppends(n, data);
    assert Step(n, m) == BroadcastAppend(AppendOwn(n, data));
    assert AppendOwn(n, data).log == Append(n.log, [e]);
    hide AppendOwn;
    hide Logical;
    hide Sends;
  }

  // ----- a peer that cannot be reached -----

  /** The peer's progress back to probing. */
  function Probed(p: Progress): Progress { Progress(p.matchIndex, p.nextIndex, Probe, false, p.inflights, p.capacity) }

  /** The report touches nothing but the progress of that peer, and the next heartbeat reply of the peer is
      answered with an append, also if it was paused or had too much in flight before. */
  lemma {:induction false} UnreachableIsProbed(n: Node, v: NodeId, m: Message)
    requires n.role == Leader && Valid(n.log) && m.typ == MsgHeartbeatResp && m.term == n.term && m.from == v
    requires v in n.pr && Lacks(n, Probed(n.pr[v]))
    ensures var n' := Unreachable(n, v);
            && n' == n.(pr := n.pr[v := Probed(n.pr[v])])
            && Supplied(Step(n', m).msgs, n.id, n.term, v, Logical(n.log), n.pr[v].nextIndex - 1, n.log.committed)
  {
    var n' := Unreachable(n, v);
    assert n' == n.(pr := n.pr[v := Probed(n.pr[v])]);
    hide Unreachable;
    hide Step;
    hide Valid;
    LacksByLog(n, n', Probed(n.pr[v]));
    hide Lacks;
    HeartbeatReplySupplies(n', m);
  }

  lemma {:induction false} UnknownPeer(n: Node, v: NodeId)
    requires v !in n.pr
    ensures Unreachable(n, v) == n
  {
  }

  /** A new leader's record of a peer, once its first probe is out, is what resetting any record gives. */
  lemma {:induction false} ResetIsFresh(n: Node, v: NodeId, p: Progress)
    requires Valid(n.log) && n.term >= 1 && v in n.cfg.voters && v != n.id && p.capacity == n.cfg.maxInflight
    ensures v in BecomeLeader(n).pr && Reset(p, LastIndex(n.log)).(paused := true) == BecomeLeader(n).pr[v]
  {
    OfficeBatch(n, v);
    OfficeTable(n, v);
    hide InOffice;
    hide Sends;
    hide NodeSpec.Batch;
  }
}
