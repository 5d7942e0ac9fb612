/** Flow control: a peer that is being probed gets one append and then none until it answers, and one that
    replicates never has more than the configured number in flight. */
module FlowControl {
  import opened Bytes
  import opened RaftTypes
  import opened LogSpec
  import opened LogTheorems
  import opened ProgressSpec
  import opened NodeSpec
  import opened NodeEffects
  import opened Cluster
  import opened Acceptance
  import opened LeaderSteps
  import opened NodeAnswers

  /** The appends to v. */
  ghost function AppendsTo(ms: set<Message>, v: NodeId): set<Message> { set m | m in ms && m.typ == MsgApp && m.to == v }

  /** Waiting for an answer. */
  predicate HeldBack(p: Progress) { p.paused || (p.state == Replicate && |p.inflights| == p.capacity) }

  ghost predicate LeftAlone(n: Node, n': Node, v: NodeId)
    requires v in n.pr
  {
    AppendsTo(n'.msgs, v) == AppendsTo(n.msgs, v) && v in n'.pr && n'.pr[v] == n.pr[v]
  }

  lemma {:induction false} BroadcastLeavesAlone(n: Node, v: NodeId)
    requires v in n.pr && v != n.id && HeldBack(n.pr[v])
    ensures LeftAlone(n, BroadcastAppend(n), v)
  {
    hide NodeSpec.Batch;
    hide Slice;
    hide TermAt;
  }

  lemma {:induction false} SendLeavesAlone(n: Node, to: NodeId, v: NodeId)
    requires v in n.pr && v != n.id && (HeldBack(n.pr[v]) || to != v)
    ensures LeftAlone(n, SendAppend(n, to), v)
  {
    hide NodeSpec.Batch;
    hide Slice;
    hide TermAt;
  }

  lemma {:induction false} ProposalLeavesAlone(n: Node, data: seq<Byte>, v: NodeId)
    requires v in n.pr && v != n.id && HeldBack(n.pr[v])
    ensures LeftAlone(n, Propose(n, data), v)
  {
    if n.role == Leader && n.id in n.pr {
      var n1 := AppendOwn(n, data);
      assert LeftAlone(n, n1, v) && n1.id == n.id;
      hide AppendOwn;
      BroadcastLeavesAlone(n1, v);
    }
  }

  lemma {:induction false} AcceptanceLeavesAlone(n: Node, m: Message, v: NodeId)
    requires m.from in n.pr && v in n.pr && v != n.id && v != m.from && HeldBack(n.pr[v])
    ensures LeftAlone(n, AppendAccepted(n, m), v)
  {
    hide Commits;
    hide BroadcastAppend;
    hide SendAppend;
    hide QuorumIndex;
    var p := Update(n.pr[m.from], m.index);
    var n1 := n.(pr := n.pr[m.from := if p.state == Probe then BecomeReplicate(p) else p]);
    var c := MaybeCommit(n1);
    assert LeftAlone(n, n1, v) && LeftAlone(n1, c, v) && c.id == n.id;
    BroadcastLeavesAlone(c, v);
    var n2 := if Commits(n1) then BroadcastAppend(c) else n1;
    assert LeftAlone(n, n2, v);
    assert n2.id == n.id by { KeepsId(c); }
    SendLeavesAlone(n2, m.from, v);
  }

  lemma {:induction false} KeepsId(n: Node)
    ensures BroadcastAppend(n).id == n.id
  {
  }

  lemma {:induction false} RejectionLeavesAlone(n: Node, m: Message, v: NodeId)
    requires m.from in n.pr && v in n.pr && v != n.id && v != m.from
    ensures LeftAlone(n, AppendRejected(n, m), v)
  {
    hide SendAppend;
    var n1 := n.(pr := n.pr[m.from := BecomeProbe(MaybeDecr(n.pr[m.from], m.index, m.rejectHint))]);
    assert LeftAlone(n, n1, v);
    SendLeavesAlone(n1, m.from, v);
  }

  /** Whatever a leader does, other than taking the peer's own answer to an append: a peer that is held back
      is sent no append, and stays held back. */
  lemma {:induction false} HeldBackIsLeftAlone(n: Node, m: Message, v: NodeId)
    requires n.role == Leader && m.term <= n.term && v in n.pr && v != n.id && HeldBack(n.pr[v])
    requires m.typ == MsgAppResp ==> m.from != v
    ensures LeftAlone(n, Step(n, m), v) && LeftAlone(n, Timeout(n), v)
    ensures forall data :: LeftAlone(n, Propose(n, data), v)
  {
    hide Propose;
    hide AppendAccepted;
    hide AppendRejected;
    hide SendAppend;
    forall data ensures LeftAlone(n, Propose(n, data), v) { ProposalLeavesAlone(n, data, v); }
    if m.from in n.pr {
      SendLeavesAlone(n, m.from, v);
      if m.from != v {
        AcceptanceLeavesAlone(n, m, v);
        RejectionLeavesAlone(n, m, v);
      }
    }
  }

  // ----- how many are in flight -----

  ghost predicate Room(cfg: Config, n: Node) {
    n.cfg == cfg && forall v :: v in n.pr ==> n.pr[v].capacity == cfg.maxInflight && |n.pr[v].inflights| <= cfg.maxInflight
  }

  lemma {:induction false} SendKeepsRoom(cfg: Config, n: Node, v: NodeId)
    requires Room(cfg, n)
    ensures Room(cfg, SendAppend(n, v)) && Room(cfg, BroadcastAppend(n))
  {
    hide NodeSpec.Batch;
    hide Slice;
    hide AppendTo;
  }

  lemma {:induction false} FreeToShrinks(q: seq<nat>, to: nat)
    ensures |FreeTo(q, to)| <= |q|
    decreases |q|
  {
    if q != [] && to >= q[0] { FreeToShrinks(q[1..], to); }
  }

  lemma {:induction false} ProposalKeepsRoom(cfg: Config, n: Node, data: seq<Byte>)
    requires Room(cfg, n)
    ensures Room(cfg, Propose(n, data))
  {
    if n.role == Leader && n.id in n.pr {
      assert Room(cfg, AppendOwn(n, data));
      hide AppendOwn;
      hide BroadcastAppend;
      SendKeepsRoom(cfg, AppendOwn(n, data), 0);
    }
  }

  lemma {:induction false} OfficeKeepsRoom(cfg: Config, n: Node)
    requires n.cfg == cfg
    ensures Room(cfg, BecomeLeader(n))
  {
    assert Room(cfg, InOffice(n));
    hide InOffice;
    hide BroadcastAppend;
    SendKeepsRoom(cfg, InOffice(n), 0);
  }

  lemma {:induction false} AnswerKeepsRoom(cfg: Config, n: Node, m: Message)
    requires Room(cfg, n) && m.from in n.pr
    ensures Room(cfg, AppendAccepted(n, m)) && Room(cfg, AppendRejected(n, m))
  {
    hide Commits;
    hide BroadcastAppend;
    hide SendAppend;
    hide QuorumIndex;
    hide FreeTo;
    FreeToShrinks(n.pr[m.from].inflights, m.index);
    var p := Update(n.pr[m.from], m.index);
    var n1 := n.(pr := n.pr[m.from := if p.state == Probe then BecomeReplicate(p) else p]);
    assert Room(cfg, n1) && Room(cfg, MaybeCommit(n1));
    SendKeepsRoom(cfg, MaybeCommit(n1), 0);
    var n2 := if Commits(n1) then BroadcastAppend(MaybeCommit(n1)) else n1;
    SendKeepsRoom(cfg, n2, m.from);
    var n3 := n.(pr := n.pr[m.from := BecomeProbe(MaybeDecr(n.pr[m.from], m.index, m.rejectHint))]);
    assert Room(cfg, n3);
    SendKeepsRoom(cfg, n3, m.from);
  }

  lemma {:induction false} LeaderKeepsRoom(cfg: Config, n: Node, m: Message)
    requires Room(cfg, n)
    ensures Room(cfg, StepLeader(n, m))
  {
    hide Propose;
    hide SendAppend;
    hide AppendAccepted;
    hide AppendRejected;
    ProposalKeepsRoom(cfg, n, if m.entries == [] then [] else m.entries[0].data);
    SendKeepsRoom(cfg, n, m.from);
    if m.from in n.pr { AnswerKeepsRoom(cfg, n, m); }
  }

  lemma {:induction false} FollowerKeepsRoom(cfg: Config, n: Node, m: Message)
    requires Room(cfg, n)
    ensures Room(cfg, StepFollower(n, m))
  {
    hide MaybeAppend;
    hide GrantsVote;
    hide CommitTo;
  }

  lemma {:induction false} StepKeepsRoom(cfg: Config, n: Node, m: Message)
    requires Room(cfg, n)
    ensures Room(cfg, Step(n, m))
  {
    hide StepLeader;
    hide StepCandidate;
    hide StepFollower;
    if m.term > n.term {
      FollowerKeepsRoom(cfg, BecomeFollower(n, m.term, 0), m);
    } else if m.term == n.term {
      match n.role
      case Leader => LeaderKeepsRoom(cfg, n, m);
      case Candidate => CandidateKeepsRoom(cfg, n, m);
      case Follower => FollowerKeepsRoom(cfg, n, m);
    }
  }

  lemma {:induction false} CandidateKeepsRoom(cfg: Config, n: Node, m: Message)
    requires Room(cfg, n)
    ensures Room(cfg, StepCandidate(n, m))
  {
    hide StepFollower;
    hide BecomeLeader;
    OfficeKeepsRoom(cfg, n.(votes := n.votes + [m.from]));
    FollowerKeepsRoom(cfg, n, m);
    FollowerKeepsRoom(cfg, BecomeFollower(n, m.term, m.from), m);
  }

  lemma {:induction false} TimeoutKeepsRoom(cfg: Config, n: Node)
    requires Room(cfg, n)
    ensures Room(cfg, Timeout(n))
  {
    hide BecomeLeader;
    OfficeKeepsRoom(cfg, BecomeCandidate(n));
  }

  lemma {:induction false} HostKeepsRoom(cfg: Config, h: Host, a: Action)
    requires Room(cfg, h.node)
    ensures Room(cfg, HostAfter(h, a).node)
  {
    hide Timeout;
    hide Step;
    hide Propose;
    hide NextCommitted;
    hide Persist;
    hide StableTo;
    hide AppliedTo;
    hide FileAfter;
    hide HardAfter;
    match a
    case TimerFires(_) => TimeoutKeepsRoom(cfg, h.node);
    case Deliver(_, m) => StepKeepsRoom(cfg, h.node, m);
    case ClientProposes(_, data) => ProposalKeepsRoom(cfg, h.node, data);
    case _ =>
  }

  /** In every run, whatever is lost, misread or repeated: no peer has more in flight than the configuration
      allows. */
  lemma {:induction false} InFlightIsBounded(cfg: Config, run: seq<State>, k: nat, x: NodeId, v: NodeId)
    requires IsRun(cfg, run) && k < |run| && x in run[k].hosts
    ensures Room(cfg, run[k].hosts[x].node)
    ensures v in run[k].hosts[x].node.pr ==> |run[k].hosts[x].node.pr[v].inflights| <= cfg.maxInflight
  {
    hide HostAfter;
    if k > 0 {
      assert Next(run[k - 1], run[k - 1 + 1]);
      var a :| Enabled(run[k - 1], a) && run[k] == Perform(run[k - 1], a);
      assert x in run[k - 1].hosts;
      InFlightIsBounded(cfg, run, k - 1, x, v);
      HostKeepsRoom(cfg, run[k - 1].hosts[x], a);
    }
  }

  // ----- what is sent is counted -----

  /** The record of a peer after an append that ends at index `last`. */
  function Tracked(p: Progress, last: nat): Progress {
    if p.state == Probe then p.(paused := true) else p.(inflights := p.inflights + [last])
  }

  ghost predicate SentAndTracked(n: Node, n': Node, v: NodeId)
    requires v in n.pr
  {
    v in n'.pr && exists m :: m in n'.msgs && m.typ == MsgApp && m.from == n.id && m.to == v && m.term == n.term
                              && m.index == n.pr[v].nextIndex - 1 && n'.pr[v] == Tracked(n.pr[v], m.index + |m.entries|)
  }

  lemma {:induction false} RunEnds(log: seq<Entry>, prev: nat, prevTerm: nat, es: seq<Entry>)
    requires Numbered(log, 1) && RunFull(log, prev, prevTerm, es) && es != []
    ensures es[|es| - 1].index == prev + |es|
  {
  }

  /** The last entry of what is sent has the index that the message ends at. */
  lemma {:induction false} BatchEnds(n: Node, v: NodeId, p: Progress)
    requires Valid(n.log) && Lacks(n, p)
    ensures Sends(n, p) && AfterSend(n, p) == Tracked(p, p.nextIndex - 1 + |NodeSpec.Batch(n, p)|)
  {
    hide NodeSpec.Batch;
    hide Sends;
    hide Logical;
    hide RunFull;
    hide Numbered;
    hide LastIndex;
    hide TermAt;
    hide Slice;
    assert 1 <= p.nextIndex <= LastIndex(n.log);
    LackingIsSent(n, p);
    hide Lacks;
    BatchIsFull(n, v, p);
    LogicalNumbered(n.log);
    var m := AppendTo(n, v, p);
    assert m.index == p.nextIndex - 1 && m.entries == NodeSpec.Batch(n, p);
    hide AppendTo;
    RunEnds(Logical(n.log), m.index, m.logTerm, m.entries);
  }

  lemma {:induction false} SendIsTracked(n: Node, v: NodeId)
    requires Valid(n.log) && v in n.pr && Lacks(n, n.pr[v])
    ensures SentAndTracked(n, SendAppend(n, v), v)
  {
    BatchEnds(n, v, n.pr[v]);
    hide Sends;
    hide AfterSend;
    hide NodeSpec.Batch;
    hide Lacks;
    hide Valid;
    assert AppendTo(n, v, n.pr[v]) in SendAppend(n, v).msgs;
  }

  /** A broadcast, seen from one peer. */
  lemma {:induction false} BroadcastOf(n: Node, v: NodeId)
    requires v in n.pr && v != n.id && Sends(n, n.pr[v])
    ensures var n' := BroadcastAppend(n);
            v in n'.pr && n'.pr[v] == AfterSend(n, n.pr[v]) && n.pr[v].nextIndex >= 1 && AppendTo(n, v, n.pr[v]) in n'.msgs
  {
    assert n.pr[v].nextIndex >= 1;
    hide Sends;
    hide AfterSend;
    hide AppendTo;
  }

  lemma {:induction false} BroadcastIsTracked(n: Node, v: NodeId)
    requires Valid(n.log) && v in n.pr && v != n.id && Lacks(n, n.pr[v])
    ensures SentAndTracked(n, BroadcastAppend(n), v)
  {
    hide Sends;
    hide AfterSend;
    hide NodeSpec.Batch;
    hide Lacks;
    hide Valid;
    hide TermAt;
    hide BroadcastAppend;
    BatchEnds(n, v, n.pr[v]);
    BroadcastOf(n, v);
    var m := AppendTo(n, v, n.pr[v]);
    assert m.index == n.pr[v].nextIndex - 1 && m.entries == NodeSpec.Batch(n, n.pr[v]);
  }

  /** What a heartbeat reply makes a leader send is counted: a probed peer waits for its answer, and a
      replicating one has the end of the message in flight. */
  lemma {:induction false} HeartbeatReplyIsTracked(n: Node, m: Message)
    requires n.role == Leader && Valid(n.log) && m.typ == MsgHeartbeatResp && m.term == n.term
    requires m.from in n.pr && Lacks(n, n.pr[m.from])
    ensures SentAndTracked(n, Step(n, m), m.from)
  {
    hide SendAppend;
    SendIsTracked(n, m.from);
    hide SentAndTracked;
    assert Step(n, m) == SendAppend(n, m.from);
  }

  /** And so is a proposal on its way. */
  lemma {:induction false} ProposalIsTracked(n: Node, data: seq<Byte>, v: NodeId)
    requires n.role == Leader && n.id in n.pr && Valid(n.log) && n.term >= 1 && n.log.committed <= LastIndex(n.log)
    requires v in n.pr && v != n.id && !HeldBack(n.pr[v]) && 1 <= n.pr[v].nextIndex <= LastIndex(n.log) + 1
    ensures SentAndTracked(n, Propose(n, data), v)
  {
    var n1 := AppendOwn(n, data);
    AppendOwnOnlyAppends(n, data);
    AppendExtendsIffCommitInside(n.log, Entry(n.term, LastIndex(n.log) + 1, 0, data));
    assert n1.log == Append(n.log, [Entry(n.term, LastIndex(n.log) + 1, 0, data)]) && n1.pr[v] == n.pr[v];
    hide Append;
    LogicalNumbered(n1.log);
    LogicalNumbered(n.log);
    assert n1.log.window != [] && LastIndex(n1.log) == LastIndex(n.log) + 1;
    hide AppendOwn;
    hide Logical;
    hide Valid;
    hide LastIndex;
    hide BroadcastAppend;
    BroadcastIsTracked(n1, v);
  }
}
