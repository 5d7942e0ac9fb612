/** Logs stay numbered: in every run whose restarts read numbered logs back, whatever votes and entries
    crashes cost, every log is a valid one and every append carries consecutive entries. */
module NumberedLogs {
  import opened Bytes
  import opened RaftTypes
  import opened LogSpec
  import opened LogTheorems
  import WalSpec
  import opened NodeSpec
  import opened NodeEffects
  import opened Cluster
  import opened Acceptance
  import opened Replication
  import ReplicationSteps

  /** An append carries entries numbered from its previous index on, behind a term that is one. */
  ghost predicate AppWell(m: Message) {
    m.typ == MsgApp && m.entries != [] ==> Numbered(m.entries, m.index + 1) && (m.index > 0 ==> m.logTerm >= 1)
  }

  ghost predicate SaneNode(n: Node) {
    Valid(n.log) && (n.role != Follower ==> n.term >= 1) && forall m :: m in n.msgs ==> AppWell(m)
  }

  ghost predicate SaneHost(h: Host) {
    SaneNode(h.node) && CycleOk(h) && (!h.phase.Idle? ==> forall m :: m in h.phase.rd.msgs ==> AppWell(m))
  }

  ghost predicate SaneInv(c: State) {
    (forall m :: m in c.net ==> AppWell(m)) && forall x :: x in c.hosts ==> SaneHost(c.hosts[x])
  }

  ghost predicate Restarts(a: Action) { a.Crash? || a.CrashWhileSaving? || a.CrashWhileSavingHard? }

  /** A host that starts again finds its entries numbered from 1 in its log file. */
  ghost predicate Readable(c: State, a: Action)
    requires Enabled(c, a)
  {
    Restarts(a) ==> Numbered(HostAfter(c.hosts[a.x], a).node.log.stored, 1)
  }

  // ----- the log -----

  lemma {:induction false} TermIsInside(l: Log, i: nat)
    requires Valid(l) && TermAt(l, i) >= 1
    ensures i <= |l.stored| || (l.window != [] && l.offset <= i < l.offset + |l.window|)
  {
  }

  lemma {:induction false} OverwriteKeepsValid(l: Log, es: seq<Entry>)
    requires Valid(l) && es != [] && Numbered(es, es[0].index) && es[0].index >= 1
    requires es[0].index > 1 ==> TermAt(l, es[0].index - 1) >= 1
    ensures Valid(TruncateAndAppend(l, es))
  {
    if es[0].index > 1 { TermIsInside(l, es[0].index - 1); }
  }

  /** What an append overwrites lies behind a term the log confirms. */
  lemma {:induction false} ConflictIsBehindTerm(l: Log, prev: nat, es: seq<Entry>)
    requires Valid(l) && Numbered(es, prev + 1) && ConflictPos(l, es) < |es| && (prev > 0 ==> TermAt(l, prev) >= 1)
    ensures var rest := es[ConflictPos(l, es)..];
            && rest != [] && Numbered(rest, rest[0].index) && rest[0].index >= 1
            && (rest[0].index > 1 ==> TermAt(l, rest[0].index - 1) >= 1)
  {
    hide TermAt;
    hide ConflictPos;
    ConflictPosSplits(l, es);
    var k := ConflictPos(l, es);
    if k > 0 { assert es[k - 1].term >= 1 && es[k - 1].index == prev + k; }
  }

  lemma {:induction false} TruncationKeepsValid(l: Log, from: nat)
    requires Valid(l)
    ensures Valid(TruncateFrom(l, from))
  {
  }

  lemma {:induction false} AppendKeepsValid(l: Log, prev: nat, prevTerm: nat, commit: nat, es: seq<Entry>)
    requires Valid(l) && (es != [] ==> Numbered(es, prev + 1) && (prev > 0 ==> prevTerm >= 1))
    ensures Valid(MaybeAppend(l, prev, prevTerm, commit, es).0)
  {
    hide TermAt;
    hide ConflictPos;
    hide TruncateFrom;
    hide TruncateAndAppend;
    hide Numbered;
    if TermAt(l, prev) == prevTerm {
      TruncationKeepsValid(l, prev + |es| + 1);
      if ConflictPos(l, es) < |es| {
        ConflictIsBehindTerm(l, prev, es);
        OverwriteKeepsValid(l, es[ConflictPos(l, es)..]);
      }
    }
  }

  // ----- the node -----

  lemma {:induction false} OwnAppendIsWell(n: Node, m: Message)
    requires Valid(n.log) && OwnAppend(n, m)
    ensures AppWell(m)
  {
    LogicalNumbered(n.log);
  }

  lemma {:induction false} QuietIsSane(n: Node, n': Node)
    requires SaneNode(n) && Quiet(n, n') && (n'.role != Follower ==> n'.term >= 1)
    ensures SaneNode(n')
  {
    forall m | m in n'.msgs ensures AppWell(m) { if m !in n.msgs { OwnAppendIsWell(n, m); } }
  }

  lemma {:induction false} BroadcastIsSane(n: Node)
    requires SaneNode(n) && n.role == Leader
    ensures SaneNode(BroadcastAppend(n))
  {
    BroadcastAppendIsRoutine(n);
    hide BroadcastAppend;
    QuietIsSane(n, BroadcastAppend(n));
  }

  lemma {:induction false} OfficeIsSane(n: Node)
    requires SaneNode(n) && n.term >= 1
    ensures SaneNode(BecomeLeader(n))
  {
    hide BroadcastAppend;
    hide BecomeLeader;
    var n1 := ReplicationSteps.BecomeLeaderTakesOffice(n);
    assert n1.msgs == n.msgs;
    BroadcastIsSane(n1);
  }

  lemma {:induction false} ProposeIsSane(n: Node, data: seq<Byte>)
    requires SaneNode(n)
    ensures SaneNode(Propose(n, data))
  {
    if n.role == Leader && n.id in n.pr {
      AppendOwnOnlyAppends(n, data);
      hide AppendOwn;
      hide BroadcastAppend;
      BroadcastIsSane(AppendOwn(n, data));
    }
  }

  lemma {:induction false} FollowerIsSane(n: Node, m: Message)
    requires SaneNode(n) && n.role == Follower && AppWell(m)
    ensures SaneNode(StepFollower(n, m))
  {
    if m.typ == MsgApp {
      AppendKeepsValid(n.log, m.index, m.logTerm, m.commit, m.entries);
      hide MaybeAppend;
    } else {
      OtherStepIsQuiet(n, m);
      FollowerStays(n, m);
      hide StepFollower;
      QuietIsSane(n, StepFollower(n, m));
    }
  }

  lemma {:induction false} FollowerStays(n: Node, m: Message)
    ensures StepFollower(n, m).role == n.role && StepFollower(n, m).term == n.term && StepFollower(n, m).id == n.id
  {
    hide MaybeAppend;
    hide CommitTo;
    hide GrantsVote;
  }

  lemma {:induction false} CandidateIsSane(n: Node, m: Message)
    requires SaneNode(n) && n.role == Candidate && AppWell(m) && m.term == n.term
    ensures SaneNode(StepCandidate(n, m))
  {
    hide StepFollower;
    hide BecomeLeader;
    if m.typ == MsgVoteResp {
      var counted := n.(votes := n.votes + [m.from]);
      assert SaneNode(counted);
      OfficeIsSane(counted);
    } else if m.typ == MsgApp || m.typ == MsgHeartbeat {
      FollowerIsSane(BecomeFollower(n, m.term, m.from), m);
    }
  }

  lemma {:induction false} LeaderIsSane(n: Node, m: Message)
    requires SaneNode(n) && n.role == Leader
    ensures SaneNode(StepLeader(n, m))
  {
    hide Propose;
    if m.typ == MsgPropose {
      ProposeIsSane(n, if m.entries == [] then [] else m.entries[0].data);
    } else {
      StepLeaderIsRoutine(n, m);
      hide StepLeader;
      QuietIsSane(n, StepLeader(n, m));
    }
  }

  lemma {:induction false} StepIsSane(n: Node, m: Message)
    requires SaneNode(n) && AppWell(m)
    ensures SaneNode(Step(n, m))
  {
    hide StepLeader;
    hide StepCandidate;
    hide StepFollower;
    hide StaleReply;
    if m.term > n.term {
      FollowerIsSane(BecomeFollower(n, m.term, 0), m);
    } else if m.term < n.term {
      StaleReplyIsRoutine(n, m);
      QuietIsSane(n, StaleReply(n, m));
    } else {
      match n.role
      case Leader => LeaderIsSane(n, m);
      case Candidate => CandidateIsSane(n, m);
      case Follower => FollowerIsSane(n, m);
    }
  }

  lemma {:induction false} TimeoutIsSane(n: Node)
    requires SaneNode(n)
    ensures SaneNode(Timeout(n))
  {
    hide BecomeLeader;
    var c := BecomeCandidate(n);
    if n.role != Leader {
      assert SaneNode(c);
      OfficeIsSane(c);
    }
  }

  lemma {:induction false} UnreachableIsSane(n: Node, peer: NodeId)
    requires SaneNode(n)
    ensures SaneNode(Unreachable(n, peer))
  {
  }

  // ----- the host -----

  /** What the host does while idle. */
  lemma {:induction false} IdleIsSane(h: Host, n': Node)
    requires SaneHost(h) && h.phase.Idle? && SaneNode(n') && n'.readyLast == h.node.readyLast
    ensures SaneHost(h.(node := n'))
  {
  }

  /** The node's part of the Ready cycle. */
  ghost predicate SameCycle(n: Node, n': Node) {
    n'.readyLast == n.readyLast && n'.readyApplied == n.readyApplied && n'.log.applied == n.log.applied
  }

  lemma {:induction false} MaybeAppendKeepsApplied(l: Log, prev: nat, prevTerm: nat, commit: nat, es: seq<Entry>)
    ensures MaybeAppend(l, prev, prevTerm, commit, es).0.applied == l.applied
  {
  }

  lemma {:induction false} FollowerKeepsCycle(n: Node, m: Message)
    ensures SameCycle(n, StepFollower(n, m))
  {
    if m.typ == MsgApp { MaybeAppendKeepsApplied(n.log, m.index, m.logTerm, m.commit, m.entries); }
    hide MaybeAppend;
    hide GrantsVote;
  }

  lemma {:induction false} OfficeKeepsCycle(n: Node)
    ensures SameCycle(n, BecomeLeader(n))
  {
    hide Sends;
    hide LastIndex;
  }

  lemma {:induction false} AcceptedKeepsCycle(n: Node, m: Message)
    requires m.from in n.pr
    ensures SameCycle(n, AppendAccepted(n, m))
  {
    hide Sends;
    hide Commits;
    hide QuorumIndex;
  }

  lemma {:induction false} LeaderKeepsCycle(n: Node, m: Message)
    ensures SameCycle(n, StepLeader(n, m))
  {
    hide Sends;
    hide AppendAccepted;
    if m.typ == MsgAppResp && m.from in n.pr { AcceptedKeepsCycle(n, m); }
    hide LastIndex;
  }

  lemma {:induction false} StepKeepsCycle(n: Node, m: Message)
    ensures SameCycle(n, Step(n, m))
  {
    hide StepFollower;
    hide StepLeader;
    hide BecomeLeader;
    forall n1: Node ensures SameCycle(n1, StepFollower(n1, m)) { FollowerKeepsCycle(n1, m); }
    forall n1: Node ensures SameCycle(n1, StepLeader(n1, m)) { LeaderKeepsCycle(n1, m); }
    forall n1: Node ensures SameCycle(n1, BecomeLeader(n1)) { OfficeKeepsCycle(n1); }
  }

  lemma {:induction false} TimeoutKeepsCycle(n: Node)
    ensures SameCycle(n, Timeout(n))
  {
    hide BecomeLeader;
    OfficeKeepsCycle(BecomeCandidate(n));
  }

  /** A proposal may arrive at any point of the cycle. */
  lemma {:induction false} ProposeKeepsCycle(n: Node, data: seq<Byte>)
    requires SaneNode(n)
    ensures var n' := Propose(n, data);
            && SameCycle(n, n') && n'.log.stored == n.log.stored && n'.log.committed == n.log.committed
            && n.log.window <= n'.log.window && (n.log.window != [] ==> n'.log.offset == n.log.offset)
  {
    if n.role == Leader && n.id in n.pr {
      AppendOwnOnlyAppends(n, data);
      assert AppendOwn(n, data).log.applied == n.log.applied;
      hide AppendOwn;
      hide Sends;
      hide Logical;
    }
  }

  lemma {:induction false} ProposeIsSaneHost(h: Host, data: seq<Byte>)
    requires SaneHost(h)
    ensures SaneHost(h.(node := Propose(h.node, data)))
  {
    hide Propose;
    hide SaneNode;
    ProposeIsSane(h.node, data);
    ProposeKeepsCycle(h.node, data);
  }

  lemma {:induction false} SaveIsSane(h: Host, x: NodeId)
    requires SaneHost(h) && h.phase.Polled?
    ensures SaneHost(HostAfter(h, SaveEntries(x)))
  {
    hide HostAfter;
    hide Persist;
    hide FileAfter;
    SavedHost(h, x);
    PersistWritesThrough(h.node.log, h.phase.rd.entries);
    hide WrittenThrough;
    hide Logical;
    hide Numbered;
  }

  lemma {:induction false} FinishIsSane(h: Host, x: NodeId)
    requires SaneHost(h) && h.phase.Synced?
    ensures SaneHost(HostAfter(h, Finish(x)))
  {
    hide Advance;
    AdvanceKeepsLogical(h.node, h.phase.rd.entries);
    hide Logical;
    hide WrittenThrough;
    hide Numbered;
  }

  lemma {:induction false} RestartIsSane(h: Host, a: Action)
    requires Restarts(a) && Numbered(HostAfter(h, a).node.log.stored, 1)
    requires (a.CrashWhileSaving? ==> h.phase.Polled?) && (a.CrashWhileSavingHard? ==> h.phase.Saved?)
    ensures SaneHost(HostAfter(h, a))
  {
    hide WalSpec.Replay;
    hide FileAfter;
    hide HardAfter;
  }

  lemma {:induction false} ActionIsSaneHost(c: State, a: Action)
    requires SaneInv(c) && Enabled(c, a) && Readable(c, a) && !a.ClientSends? && !a.Send?
    ensures SaneHost(HostAfter(c.hosts[a.x], a))
  {
    hide Timeout;
    hide Step;
    hide Propose;
    hide NextCommitted;
    hide Persist;
    hide Advance;
    hide WalSpec.Replay;
    hide FileAfter;
    hide SaneNode;
    hide CutsTheWrite;
    hide WritesHard;
    hide HardAfter;
    var h := c.hosts[a.x];
    assert SaneHost(h);
    match a
    case TimerFires(x) => TimeoutIsSane(h.node); TimeoutKeepsCycle(h.node); IdleIsSane(h, Timeout(h.node));
    case Deliver(x, m) => StepIsSane(h.node, m); StepKeepsCycle(h.node, m); IdleIsSane(h, Step(h.node, m));
    case PeerDown(x, peer) => UnreachableIsSane(h.node, peer); IdleIsSane(h, Unreachable(h.node, peer));
    case ClientProposes(x, data) => ProposeIsSaneHost(h, data);
    case Poll(x) => PollIsSane(h, x);
    case SaveEntries(x) => SaveIsSane(h, x);
    case SaveHardState(x) =>
    case Finish(x) => FinishIsSane(h, x);
    case Crash(x) => RestartIsSane(h, a);
    case CrashWhileSaving(x, _) => RestartIsSane(h, a);
    case CrashWhileSavingHard(x, _) => RestartIsSane(h, a);
  }

  lemma {:induction false} PollIsSane(h: Host, x: NodeId)
    requires SaneHost(h) && h.phase.Idle?
    ensures SaneHost(HostAfter(h, Poll(x)))
  {
    hide NextCommitted;
  }

  lemma {:induction false} ActionIsSane(c: State, a: Action)
    requires SaneInv(c) && Enabled(c, a) && Readable(c, a)
    ensures SaneInv(Perform(c, a))
  {
    hide HostAfter;
    hide Readable;
    if a.Send? {
      assert SaneHost(c.hosts[a.x]);
    } else if !a.ClientSends? {
      ActionIsSaneHost(c, a);
      hide SaneHost;
    }
  }

  lemma {:induction false} InitIsSane(cfg: Config, c: State)
    requires Init(cfg, c)
    ensures SaneInv(c)
  {
  }
}
