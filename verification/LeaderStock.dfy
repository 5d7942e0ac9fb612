/** A leader can serve its whole log.  A slice is empty where the window is empty and the place where it last
    stood lies below the range; over every run whose restarts read numbered logs, a leader whose commit index
    is inside its log is never in that position. */
module LeaderStock {
  import opened Bytes
  import opened RaftTypes
  import opened LogSpec
  import opened LogTheorems
  import opened SliceLimits
  import opened NodeSpec
  import opened ProgressSpec
  import opened NodeEffects
  import opened NodeAnswers
  import opened Cluster
  import opened NumberedLogs
  import opened Handout
  import opened CarefulRuns
  import opened StateMachineSafety
  import opened AgreedHandout

  /** The window is in use, or was confirmed up to its end, or there is nothing at all. */
  predicate InStock(l: Log) { l.window != [] || l.stored == [] || l.offset == |l.stored| + 1 }

  predicate Stocked(n: Node) { n.role == Leader ==> InStock(n.log) || n.log.committed > LastIndex(n.log) }

  lemma {:induction false} QuietKeepsStock(n: Node, n': Node)
    requires Valid(n.log) && Stocked(n) && Quiet(n, n') && (n'.role == Leader ==> n'.log.committed >= n.log.committed)
    ensures Stocked(n')
  {
  }

  lemma {:induction false} OwnKeepsStock(n: Node, n': Node, e: Entry)
    requires Valid(n.log) && Stocked(n) && n'.role == n.role && AppendedOwn(n.log, n'.log, e)
    ensures Stocked(n')
  {
    hide Logical;
  }

  lemma {:induction false} BroadcastKeepsLog(n: Node)
    ensures BroadcastAppend(n).log == n.log && BroadcastAppend(n).role == n.role
  {
  }

  lemma {:induction false} ProposalKeepsStock(n: Node, data: seq<Byte>)
    requires SaneNode(n) && Stocked(n)
    ensures Stocked(Propose(n, data))
  {
    if n.role == Leader && n.id in n.pr {
      AppendOwnOnlyAppends(n, data);
      hide AppendOwn;
      hide AppendedOwn;
      BroadcastKeepsLog(AppendOwn(n, data));
      hide BroadcastAppend;
      OwnKeepsStock(n, AppendOwn(n, data), Entry(n.term, LastIndex(n.log) + 1, 0, data));
    }
  }

  /** Whoever takes office with a log puts an entry of its own behind it, unless its commit index is beyond. */
  lemma {:induction false} OfficeIsStocked(n: Node)
    requires Valid(n.log) && n.term >= 1
    ensures Stocked(BecomeLeader(n))
  {
    BroadcastKeepsLog(InOffice(n));
    hide BroadcastAppend;
    if LastIndex(n.log) >= 1 && n.log.committed <= LastIndex(n.log) {
      AppendExtendsIffCommitInside(n.log, Entry(n.term, LastIndex(n.log) + 1, 0, []));
    }
    hide TermAt;
    hide Logical;
  }

  lemma {:induction false} LeaderCommitRises(n: Node, m: Message)
    ensures StepLeader(n, m).log.committed >= n.log.committed
  {
    hide Sends;
    hide QuorumIndex;
    hide LastIndex;
  }

  lemma {:induction false} StepKeepsStock(n: Node, m: Message)
    requires SaneNode(n) && Stocked(n)
    ensures Stocked(Step(n, m))
  {
    hide StepLeader;
    hide StepFollower;
    hide StepCandidate;
    if m.term > n.term {
      FollowerStays(BecomeFollower(n, m.term, 0), m);
    } else if m.term == n.term {
      match n.role
      case Leader => LeaderKeepsStock(n, m);
      case Candidate => CandidateIsStocked(n, m);
      case Follower => FollowerStays(n, m);
    }
  }

  lemma {:induction false} LeaderKeepsStock(n: Node, m: Message)
    requires SaneNode(n) && Stocked(n) && n.role == Leader
    ensures Stocked(StepLeader(n, m))
  {
    hide Stocked;
    hide Propose;
    if m.typ == MsgPropose {
      ProposalKeepsStock(n, if m.entries == [] then [] else m.entries[0].data);
    } else {
      StepLeaderIsRoutine(n, m);
      LeaderCommitRises(n, m);
      hide StepLeader;
      QuietKeepsStock(n, StepLeader(n, m));
    }
  }

  lemma {:induction false} CandidateIsStocked(n: Node, m: Message)
    requires SaneNode(n) && n.role == Candidate && m.term == n.term
    ensures Stocked(StepCandidate(n, m))
  {
    hide StepFollower;
    hide BecomeLeader;
    OfficeIsStocked(n.(votes := n.votes + [m.from]));
    FollowerStays(BecomeFollower(n, m.term, m.from), m);
  }

  lemma {:induction false} TimeoutKeepsStock(n: Node)
    requires SaneNode(n) && Stocked(n)
    ensures Stocked(Timeout(n))
  {
    hide BecomeLeader;
    OfficeIsStocked(BecomeCandidate(n));
  }

  /** Writing the frozen batch. */
  lemma {:induction false} SaveKeepsStock(h: Host, x: NodeId)
    requires SaneHost(h) && h.phase.Polled? && Stocked(h.node)
    ensures Stocked(HostAfter(h, SaveEntries(x)).node)
  {
    assert Persist(h.node.log, []) == h.node.log;
    hide FileAfter;
    hide Persist;
    hide Logical;
    hide WrittenThrough;
    hide Numbered;
    PersistWritesThrough(h.node.log, h.phase.rd.entries);
  }

  /** Confirming it. */
  lemma {:induction false} FinishKeepsStock(h: Host, x: NodeId)
    requires SaneHost(h) && h.phase.Synced? && Stocked(h.node)
    ensures Stocked(HostAfter(h, Finish(x)).node)
  {
    hide Advance;
    hide Stocked;
    hide WrittenThrough;
    hide Numbered;
    ConfirmedIsStocked(h.node, h.phase.rd.entries);
  }

  lemma {:induction false} ConfirmedIsStocked(n: Node, es: seq<Entry>)
    requires Valid(n.log) && Stocked(n) && WrittenThrough(n.log, es) && n.readyLast == LastOf(es)
    ensures Stocked(Advance(n))
  {
    if es != [] {
      StableDrops(n.log, es);
      hide StableTo;
      hide LastOf;
      hide Logical;
    }
  }

  lemma {:induction false} HostKeepsStock(c: State, a: Action)
    requires SaneInv(c) && Enabled(c, a) && !a.ClientSends? && !a.Send? && Stocked(c.hosts[a.x].node)
    ensures Stocked(HostAfter(c.hosts[a.x], a).node)
  {
    hide Timeout;
    hide Step;
    hide Propose;
    hide NextCommitted;
    hide Persist;
    hide Advance;
    hide FileAfter;
    hide HardAfter;
    hide CutsTheWrite;
    hide InStock;
    var h := c.hosts[a.x];
    assert SaneHost(h);
    match a
    case TimerFires(_) => TimeoutKeepsStock(h.node);
    case Deliver(_, m) => StepKeepsStock(h.node, m);
    case ClientProposes(_, data) => ProposalKeepsStock(h.node, data);
    case SaveEntries(x) => SaveKeepsStock(h, x);
    case Finish(x) => FinishKeepsStock(h, x);
    case _ =>
  }

  lemma {:induction false} RunIsStocked(cfg: Config, run: seq<State>, acts: seq<Action>, k: nat, x: NodeId)
    requires ReadableRun(cfg, run, acts) && k < |run| && x in run[k].hosts
    ensures Stocked(run[k].hosts[x].node)
  {
    hide HostAfter;
    hide SaneInv;
    hide InStock;
    if k > 0 {
      assert Enabled(run[k - 1], acts[k - 1]) && run[k - 1 + 1] == Perform(run[k - 1], acts[k - 1]);
      assert x in run[k - 1].hosts;
      RunIsStocked(cfg, run, acts, k - 1, x);
      RunIsSane(cfg, run, acts, k - 1);
      var a := acts[k - 1];
      if !a.ClientSends? && !a.Send? && a.x == x { HostKeepsStock(run[k - 1], a); }
    }
  }

  /** In every run whose restarts read numbered logs, a leader with its commit index inside its log can serve
      any of its entries. */
  lemma {:induction false} LeaderServes(cfg: Config, run: seq<State>, acts: seq<Action>, k: nat, x: NodeId, term: nat, i: nat)
    requires ReadableRun(cfg, run, acts) && k < |run| && Leads(run[k], x, term)
    requires var l := run[k].hosts[x].node.log; l.committed <= LastIndex(l) && 1 <= i <= LastIndex(l)
    ensures var l := run[k].hosts[x].node.log; Valid(l) && Served(l, i)
  {
    RunIsStocked(cfg, run, acts, k, x);
    RunIsSane(cfg, run, acts, k);
    assert SaneHost(run[k].hosts[x]);
  }

  /** So there a heartbeat reply of a peer that is not held back, and whose next index is inside the log, is
      answered with an append behind the index before it, with a non-empty run of the leader's log. */
  lemma {:induction false} HeartbeatReplyIsServed(cfg: Config, run: seq<State>, acts: seq<Action>, k: nat, x: NodeId, m: Message)
    requires ReadableRun(cfg, run, acts) && k < |run| && Leads(run[k], x, m.term) && m.typ == MsgHeartbeatResp
    requires var n := run[k].hosts[x].node;
             && n.log.committed <= LastIndex(n.log) && m.from in n.pr
             && var p := n.pr[m.from];
                !p.paused && (p.state == Replicate ==> |p.inflights| != p.capacity) && 1 <= p.nextIndex <= LastIndex(n.log)
    ensures var n := run[k].hosts[x].node;
            Valid(n.log) && Supplied(Step(n, m).msgs, n.id, n.term, m.from, Logical(n.log), n.pr[m.from].nextIndex - 1, n.log.committed)
  {
    hide ReadableRun;
    hide Step;
    hide Supplied;
    hide LastIndex;
    var n := run[k].hosts[x].node;
    LeaderServes(cfg, run, acts, k, x, m.term, n.pr[m.from].nextIndex);
    HeartbeatReplySupplies(n, m);
  }

  /** In a careful run every leader can. */
  lemma {:induction false} CarefulLeaderServes(cfg: Config, run: seq<State>, acts: seq<Action>, k: nat, x: NodeId, term: nat, i: nat)
    requires ValidConfig(cfg) && CarefulRun(cfg, run) && Acted(cfg, run, acts) && k < |run| && Leads(run[k], x, term)
    requires 1 <= i <= LastIndex(run[k].hosts[x].node.log)
    ensures var l := run[k].hosts[x].node.log; Valid(l) && Served(l, i)
  {
    hide Acted;
    hide ReadableRun;
    hide CarefulRun;
    CarefulIsClean(cfg, run);
    CleanIsReadable(cfg, run, acts);
    LeaderCompleteness(cfg, run, k, k, x, x, term);
    LeaderServes(cfg, run, acts, k, x, term, i);
  }
}
