/** The part of the cluster invariant that speaks about logs, for runs whose log files are written
    cleanly: every log is backed by the leaders' own logs, and every log file recovers the stored log. */
module Replication {
  import opened Bytes
  import opened RaftTypes
  import opened LogSpec
  import opened LogTheorems
  import opened WalSpec
  import opened NodeSpec
  import opened Cluster
  import opened Canon
  import opened Votes
  import opened NodeEffects

  /** An append that carries entries carries a run of the log of its term's leader. */
  ghost predicate AppOk(chain: Chains, m: Message) {
    m.typ == MsgApp && m.entries != [] ==> m.term in chain && RunOf(chain[m.term], m.index, m.logTerm, m.entries)
  }

  ghost predicate CycleOk(h: Host) {
    match h.phase
    case Idle => h.node.readyLast == 0
    case Polled(rd) => h.node.readyLast == LastOf(rd.entries) && rd.entries <= h.node.log.window
    case Saved(rd) => h.node.readyLast == LastOf(rd.entries) && WrittenThrough(h.node.log, rd.entries)
    case Synced(rd) => h.node.readyLast == LastOf(rd.entries) && WrittenThrough(h.node.log, rd.entries)
  }

  ghost predicate LeaderLog(chain: Chains, n: Node)
    requires Valid(n.log)
  {
    n.role == Leader ==> n.term in chain && Logical(n.log) == chain[n.term]
  }

  ghost predicate HostLog(chain: Chains, h: Host) {
    && LogOk(chain, h.node.log)
    && LeaderLog(chain, h.node)
    && CycleOk(h)
    && Recovers(h.disk.file, Vector(h.node.log))
    && forall m :: m in Pending(h) ==> AppOk(chain, m)
  }

  ghost predicate LogInv(c: State, e: Elections, chain: Chains) {
    && chain.Keys == e.winner.Keys && ChainsOk(chain)
    && (forall m :: m in c.net ==> AppOk(chain, m))
    && (forall x :: x in c.hosts ==> HostLog(chain, c.hosts[x]))
  }

  lemma {:induction false} FreshHostLog(x: NodeId, cfg: Config)
    ensures HostLog(map[], FreshHost(x, cfg))
  {
    var h := FreshHost(x, cfg);
    MirrorRecovers([DUMMY]);
    assert Records([DUMMY][1..]) == [] && Vector(h.node.log) == [DUMMY];
  }

  lemma {:induction false} LogsStart(cfg: Config, c: State)
    requires Init(cfg, c)
    ensures LogInv(c, Elections(map[], map[]), map[])
  {
    hide HostLog;
    forall x | x in c.hosts ensures HostLog(map[], c.hosts[x]) { FreshHostLog(x, cfg); }
  }

  // ----- one host, the chains standing still -----

  /** Progress, commit index, leaving office and harmless messages do not matter. */
  lemma {:induction false} QuietKeeps(chain: Chains, h: Host, n': Node)
    requires HostLog(chain, h) && Quiet(h.node, n')
    ensures HostLog(chain, h.(node := n'))
  {
    hide Recovers;
    var h' := h.(node := n');
    forall m | m in Pending(h') ensures AppOk(chain, m) {
      if m !in Pending(h) { assert OwnAppend(h.node, m); }
    }
  }

  lemma {:induction false} TimeoutKeepsLog(chain: Chains, h: Host)
    requires HostLog(chain, h) && Quorum(h.node.cfg) > 1
    ensures HostLog(chain, h.(node := Timeout(h.node)))
  {
    assert Quiet(h.node, Timeout(h.node));
    QuietKeeps(chain, h, Timeout(h.node));
  }

  /** Taking an append as a follower. */
  lemma {:induction false} FollowerAppendKeeps(chain: Chains, h: Host, m: Message)
    requires HostLog(chain, h) && h.phase.Idle? && h.node.role == Follower && ChainsOk(chain)
    requires AppOk(chain, m) && m.typ == MsgApp
    ensures HostLog(chain, h.(node := StepFollower(h.node, m)))
  {
    hide Recovers;
    var n := h.node;
    var leaderLog := if m.entries == [] then [] else chain[m.term];
    AppendKeepsCanonical(chain, n.log, leaderLog, m.index, m.logTerm, m.commit, m.entries);
    hide MaybeAppend;
    hide Canonical;
    var n1 := n.(log := MaybeAppend(n.log, m.index, m.logTerm, m.commit, m.entries).0);
    assert Pending(h.(node := n1)) == Pending(h);
    assert Quiet(n1, StepFollower(n, m));
    QuietKeeps(chain, h.(node := n1), StepFollower(n, m));
  }

  lemma {:induction false} FollowerKeepsLog(chain: Chains, h: Host, m: Message)
    requires HostLog(chain, h) && h.phase.Idle? && h.node.role == Follower && ChainsOk(chain) && AppOk(chain, m)
    ensures HostLog(chain, h.(node := StepFollower(h.node, m)))
  {
    hide StepFollower;
    if m.typ == MsgApp {
      FollowerAppendKeeps(chain, h, m);
    } else {
      OtherStepIsQuiet(h.node, m);
      QuietKeeps(chain, h, StepFollower(h.node, m));
    }
  }

  lemma {:induction false} OtherStepIsQuiet(n: Node, m: Message)
    requires Valid(n.log) && n.role == Follower && m.typ != MsgApp
    ensures Quiet(n, StepFollower(n, m))
  {
    hide Logical;
    hide GrantsVote;
  }

  /** Whatever a candidate does with a message that does not elect it. */
  lemma {:induction false} LosingKeepsLog(chain: Chains, h: Host, m: Message)
    requires HostLog(chain, h) && h.phase.Idle? && h.node.role == Candidate && ChainsOk(chain) && AppOk(chain, m)
    requires m.term == h.node.term && !Wins(h.node, m)
    ensures HostLog(chain, h.(node := StepCandidate(h.node, m)))
  {
    hide StepFollower;
    hide BecomeLeader;
    if m.typ == MsgApp || m.typ == MsgHeartbeat {
      var n1 := BecomeFollower(h.node, h.node.term, m.from);
      assert Quiet(h.node, n1);
      QuietKeeps(chain, h, n1);
      FollowerKeepsLog(chain, h.(node := n1), m);
    } else {
      assert Quiet(h.node, StepCandidate(h.node, m));
      QuietKeeps(chain, h, StepCandidate(h.node, m));
    }
  }

  // ----- the Ready cycle and crashes -----

  lemma {:induction false} PersistKeepsCanonical(chain: Chains, l: Log, es: seq<Entry>)
    requires LogOk(chain, l) && es <= l.window
    ensures LogOk(chain, Persist(l, es))
  {
    PersistWritesThrough(l, es);
    if Persist(l, es).stored != l.stored {
      var stored := Persist(l, es).stored;
      CanonicalPrefix(chain, Logical(l), |stored|);
      assert stored == Logical(l)[..|stored|];
    }
  }

  /** The vector of the log file takes a batch of the window as storage does. */
  lemma {:induction false} VectorAppends(l: Log, es: seq<Entry>)
    requires Valid(l) && es <= l.window && forall i :: 0 <= i < |es| ==> Fits(es[i])
    ensures Vector(Persist(l, es)) == AppendedEntries(Vector(l), es) && Continues(Vector(l), es)
  {
    if es != [] {
      assert es[0] == l.window[0] && es[0].index == l.offset;
      assert Vector(l)[..es[0].index] == [DUMMY] + l.stored[..es[0].index - 1];
    }
  }

  lemma {:induction false} PollKeepsLog(chain: Chains, h: Host, x: NodeId)
    requires HostLog(chain, h) && h.phase.Idle?
    ensures HostLog(chain, HostAfter(h, Poll(x)))
  {
    hide Recovers;
    hide LogOk;
    assert Pending(HostAfter(h, Poll(x))) == Pending(h);
  }

  lemma {:induction false} SavedFileRecovers(chain: Chains, h: Host, es: seq<Entry>)
    requires HostLog(chain, h) && es <= h.node.log.window && CleanWrite(h, es)
    ensures Recovers(FileAfter(h, es), Vector(Persist(h.node.log, es)))
  {
    VectorAppends(h.node.log, es);
    CleanAppendRecovers(h.disk.file, Vector(h.node.log), es);
  }

  /** Another layering of the same log, with the file to go with it. */
  lemma {:induction false} Relayered(chain: Chains, h: Host, h': Host)
    requires HostLog(chain, h) && h'.node.role == h.node.role && h'.node.term == h.node.term && Pending(h') <= Pending(h)
    requires LogOk(chain, h'.node.log) && Logical(h'.node.log) == Logical(h.node.log)
    requires CycleOk(h') && Recovers(h'.disk.file, Vector(h'.node.log))
    ensures HostLog(chain, h')
  {
    hide Recovers;
    hide CycleOk;
    hide Canonical;
    hide AppOk;
  }

  /** The parts of the host after a write. */
  lemma {:induction false} SavedHost(h: Host, x: NodeId)
    requires h.phase.Polled?
    ensures var h', es := HostAfter(h, SaveEntries(x)), h.phase.rd.entries;
            && h'.node == h.node.(log := Persist(h.node.log, es)) && h'.disk.file == FileAfter(h, es)
            && h'.phase == Saved(h.phase.rd) && Pending(h') == Pending(h)
  {
    hide Persist;
    hide FileAfter;
  }

  lemma {:induction false} SaveEntriesKeepsLog(chain: Chains, h: Host, x: NodeId)
    requires HostLog(chain, h) && h.phase.Polled? && CleanWrite(h, h.phase.rd.entries)
    ensures HostLog(chain, HostAfter(h, SaveEntries(x)))
  {
    hide HostAfter;
    hide Persist;
    hide Recovers;
    hide FileAfter;
    hide Vector;
    hide CleanWrite;
    hide Canonical;
    SavedHost(h, x);
    PersistWritesThrough(h.node.log, h.phase.rd.entries);
    PersistKeepsCanonical(chain, h.node.log, h.phase.rd.entries);
    SavedFileRecovers(chain, h, h.phase.rd.entries);
    hide WrittenThrough;
    hide Logical;
    hide Numbered;
    Relayered(chain, h, HostAfter(h, SaveEntries(x)));
  }

  lemma {:induction false} SaveHardStateKeepsLog(chain: Chains, h: Host, x: NodeId)
    requires HostLog(chain, h) && h.phase.Saved?
    ensures HostLog(chain, HostAfter(h, SaveHardState(x)))
  {
    hide Recovers;
    hide LogOk;
    assert Pending(HostAfter(h, SaveHardState(x))) == Pending(h);
  }

  lemma {:induction false} AdvanceKeepsLogical(n: Node, es: seq<Entry>)
    requires Valid(n.log) && WrittenThrough(n.log, es) && n.readyLast == LastOf(es)
    ensures var n' := Advance(n);
            && Valid(n'.log) && Logical(n'.log) == Logical(n.log) && n'.log.stored == n.log.stored
            && n'.role == n.role && n'.term == n.term && n'.readyLast == 0 && n'.msgs == n.msgs
  {
    hide StableTo;
    StableKeepsLogical(n.log, es);
  }

  lemma {:induction false} FinishKeepsLog(chain: Chains, h: Host, x: NodeId)
    requires HostLog(chain, h) && h.phase.Synced?
    ensures HostLog(chain, HostAfter(h, Finish(x)))
  {
    hide Advance;
    hide Recovers;
    hide Canonical;
    AdvanceKeepsLogical(h.node, h.phase.rd.entries);
    hide Logical;
    hide WrittenThrough;
    hide Numbered;
    Relayered(chain, h, HostAfter(h, Finish(x)));
  }

  /** A file that recovers a canonical log starts the host again with that log. */
  lemma {:induction false} RestartKeepsLog(chain: Chains, h: Host, disk: Disk, stored: seq<Entry>)
    requires Recovers(disk.file, [DUMMY] + stored) && Numbered(stored, 1) && Canonical(chain, stored)
    ensures HostLog(chain, Restarted(h, disk))
  {
    RecoversReplays(disk.file, [DUMMY] + stored);
    hide Replay;
    hide Recovers;
    hide Canonical;
    assert ([DUMMY] + stored)[1..] == stored;
  }

  lemma {:induction false} CrashKeepsLog(chain: Chains, h: Host, disk: Disk)
    requires HostLog(chain, h) && disk.file == h.disk.file
    ensures HostLog(chain, Restarted(h, disk))
  {
    RestartKeepsLog(chain, h, disk, h.node.log.stored);
  }

  lemma {:induction false} VectorPrefix(l: Log, n: nat)
    requires n <= |Vector(l)[1..]|
    ensures n <= |l.stored| && Vector(l)[..1 + n] == [DUMMY] + l.stored[..n]
  {
  }

  /** A clean write that a crash cuts anywhere leaves a file that recovers some prefix of what was being
      written. */
  lemma {:induction false} CutWriteRecovers(h: Host, kept: nat) returns (n: nat)
    requires h.phase.Polled? && h.phase.rd.entries != [] && CleanWrite(h, h.phase.rd.entries)
    requires Valid(h.node.log) && h.phase.rd.entries <= h.node.log.window && Recovers(h.disk.file, Vector(h.node.log))
    ensures var full, stored := FileAfter(h, h.phase.rd.entries), Persist(h.node.log, h.phase.rd.entries).stored;
            n <= |stored| && Recovers(full[..Min(kept, |full|)], [DUMMY] + stored[..n])
  {
    var es := h.phase.rd.entries;
    var saved := Persist(h.node.log, es);
    var full := FileAfter(h, es);
    var k := Min(kept, |full|);
    VectorAppends(h.node.log, es);
    CleanCutRecovers(h.disk.file, Vector(h.node.log), es, k);
    n := WholeRecords(Vector(saved)[1..], k);
    VectorPrefix(saved, n);
    hide *;
  }

  /** Such a host starts again with a prefix of what was being written. */
  lemma {:induction false} CutWriteKeepsLog(chain: Chains, h: Host, kept: nat)
    requires HostLog(chain, h) && h.phase.Polled? && h.phase.rd.entries != [] && CleanWrite(h, h.phase.rd.entries)
    ensures var full := FileAfter(h, h.phase.rd.entries);
            HostLog(chain, Restarted(h, h.disk.(file := full[..Min(kept, |full|)])))
  {
    var es := h.phase.rd.entries;
    var saved := Persist(h.node.log, es);
    var full := FileAfter(h, es);
    var n := CutWriteRecovers(h, kept);
    PersistKeepsCanonical(chain, h.node.log, es);
    hide Recovers;
    hide Persist;
    hide HostLog;
    hide FileAfter;
    CanonicalPrefix(chain, saved.stored, n);
    RestartKeepsLog(chain, h, h.disk.(file := full[..Min(kept, |full|)]), saved.stored[..n]);
  }
}
