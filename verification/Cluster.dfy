/** A cluster of Raft hosts over a network that may lose, duplicate, delay and reorder messages.

    Each host runs the application's loop: while Idle it takes timeouts and messages, any number of
    them; then poll() freezes a Ready, the entries are written, the hard state is written, and only
    then the messages leave, one by one; advance() ends the cycle.  Client proposals may arrive at
    any point of the cycle.  A host may crash at any point and starts again from what is on disk:
    the log file is replayed byte by byte, and a write that a crash interrupts leaves any number of
    its bytes there. */
module Cluster {
  import opened Bytes
  import opened RaftTypes
  import opened LogSpec
  import opened WalSpec
  import opened NodeSpec

  datatype Phase = Idle | Polled(rd: Ready) | Saved(rd: Ready) | Synced(rd: Ready)

  /** Term and vote of the hard state file, and the bytes of the log file. */
  datatype Disk = Disk(term: nat, vote: NodeId, file: seq<Byte>)

  datatype Host = Host(node: Node, disk: Disk, phase: Phase)

  /** `net` holds every message ever sent: loss is never delivering, duplication delivering twice. */
  datatype State = State(hosts: map<NodeId, Host>, net: set<Message>)

  datatype Action =
    | TimerFires(x: NodeId)
    | Deliver(x: NodeId, m: Message)
    | PeerDown(x: NodeId, peer: NodeId)
    | ClientProposes(x: NodeId, data: seq<Byte>)
    | ClientSends(m: Message)
    | Poll(x: NodeId)
    | SaveEntries(x: NodeId)
    | SaveHardState(x: NodeId)
    | Send(x: NodeId, m: Message)
    | Finish(x: NodeId)
    | Crash(x: NodeId)
    | CrashWhileSaving(x: NodeId, kept: nat)
    | CrashWhileSavingHard(x: NodeId, kept: nat)

  /** Voters are distinct and nobody is called 0. */
  ghost predicate ValidConfig(cfg: Config) {
    && |cfg.voters| >= 1
    && 0 !in cfg.voters
    && forall i, j :: 0 <= i < j < |cfg.voters| ==> cfg.voters[i] != cfg.voters[j]
  }

  function FreshHost(x: NodeId, cfg: Config): Host { Host(Boot(x, cfg, 0, 0, []), Disk(0, 0, []), Idle) }

  ghost predicate Init(cfg: Config, c: State) {
    && c.hosts.Keys == Elements(cfg.voters)
    && c.net == {}
    && forall x :: x in c.hosts ==> c.hosts[x] == FreshHost(x, cfg)
  }

  // ----- what is on disk -----

  /** The in-memory vector of the log file: a dummy and then the stored entries. */
  function Vector(l: Log): seq<Entry> { [DUMMY] + l.stored }

  function FileAfter(h: Host, es: seq<Entry>): seq<Byte> { AppendedFile(h.disk.file, Vector(h.node.log), es) }

  /** The write itself is cut: a rewrite starts from an empty file, any other write at its end. */
  predicate CutsTheWrite(h: Host, es: seq<Entry>, kept: nat) {
    es != [] && (es[0].index < |Vector(h.node.log)| || kept >= |h.disk.file|)
  }

  /** The hard state is written unless it is still empty. */
  predicate WritesHard(rd: Ready) { rd.term != 0 || rd.commit != 0 }

  /** The hard state that a restart reads when the write was cut at byte `kept`. */
  function HardAfter(rd: Ready, kept: nat): HardState {
    ReadHardState(HardBytes(HardState(rd.term, rd.vote, rd.commit))[..Min(kept, 24)])
  }

  function Restarted(h: Host, disk: Disk): Host {
    Host(Boot(h.node.id, h.node.cfg, disk.term, disk.vote, Replay(disk.file)[1..]), disk, Idle)
  }

  // ----- actions -----

  ghost predicate Enabled(c: State, a: Action) {
    match a
    case TimerFires(x) => x in c.hosts && c.hosts[x].phase.Idle?
    case Deliver(x, m) => x in c.hosts && c.hosts[x].phase.Idle? && m in c.net && m.to == x
    case PeerDown(x, peer) => x in c.hosts && c.hosts[x].phase.Idle?
    case ClientProposes(x, data) => x in c.hosts
    case ClientSends(m) => m.typ == MsgPropose
    case Poll(x) => x in c.hosts && c.hosts[x].phase.Idle?
    case SaveEntries(x) => x in c.hosts && c.hosts[x].phase.Polled?
    case SaveHardState(x) => x in c.hosts && c.hosts[x].phase.Saved?
    case Send(x, m) => x in c.hosts && c.hosts[x].phase.Synced? && m in c.hosts[x].phase.rd.msgs
    case Finish(x) => x in c.hosts && c.hosts[x].phase.Synced?
    case Crash(x) => x in c.hosts
    case CrashWhileSaving(x, kept) =>
      x in c.hosts && c.hosts[x].phase.Polled? && CutsTheWrite(c.hosts[x], c.hosts[x].phase.rd.entries, kept)
    case CrashWhileSavingHard(x, _) => x in c.hosts && c.hosts[x].phase.Saved? && WritesHard(c.hosts[x].phase.rd)
  }

  /** What one action does to the host it names. */
  ghost function HostAfter(h: Host, a: Action): Host {
    match a
    case TimerFires(x) => h.(node := Timeout(h.node))
    case Deliver(x, m) => h.(node := Step(h.node, m))
    case PeerDown(x, peer) => h.(node := Unreachable(h.node, peer))
    case ClientProposes(x, data) => h.(node := Propose(h.node, data))
    case ClientSends(m) => h
    case Poll(x) => h.(node := AfterPoll(h.node), phase := Polled(MakeReady(h.node)))
    case SaveEntries(x) =>
      if !h.phase.Polled? then h
      else
        var es := h.phase.rd.entries;
        Host(h.node.(log := Persist(h.node.log, es)), h.disk.(file := FileAfter(h, es)), Saved(h.phase.rd))
    case SaveHardState(x) =>
      if !h.phase.Saved? then h
      else if WritesHard(h.phase.rd)
      then Host(h.node, h.disk.(term := h.phase.rd.term, vote := h.phase.rd.vote), Synced(h.phase.rd))
      else h.(phase := Synced(h.phase.rd))
    case Send(x, m) => h
    case Finish(x) => h.(node := Advance(h.node), phase := Idle)
    case Crash(x) => Restarted(h, h.disk)
    case CrashWhileSaving(x, kept) =>
      if !h.phase.Polled? then h
      else
        var full := FileAfter(h, h.phase.rd.entries);
        Restarted(h, h.disk.(file := full[..Min(kept, |full|)]))
    case CrashWhileSavingHard(x, kept) =>
      if !h.phase.Saved? then h
      else
        var hs := HardAfter(h.phase.rd, kept);
        Restarted(h, h.disk.(term := hs.term, vote := hs.vote))
  }

  ghost function Perform(c: State, a: Action): State
    requires Enabled(c, a)
  {
    match a
    case ClientSends(m) => c.(net := c.net + {m})
    case Send(x, m) => c.(net := c.net + {m})
    case _ => c.(hosts := c.hosts[a.x := HostAfter(c.hosts[a.x], a)])
  }

  // ----- runs -----

  ghost predicate Next(c: State, c': State) {
    exists a :: Enabled(c, a) && c' == Perform(c, a)
  }

  /** A run of the cluster from the empty start. */
  ghost predicate IsRun(cfg: Config, run: seq<State>) {
    && |run| >= 1
    && Init(cfg, run[0])
    && forall k :: 0 <= k < |run| - 1 ==> Next(run[k], run[k + 1])
  }

  /** A crash in the middle of the hard state write costs neither term nor vote. */
  ghost predicate Intact(c: State, a: Action)
    requires Enabled(c, a)
  {
    a.CrashWhileSavingHard? ==>
      var rd := c.hosts[a.x].phase.rd;
      HardAfter(rd, a.kept).term == rd.term && HardAfter(rd, a.kept).vote == rd.vote
  }

  /** Entries fit their records, and none is written behind a piece of a record. */
  ghost predicate CleanWrite(h: Host, es: seq<Entry>) {
    WritesCleanly(h.disk.file, Vector(h.node.log), es) && forall i :: 0 <= i < |es| ==> Fits(es[i])
  }

  ghost predicate Clean(c: State, a: Action)
    requires Enabled(c, a)
  {
    a.SaveEntries? || a.CrashWhileSaving? ==> CleanWrite(c.hosts[a.x], c.hosts[a.x].phase.rd.entries)
  }

  ghost predicate IntactNext(c: State, c': State) {
    exists a :: Enabled(c, a) && Intact(c, a) && c' == Perform(c, a)
  }

  ghost predicate CleanNext(c: State, c': State) {
    exists a :: Enabled(c, a) && Intact(c, a) && Clean(c, a) && c' == Perform(c, a)
  }

  /** A run in which no crash costs a host its term or vote. */
  ghost predicate IntactRun(cfg: Config, run: seq<State>) {
    && |run| >= 1
    && Init(cfg, run[0])
    && forall k :: 0 <= k < |run| - 1 ==> IntactNext(run[k], run[k + 1])
  }

  /** A run in which, besides, every write to a log file is clean. */
  ghost predicate CleanRun(cfg: Config, run: seq<State>) {
    && |run| >= 1
    && Init(cfg, run[0])
    && forall k :: 0 <= k < |run| - 1 ==> CleanNext(run[k], run[k + 1])
  }

  ghost predicate Leads(c: State, x: NodeId, term: nat) {
    x in c.hosts && c.hosts[x].node.role == Leader && c.hosts[x].node.term == term
  }

  /** Host x hands the entry to its state machine. */
  ghost predicate HandsOut(c: State, x: NodeId, en: Entry) {
    x in c.hosts && !c.hosts[x].phase.Idle? && en in c.hosts[x].phase.rd.committed
  }
}
