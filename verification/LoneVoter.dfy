/** A cluster of one voter.  It appends only its own entries, sends nothing but proposals, and never
    commits: nobody acknowledges.  Its log file recovers its stored log all the same. */
module LoneVoter {
  import opened Bytes
  import opened RaftTypes
  import opened LogSpec
  import opened LogTheorems
  import opened WalSpec
  import opened NodeSpec
  import opened NodeEffects
  import opened Cluster
  import opened Replication

  ghost predicate LoneNode(cfg: Config, n: Node) {
    && cfg.voters == [n.id] && n.cfg == cfg && Valid(n.log) && n.log.committed == 0
    && n.role != Candidate && (n.role == Leader ==> n.term >= 1 && n.pr.Keys == {n.id})
    && forall m :: m in n.msgs ==> m.typ == MsgPropose
  }

  ghost predicate LoneHost(cfg: Config, h: Host) {
    && LoneNode(cfg, h.node) && CycleOk(h) && Recovers(h.disk.file, Vector(h.node.log))
    && (!h.phase.Idle? ==> h.phase.rd.committed == [] && forall m :: m in h.phase.rd.msgs ==> m.typ == MsgPropose)
  }

  ghost predicate LoneInv(cfg: Config, c: State) {
    && (forall x :: x in c.hosts ==> c.hosts[x].node.id == x && LoneHost(cfg, c.hosts[x]))
    && forall m :: m in c.net ==> m.typ == MsgPropose
  }

  // ----- what the node does -----

  /** The log is as before, or has one more entry; nothing but proposals is new. */
  ghost predicate OwnOnly(n: Node, n': Node)
    requires Valid(n.log)
  {
    && n'.id == n.id && n'.readyLast == n.readyLast && exists e: Entry :: AppendedOwn(n.log, n'.log, e)
  }

  lemma {:induction false} SendsNothing(n: Node)
    requires n.pr.Keys == {n.id}
    ensures BroadcastAppend(n).msgs == n.msgs && BroadcastHeartbeat(n).msgs == n.msgs && BroadcastAppend(n).pr.Keys == {n.id}
    ensures BroadcastAppend(n) == n.(pr := BroadcastAppend(n).pr) && BroadcastHeartbeat(n) == n
  {
  }

  lemma {:induction false} OwnAppendIs(l: Log, l': Log, e: Entry)
    requires Valid(l) && AppendedOwn(l, l', e)
    ensures Valid(l') && l'.committed == l.committed && l'.stored == l.stored
  {
  }

  lemma {:induction false} LoneAppends(cfg: Config, n: Node, data: seq<Byte>)
    requires LoneNode(cfg, n) && n.role == Leader
    ensures var n' := BroadcastAppend(AppendOwn(n, data)); LoneNode(cfg, n') && OwnOnly(n, n')
  {
    var n1 := AppendOwn(n, data);
    AppendOwnOnlyAppends(n, data);
    OwnAppendIs(n.log, n1.log, Entry(n.term, LastIndex(n.log) + 1, 0, data));
    assert n1.pr.Keys == {n.id};
    hide AppendOwn;
    hide AppendedOwn;
    SendsNothing(n1);
  }

  lemma {:induction false} SameLog(n: Node, n': Node)
    requires Valid(n.log) && n'.id == n.id && n'.readyLast == n.readyLast && n'.log == n.log
    ensures OwnOnly(n, n')
  {
    assert AppendedOwn(n.log, n'.log, DUMMY);
  }

  lemma {:induction false} LoneTakesOffice(cfg: Config, n: Node)
    requires LoneNode(cfg, n)
    ensures LoneNode(cfg, Campaign(n)) && OwnOnly(n, Campaign(n))
  {
    var c := BecomeCandidate(n);
    var led := c.(role := Leader, lead := n.id, pr := FreshTable(c));
    assert Elements(cfg.voters) + {n.id} == {n.id};
    assert LoneNode(cfg, led);
    assert Campaign(n) == BroadcastAppend(if LastIndex(n.log) >= 1 then AppendOwn(led, []) else led);
    hide AppendOwn;
    if LastIndex(n.log) >= 1 {
      LoneAppends(cfg, led, []);
    } else {
      SendsNothing(led);
      SameLog(n, BroadcastAppend(led));
    }
  }

  lemma {:induction false} LoneSteps(cfg: Config, n: Node, m: Message)
    requires LoneNode(cfg, n) && m.typ == MsgPropose
    ensures LoneNode(cfg, Step(n, m)) && OwnOnly(n, Step(n, m))
  {
    if n.role == Leader && m.term == n.term {
      var data := if m.entries == [] then [] else m.entries[0].data;
      assert Step(n, m) == BroadcastAppend(AppendOwn(n, data));
      LoneAppends(cfg, n, data);
    } else {
      SameLog(n, Step(n, m));
    }
  }

  lemma {:induction false} LoneNodeActs(cfg: Config, n: Node, a: Action)
    requires LoneNode(cfg, n) && (a.TimerFires? || a.PeerDown? || a.ClientProposes? || (a.Deliver? && a.m.typ == MsgPropose))
    ensures var n' := match a case TimerFires(_) => Timeout(n) case PeerDown(_, p) => Unreachable(n, p)
                      case ClientProposes(_, d) => Propose(n, d) case Deliver(_, m) => Step(n, m) case _ => n;
            LoneNode(cfg, n') && OwnOnly(n, n')
  {
    hide Step;
    hide Campaign;
    hide AppendOwn;
    match a
    case TimerFires(_) =>
      if n.role == Leader {
        SendsNothing(n);
        SameLog(n, n);
      } else {
        LoneTakesOffice(cfg, n);
      }
    case PeerDown(_, p) => SameLog(n, Unreachable(n, p));
    case ClientProposes(_, d) => if n.role == Leader { LoneAppends(cfg, n, d); } else { SameLog(n, n); }
    case Deliver(_, m) => LoneSteps(cfg, n, m);
  }

  // ----- what the host does -----

  /** One more entry disturbs no phase of the cycle. */
  lemma {:induction false} OwnKeepsHost(cfg: Config, h: Host, n': Node)
    requires LoneHost(cfg, h) && LoneNode(cfg, n') && OwnOnly(h.node, n')
    ensures LoneHost(cfg, h.(node := n'))
  {
    hide Recovers;
    var e: Entry :| AppendedOwn(h.node.log, n'.log, e);
    hide LoneNode;
    hide Logical;
  }

  lemma {:induction false} NothingToApply(l: Log)
    requires l.committed == 0
    ensures NextCommitted(l) == []
  {
  }

  lemma {:induction false} LoneCycles(cfg: Config, h: Host, a: Action)
    requires LoneHost(cfg, h) && (a.Poll? || a.SaveEntries? || a.SaveHardState? || a.Finish?)
    requires (a.Poll? ==> h.phase.Idle?) && (a.SaveEntries? ==> h.phase.Polled? && CleanWrite(h, h.phase.rd.entries))
    requires (a.SaveHardState? ==> h.phase.Saved?) && (a.Finish? ==> h.phase.Synced?)
    ensures LoneHost(cfg, HostAfter(h, a))
  {
    match a
    case Poll(x) =>
      NothingToApply(h.node.log);
      hide NextCommitted;
      hide Recovers;
    case SaveEntries(x) => LoneSaves(cfg, h, x);
    case SaveHardState(x) => hide Recovers;
    case Finish(x) =>
      AdvanceKeepsLogical(h.node, h.phase.rd.entries);
      LoneAdvances(h.node);
      hide Advance;
      hide Recovers;
      hide Logical;
  }

  lemma {:induction false} LoneAdvances(n: Node)
    ensures var n' := Advance(n);
            n'.log.committed == n.log.committed && n'.id == n.id && n'.cfg == n.cfg && n'.pr == n.pr
  {
  }

  lemma {:induction false} LoneSaves(cfg: Config, h: Host, x: NodeId)
    requires LoneHost(cfg, h) && h.phase.Polled? && CleanWrite(h, h.phase.rd.entries)
    ensures LoneHost(cfg, HostAfter(h, SaveEntries(x)))
  {
    var es := h.phase.rd.entries;
    VectorAppends(h.node.log, es);
    CleanAppendRecovers(h.disk.file, Vector(h.node.log), es);
    PersistWritesThrough(h.node.log, es);
    SavedHost(h, x);
    hide Recovers;
    hide Persist;
    hide Logical;
    hide Vector;
    hide AppendedFile;
    hide AppendedEntries;
    hide WritesCleanly;
  }

  /** Whatever prefix of the log the file recovers, the host starts again with it. */
  lemma {:induction false} LoneRestarts(cfg: Config, h: Host, disk: Disk, stored: seq<Entry>)
    requires cfg.voters == [h.node.id] && h.node.cfg == cfg && Recovers(disk.file, [DUMMY] + stored) && Numbered(stored, 1)
    ensures LoneHost(cfg, Restarted(h, disk))
  {
    RecoversReplays(disk.file, [DUMMY] + stored);
    hide Replay;
    hide Recovers;
    assert ([DUMMY] + stored)[1..] == stored;
  }

  lemma {:induction false} LoneCutWrite(cfg: Config, h: Host, kept: nat)
    requires LoneHost(cfg, h) && h.phase.Polled? && h.phase.rd.entries != [] && CleanWrite(h, h.phase.rd.entries)
    ensures var full := FileAfter(h, h.phase.rd.entries);
            LoneHost(cfg, Restarted(h, h.disk.(file := full[..Min(kept, |full|)])))
  {
    hide Recovers;
    hide Persist;
    hide FileAfter;
    hide Logical;
    hide WrittenThrough;
    hide CleanWrite;
    var saved, full := Persist(h.node.log, h.phase.rd.entries), FileAfter(h, h.phase.rd.entries);
    assert LoneNode(cfg, h.node) && h.phase.rd.entries <= h.node.log.window && Recovers(h.disk.file, Vector(h.node.log));
    hide LoneHost;
    PersistWritesThrough(h.node.log, h.phase.rd.entries);
    var n := CutWriteRecovers(h, kept);
    LoneRestarts(cfg, h, h.disk.(file := full[..Min(kept, |full|)]), saved.stored[..n]);
  }

  lemma {:induction false} LoneCrashes(cfg: Config, h: Host, a: Action)
    requires LoneHost(cfg, h) && (a.Crash? || a.CrashWhileSaving? || a.CrashWhileSavingHard?)
    requires a.CrashWhileSaving? ==> h.phase.Polled? && h.phase.rd.entries != [] && CleanWrite(h, h.phase.rd.entries)
    requires a.CrashWhileSavingHard? ==> h.phase.Saved?
    ensures LoneHost(cfg, HostAfter(h, a))
  {
    hide Recovers;
    hide CleanWrite;
    hide HardAfter;
    hide FileAfter;
    hide Replay;
    match a
    case Crash(_) => LoneStops(cfg, h, h.disk);
    case CrashWhileSaving(_, kept) =>
      hide LoneHost;
      LoneCutWrite(cfg, h, kept);
    case CrashWhileSavingHard(_, kept) =>
      var hs := HardAfter(h.phase.rd, kept);
      LoneStops(cfg, h, h.disk.(term := hs.term, vote := hs.vote));
  }

  /** A crash that leaves the log file alone. */
  lemma {:induction false} LoneStops(cfg: Config, h: Host, disk: Disk)
    requires LoneHost(cfg, h) && disk.file == h.disk.file
    ensures LoneHost(cfg, Restarted(h, disk))
  {
    hide Recovers;
    LoneRestarts(cfg, h, disk, h.node.log.stored);
  }

  lemma {:induction false} LoneHostActs(cfg: Config, h: Host, a: Action)
    requires LoneHost(cfg, h) && (a.TimerFires? || a.PeerDown? || a.ClientProposes? || (a.Deliver? && a.m.typ == MsgPropose))
    ensures LoneHost(cfg, HostAfter(h, a))
  {
    hide LoneNode;
    hide OwnOnly;
    hide Timeout;
    hide Step;
    hide Propose;
    LoneNodeActs(cfg, h.node, a);
    hide Recovers;
    OwnKeepsHost(cfg, h, HostAfter(h, a).node);
  }

  // ----- runs -----

  lemma {:induction false} LoneStarts(cfg: Config, c: State)
    requires ValidConfig(cfg) && |cfg.voters| == 1 && Init(cfg, c)
    ensures LoneInv(cfg, c)
  {
    forall x | x in c.hosts ensures LoneHost(cfg, c.hosts[x]) {
      assert cfg.voters == [x];
      MirrorRecovers([DUMMY]);
      assert Records([DUMMY][1..]) == [] && Vector(c.hosts[x].node.log) == [DUMMY];
    }
  }

  lemma {:induction false} LoneKeepsId(h: Host, a: Action)
    ensures HostAfter(h, a).node.id == h.node.id
  {
  }

  lemma {:induction false} LoneSends(cfg: Config, h: Host, m: Message)
    requires LoneHost(cfg, h) && h.phase.Synced? && m in h.phase.rd.msgs
    ensures m.typ == MsgPropose
  {
  }

  lemma {:induction false} LoneActionKeeps(cfg: Config, c: State, a: Action)
    requires LoneInv(cfg, c) && Enabled(c, a) && Clean(c, a)
    ensures LoneInv(cfg, Perform(c, a))
  {
    hide HostAfter;
    hide CleanWrite;
    hide LoneHost;
    if !a.Send? && !a.ClientSends? {
      var h := c.hosts[a.x];
      assert LoneHost(cfg, h) && h.node.id == a.x;
      assert a.Deliver? ==> a.m.typ == MsgPropose;
      if a.Crash? || a.CrashWhileSaving? || a.CrashWhileSavingHard? {
        LoneCrashes(cfg, h, a);
      } else if a.Poll? || a.SaveEntries? || a.SaveHardState? || a.Finish? {
        LoneCycles(cfg, h, a);
      } else {
        LoneHostActs(cfg, h, a);
      }
      LoneKeepsId(h, a);
    } else if a.Send? {
      LoneSends(cfg, c.hosts[a.x], a.m);
    }
  }

  lemma {:induction false} LoneRun(cfg: Config, run: seq<State>, k: nat)
    requires ValidConfig(cfg) && |cfg.voters| == 1 && CleanRun(cfg, run) && k < |run|
    ensures LoneInv(cfg, run[k])
  {
    hide LoneInv;
    if k == 0 {
      LoneStarts(cfg, run[0]);
    } else {
      LoneRun(cfg, run, k - 1);
      assert CleanNext(run[k - 1], run[k - 1 + 1]);
      var a :| Enabled(run[k - 1], a) && Intact(run[k - 1], a) && Clean(run[k - 1], a) && run[k] == Perform(run[k - 1], a);
      LoneActionKeeps(cfg, run[k - 1], a);
    }
  }

  /** A lone voter never commits an entry, and hands none out. */
  lemma {:induction false} NothingIsCommitted(cfg: Config, run: seq<State>, i: nat, x: NodeId)
    requires ValidConfig(cfg) && |cfg.voters| == 1 && CleanRun(cfg, run) && i < |run| && x in run[i].hosts
    ensures var h := run[i].hosts[x];
            Valid(h.node.log) && h.node.log.committed == 0 && (!h.phase.Idle? ==> h.phase.rd.committed == [])
  {
    LoneRun(cfg, run, i);
    assert LoneHost(cfg, run[i].hosts[x]);
    hide Recovers;
  }
}
