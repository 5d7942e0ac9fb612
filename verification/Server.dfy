/** One Ready cycle of the server: poll, write the entries, write the hard state, hand the messages
    to the network and the committed entries to the state machine, advance. */
module Server {
  import opened Bytes
  import opened RaftTypes
  import opened LogSpec
  import opened WalSpec
  import opened NodeSpec
  import opened Cluster
  import opened RawNode

  ghost function HostOf(node: RawNode): Host
    requires node.log.Valid()
    reads node, node.log, node.log.storage, node.log.unstable
  {
    var wal := node.log.storage;
    Host(node.View(), Disk(wal.hardState.term, wal.hardState.vote, wal.logFile), Idle)
  }

  /** The four local steps of a cycle, in their order. */
  ghost function Cycle(h: Host, x: NodeId): Host {
    HostAfter(HostAfter(HostAfter(HostAfter(h, Poll(x)), SaveEntries(x)), SaveHardState(x)), Finish(x))
  }

  /** What the four steps come to. */
  lemma {:induction false} CycleSteps(h: Host, x: NodeId)
    requires h.phase.Idle?
    ensures var rd := MakeReady(h.node);
            var written := AfterPoll(h.node).(log := Persist(h.node.log, rd.entries));
            var disk := h.disk.(file := FileAfter(h, rd.entries));
            Cycle(h, x) == Host(NodeSpec.Advance(written),
                                if WritesHard(rd) then disk.(term := rd.term, vote := rd.vote) else disk, Idle)
  {
    hide NodeSpec.Advance;
    hide Persist;
    hide NextCommitted;
    hide AppendedFile;
  }

  /** Storage and file take a batch as the write-ahead log's vector and file do; its dummy plays no part. */
  lemma {:induction false} BatchIsWritten(l: Log, file: seq<Byte>, entries: seq<Entry>, es: seq<Entry>)
    requires |entries| >= 1 && l.stored == entries[1..]
    ensures Persist(l, es).stored == AppendedEntries(entries, es)[1..]
    ensures AppendedFile(file, Vector(l), es) == AppendedFile(file, entries, es)
  {
    hide Records;
    if es != [] && es[0].index < |entries| {
      var k := es[0].index;
      if k == 0 {
        assert entries[..k] + es == es;
      } else {
        assert entries[1..][..k - 1] == entries[1..k];
        assert (entries[..k] + es)[1..] == entries[1..k] + es;
      }
      assert Vector(l)[1..Max(1, k)] == entries[1..Max(1, k)];
    } else if es != [] {
      assert (entries + es)[1..] == entries[1..] + es;
    }
  }

  /** Entries first, then the hard state. */
  method Save(node: RawNode, rd: Ready)
    requires node.Valid()
    modifies node.log.storage
    ensures node.Valid() && node.View() == old(node.View()).(log := Persist(old(node.View()).log, rd.entries))
    ensures node.log.storage.logFile == FileAfter(old(HostOf(node)), rd.entries)
    ensures node.log.storage.hardState == if WritesHard(rd) then HardState(rd.term, rd.vote, rd.commit)
                                          else old(node.log.storage.hardState)
  {
    var wal := node.log.storage;
    BatchIsWritten(node.View().log, wal.logFile, wal.entries, rd.entries);
    hide AppendedFile;
    hide AppendedEntries;
    if rd.entries != [] { wal.AppendNoSync(rd.entries); }
    if WritesHard(rd) { wal.SaveHardState(HardState(rd.term, rd.vote, rd.commit)); }
  }

  /** The loop of the server takes exactly the cluster's steps: nothing is sent or applied that was
      not in the Ready whose entries and hard state were written before. */
  method ProcessReady(node: RawNode) returns (sent: set<Message>, applied: seq<Entry>)
    requires node.Valid()
    modifies node, node.log, node.log.unstable, node.log.storage
    ensures node.Valid() && HostOf(node) == Cycle(old(HostOf(node)), node.id)
    ensures sent == MakeReady(old(node.View())).msgs && applied == NextCommitted(old(node.View()).log)
  {
    hide NextCommitted;
    hide Persist;
    hide NodeSpec.Advance;
    hide Cycle;
    hide AppendedFile;
    CycleSteps(HostOf(node), node.id);
    var rd := node.Poll();
    Save(node, rd);
    sent := rd.msgs;
    applied := rd.committed;
    node.Advance();
  }
}
