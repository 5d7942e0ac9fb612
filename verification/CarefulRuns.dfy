/** Runs in which nodes keep what they claim to hold: the conditions, each of which a node could check,
    under which committed entries stay committed. */
module CarefulRuns {
  import opened Bytes
  import opened RaftTypes
  import opened LogSpec
  import opened WalSpec
  import opened NodeSpec
  import opened Cluster
  import opened Acceptance
  import opened Claims

  /** A message of a leader that reaches a node of an earlier term, or one that does not lead. */
  predicate FromLeader(n: Node, m: Message) {
    m.term > n.term || (m.term == n.term && n.role != Leader)
  }

  /** An accepted append conflicts above the commit index only.  If it does not conflict, the log itself
      reaches to its end, and its end does not cut the window below the commit index or below an index
      that a message still to be sent claims. */
  ghost predicate CarefulAppend(n: Node, m: Message) {
    TermAt(n.log, m.index) == m.logTerm ==>
      var k, last := ConflictPos(n.log, m.entries), m.index + |m.entries|;
      if k < |m.entries| then m.entries[k].index > n.log.committed
      else
        && last <= LastIndex(n.log)
        && (last < LastIndex(n.log) ==>
              && KeepsIndex(n.log, last, n.log.committed)
              && forall g :: g in n.msgs && IsClaim(g) ==> KeepsIndex(n.log, last, End(g)))
  }

  /** y leads `term` with term t at index i of its log. */
  ghost predicate LeaderHolds(c: State, y: NodeId, term: nat, i: nat, t: nat) {
    Leads(c, y, term) && i <= LastIndex(c.hosts[y].node.log) && TermAt(c.hosts[y].node.log, i) == t
  }

  /** A heartbeat finds, at the index that it commits, the term that the leader had there. */
  ghost predicate CarefulHeartbeat(run: seq<State>, n: Node, m: Message) {
    m.commit > n.log.committed ==>
      var i := Min(m.commit, LastIndex(n.log));
      i == 0 || exists j, y :: 0 <= j < |run| && LeaderHolds(run[j], y, m.term, i, TermAt(n.log, i))
  }

  /** A crash while the file is rewritten loses no entry that stays. */
  ghost predicate CarefulCrash(h: Host, kept: nat)
    requires h.phase.Polled? && h.phase.rd.entries != []
  {
    var first := h.phase.rd.entries[0].index;
    first >= 1 && kept >= |Records(h.node.log.stored[..Min(first - 1, |h.node.log.stored|)])|
  }

  ghost predicate Careful(run: seq<State>, a: Action)
    requires |run| >= 1 && Enabled(run[|run| - 1], a)
  {
    var c := run[|run| - 1];
    match a
    case Deliver(x, m) =>
      FromLeader(c.hosts[x].node, m) ==>
        && (m.typ == MsgApp ==> CarefulAppend(c.hosts[x].node, m))
        && (m.typ == MsgHeartbeat ==> CarefulHeartbeat(run, c.hosts[x].node, m))
    case CrashWhileSaving(x, kept) => CarefulCrash(c.hosts[x], kept)
    case _ => true
  }

  ghost predicate CarefulNext(run: seq<State>, k: nat)
    requires k + 1 < |run|
  {
    exists a :: Enabled(run[k], a) && Intact(run[k], a) && Clean(run[k], a) && Careful(run[..k + 1], a)
                && run[k + 1] == Perform(run[k], a)
  }

  /** A clean run in which nodes, besides, keep what they claim. */
  ghost predicate CarefulRun(cfg: Config, run: seq<State>) {
    && |run| >= 1
    && Init(cfg, run[0])
    && forall k: nat :: k + 1 < |run| ==> CarefulNext(run, k)
  }
}
