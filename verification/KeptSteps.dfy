/** Whatever a host does, the entries it claimed to hold are still where they have to be.  Here `p` is
    the first k entries of term t's log, which every later leader has. */
module KeptSteps {
  import opened RaftTypes
  import opened LogSpec
  import opened LogTheorems
  import opened WalSpec
  import opened NodeSpec
  import opened Cluster
  import opened Acceptance
  import opened AppendSteps
  import opened Claims
  import opened CarefulRuns
  import opened Replication
  import opened Commitment
  import opened FollowerSteps

  lemma {:induction false} ClaimedWhere(ms: set<Message>, ms': set<Message>, w: NodeId, t: nat, k: nat) returns (m: Message)
    requires ClaimedBy(ms', w, t, k) && !ClaimedBy(ms, w, t, k)
    ensures m in ms' && m !in ms && IsClaim(m) && m.from == w && m.term == t && End(m) >= k
  {
    m :| m in ms' && IsClaim(m) && m.from == w && m.term == t && End(m) >= k;
  }

  /** A log that still starts with everything, over the same storage. */
  ghost predicate Lengthens(l: Log, l': Log)
    requires Valid(l) && Valid(l')
  {
    l'.stored == l.stored && Logical(l) <= Logical(l') && (l'.window == [] || l'.offset > |l.stored| || (l.window != [] && l'.offset == l.offset))
  }

  lemma {:induction false} NodeKeepsClaims(net: set<Message>, x: NodeId, h: Host, n': Node, t: nat, k: nat, p: seq<Entry>)
    requires Valid(h.node.log) && Valid(n'.log) && Kept(net, x, h, t, k, p) && |p| == k && Lengthens(h.node.log, n'.log)
    requires forall m :: m in n'.msgs && m !in h.node.msgs && IsClaim(m) && m.from == x && m.term == t && End(m) >= k ==> p <= Logical(n'.log)
    ensures Kept(net, x, h.(node := n'), t, k, p)
  {
    hide Logical;
    hide Valid;
    if ClaimedBy(n'.msgs, x, t, k) && !ClaimedBy(h.node.msgs, x, t, k) {
      var m := ClaimedWhere(h.node.msgs, n'.msgs, x, t, k);
    }
    hide ClaimedBy;
    assert !h.phase.Idle? ==> Durable(h.(node := n')) == Durable(h);
  }

  // ----- a follower takes an append -----

  /** What is claimed by a message still to be sent is not cut off. */
  lemma {:induction false} ClaimGuards(n: Node, m: Message, w: NodeId, t: nat, k: nat)
    requires CarefulAppend(n, m) && ClaimedBy(n.msgs, w, t, k)
    ensures CarefulOf(n.log, m.index, m.logTerm, m.entries, k)
  {
    CarefulParts(n, m);
    hide ConflictPos;
    hide TermAt;
    hide CarefulAppend;
    var g :| g in n.msgs && IsClaim(g) && g.from == w && g.term == t && End(g) >= k;
    assert CarefulOf(n.log, m.index, m.logTerm, m.entries, End(g));
  }

  lemma {:induction false} StoredIsLogical(l: Log, k: nat, p: seq<Entry>)
    requires Valid(l) && p <= l.stored && |p| == k && WindowBeyond(l, k)
    ensures p <= Logical(l)
  {
  }

  /** The entries of the message's leader: kept, and there if they are promised anew. */
  lemma {:induction false} AppendKeepsLog(n: Node, leaderLog: seq<Entry>, m: Message, k: nat, w: NodeId, t: nat)
    requires Related(n.log, leaderLog, m.index, m.logTerm, m.entries) && CarefulAppend(n, m) && k <= |leaderLog|
    requires ClaimedBy(n.msgs, w, t, k) && leaderLog[..k] <= Logical(n.log)
    ensures var l' := MaybeAppend(n.log, m.index, m.logTerm, m.commit, m.entries).0; Valid(l') && leaderLog[..k] <= Logical(l')
  {
    ClaimGuards(n, m, w, t, k);
    CarefulParts(n, m);
    hide CarefulAppend;
    hide CarefulEnd;
    hide CarefulOf;
    assert AgreesThrough(n.log, leaderLog, k);
    hide Related;
    hide MaybeAppend;
    CarefulAgrees(n.log, leaderLog, m.index, m.logTerm, m.commit, m.entries, k);
  }

  lemma {:induction false} AppendKeepsStored(n: Node, leaderLog: seq<Entry>, m: Message, k: nat)
    requires Related(n.log, leaderLog, m.index, m.logTerm, m.entries) && k <= |leaderLog|
    requires leaderLog[..k] <= n.log.stored && WindowBeyond(n.log, k)
    ensures var l' := MaybeAppend(n.log, m.index, m.logTerm, m.commit, m.entries).0;
            l'.stored == n.log.stored && WindowBeyond(l', k)
  {
    StoredIsLogical(n.log, k, leaderLog[..k]);
    hide MaybeAppend;
    hide LogsMatch;
    WindowStaysBeyond(n.log, leaderLog, m.index, m.logTerm, m.commit, m.entries, k);
  }

  lemma {:induction false} AppendPromises(n: Node, leaderLog: seq<Entry>, m: Message, k: nat)
    requires Related(n.log, leaderLog, m.index, m.logTerm, m.entries) && CarefulAppend(n, m)
    requires k <= m.index + |m.entries|
    ensures var (l', ok) := MaybeAppend(n.log, m.index, m.logTerm, m.commit, m.entries);
            Valid(l') && (ok ==> k <= |leaderLog| && leaderLog[..k] <= Logical(l'))
  {
    CarefulParts(n, m);
    hide CarefulAppend;
    hide CarefulEnd;
    hide MaybeAppend;
    AcceptedAgrees(n.log, leaderLog, m.index, m.logTerm, m.commit, m.entries);
    var (l', ok) := MaybeAppend(n.log, m.index, m.logTerm, m.commit, m.entries);
    if ok { AgreesLess(l', leaderLog, m.index + |m.entries|, k); }
  }

  /** n, a follower of term m.term, takes m. */
  lemma {:induction false} TakingKeepsClaims(net: set<Message>, x: NodeId, h: Host, n: Node, leaderLog: seq<Entry>, m: Message, t: nat, k: nat)
    requires Valid(h.node.log) && h.phase.Idle? && n.log == h.node.log && n.msgs == h.node.msgs && n.id == x && n.term == m.term
    requires m.typ == MsgApp && Related(n.log, leaderLog, m.index, m.logTerm, m.entries) && CarefulAppend(n, m)
    requires k <= |leaderLog| && Kept(net, x, h, t, k, leaderLog[..k])
    ensures var n' := StepFollower(n, m); Valid(n'.log) && Kept(net, x, h.(node := n'), t, k, leaderLog[..k])
  {
    var n' := StepFollower(n, m);
    var p := leaderLog[..k];
    AppendPromises(n, leaderLog, m, 0);
    if ClaimedBy(n'.msgs, x, t, k) {
      if ClaimedBy(n.msgs, x, t, k) {
        AppendKeepsLog(n, leaderLog, m, k, x, t);
      } else {
        var r := ClaimedWhere(n.msgs, n'.msgs, x, t, k);
        assert r == AppendReply(n, m);
        AppendPromises(n, leaderLog, m, k);
      }
    }
    if ClaimedBy(net, x, t, k) { AppendKeepsStored(n, leaderLog, m, k); }
    hide MaybeAppend;
    hide Related;
    hide CarefulAppend;
    hide ClaimedBy;
    hide Logical;
  }

  // ----- the Ready cycle -----

  lemma {:induction false} WindowBecomesDurable(l: Log)
    requires Valid(l)
    ensures Persist(l, l.window).stored == Logical(l)
  {
    PersistWritesThrough(l, l.window);
  }

  lemma {:induction false} PollKeepsClaims(net: set<Message>, x: NodeId, h: Host, t: nat, k: nat, p: seq<Entry>)
    requires Valid(h.node.log) && h.phase.Idle? && Kept(net, x, h, t, k, p)
    ensures Kept(net, x, HostAfter(h, Poll(x)), t, k, p)
  {
    WindowBecomesDurable(h.node.log);
    hide Persist;
    hide NextCommitted;
    hide Logical;
  }

  lemma {:induction false} PersistKeepsFront(l: Log, es: seq<Entry>, k: nat, p: seq<Entry>)
    requires Valid(l) && es <= l.window && p <= l.stored && |p| == k && WindowBeyond(l, k)
    ensures p <= Persist(l, es).stored
  {
    if es != [] { assert es[0] == l.window[0] && es[0].index == l.offset; }
  }

  lemma {:induction false} SaveEntriesKeepsClaims(net: set<Message>, x: NodeId, h: Host, t: nat, k: nat, p: seq<Entry>)
    requires Valid(h.node.log) && h.phase.Polled? && h.phase.rd.entries <= h.node.log.window && Kept(net, x, h, t, k, p) && |p| == k
    ensures var h' := HostAfter(h, SaveEntries(x)); Valid(h'.node.log) && Kept(net, x, h', t, k, p)
  {
    SavedHost(h, x);
    PersistWritesThrough(h.node.log, h.phase.rd.entries);
    if ClaimedBy(net, x, t, k) { PersistKeepsFront(h.node.log, h.phase.rd.entries, k, p); }
    hide ClaimedBy;
    hide HostAfter;
    hide Persist;
    hide FileAfter;
    hide Logical;
  }

  lemma {:induction false} SaveHardStateKeepsClaims(net: set<Message>, x: NodeId, h: Host, t: nat, k: nat, p: seq<Entry>)
    requires Valid(h.node.log) && h.phase.Saved? && Kept(net, x, h, t, k, p)
    ensures Kept(net, x, HostAfter(h, SaveHardState(x)), t, k, p)
  {
    hide ClaimedBy;
    hide Logical;
  }

  /** A message of the polled batch leaves: what it claims is in storage. */
  lemma {:induction false} SendKeepsClaims(net: set<Message>, x: NodeId, h: Host, m: Message, t: nat, k: nat, p: seq<Entry>)
    requires Valid(h.node.log) && h.phase.Synced? && m in h.phase.rd.msgs && Kept(net, x, h, t, k, p)
    ensures Kept(net + {m}, x, h, t, k, p)
  {
    if ClaimedBy(net + {m}, x, t, k) && !ClaimedBy(net, x, t, k) {
      var g := ClaimedWhere(net, net + {m}, x, t, k);
      assert ClaimedBy(h.phase.rd.msgs, x, t, k);
    }
    hide ClaimedBy;
  }

  lemma {:induction false} AdvanceMovesWindow(n: Node, es: seq<Entry>, k: nat)
    requires Valid(n.log) && WrittenThrough(n.log, es) && n.readyLast == LastOf(es) && k <= |n.log.stored|
    requires es != [] || WindowBeyond(n.log, k)
    ensures WindowBeyond(Advance(n).log, k)
  {
    if es != [] {
      StableDrops(n.log, es);
      hide StableTo;
    }
  }

  lemma {:induction false} FinishKeepsClaims(net: set<Message>, x: NodeId, h: Host, t: nat, k: nat, p: seq<Entry>)
    requires Valid(h.node.log) && h.phase.Synced? && Kept(net, x, h, t, k, p) && |p| == k
    requires h.node.readyLast == LastOf(h.phase.rd.entries) && WrittenThrough(h.node.log, h.phase.rd.entries)
    ensures var h' := HostAfter(h, Finish(x)); Valid(h'.node.log) && Kept(net, x, h', t, k, p)
  {
    AdvanceKeepsLogical(h.node, h.phase.rd.entries);
    if ClaimedBy(net, x, t, k) { AdvanceMovesWindow(h.node, h.phase.rd.entries, k); }
    hide Advance;
    hide ClaimedBy;
    hide Logical;
    hide WrittenThrough;
  }

  /** A restart keeps what storage keeps. */
  lemma {:induction false} RestartKeepsClaims(net: set<Message>, x: NodeId, h: Host, disk: Disk, t: nat, k: nat, p: seq<Entry>)
    requires Valid(h.node.log) && Kept(net, x, h, t, k, p)
    requires var h' := Restarted(h, disk); Valid(h'.node.log) && (ClaimedBy(net, x, t, k) ==> p <= h'.node.log.stored)
    ensures Kept(net, x, Restarted(h, disk), t, k, p)
  {
    hide Replay;
    hide Logical;
    assert !ClaimedBy({}, x, t, k);
  }
}
