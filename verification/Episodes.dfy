/** Pieces that the constructed runs have in common: a whole Ready cycle that writes the window and
    sends one message, and a leader of three that commits its log with the last acknowledgement. */
module Episodes {
  import opened Bytes
  import opened RaftTypes
  import opened LogSpec
  import opened LogTheorems
  import opened WalSpec
  import opened ProgressSpec
  import opened NodeSpec
  import opened QuorumCommit
  import opened Cluster
  import opened CarefulRuns
  import opened Replication
  import opened Schedules
  import opened FirstEntry

  // ----- a cycle that writes -----

  /** Idle, with a window right behind storage, nothing committed, and a log file without leftovers. */
  ghost predicate Settled(h: Host) {
    && h.phase.Idle? && Valid(h.node.log) && h.node.log.offset == |h.node.log.stored| + 1
    && h.node.log.committed == 0 && h.node.log.applied == 0 && h.node.readyLast == 0 && h.node.readyApplied == 0
    && h.node.term >= 1
    && Recovers(h.disk.file, Vector(h.node.log)) && Unread(h.disk.file) == []
  }

  /** The log with its window in storage. */
  function AllStored(l: Log): Log
    requires l.window != [] ==> 1 <= l.offset <= |l.stored| + 1
  {
    Log(Logical(l), |Logical(l)| + 1, [], l.committed, l.applied)
  }

  lemma {:induction false} NoRecordsYet(file: seq<Byte>)
    requires file == []
    ensures Recovers(file, [DUMMY]) && Unread(file) == []
  {
    MirrorRecovers([DUMMY]);
    NothingToRead();
    assert Records([DUMMY][1..]) == [];
  }

  lemma {:induction false} WindowIsStored(l: Log)
    requires Valid(l) && l.window != [] && l.offset == |l.stored| + 1
    ensures Persist(l, l.window) == l.(stored := Logical(l)) && LastOf(l.window) == |Logical(l)|
    ensures StableTo(Persist(l, l.window), |Logical(l)|) == AllStored(l)
  {
    assert l.stored[..l.offset - 1] == l.stored;
  }

  /** The host after a whole cycle. */
  ghost function Cycled(x: NodeId, h: Host): Host { HostAfter(Synchronised(x, h), Finish(x)) }

  lemma {:induction false} SynchronisedHost(x: NodeId, h: Host)
    requires h.phase.Idle? && h.node.term >= 1
    ensures var w := h.node.log.window;
            Synchronised(x, h) == Host(AfterPoll(h.node).(log := Persist(h.node.log, w)),
                                       Disk(h.node.term, h.node.vote, FileAfter(h, w)), Synced(MakeReady(h.node)))
  {
    hide Persist;
    hide AppendedFile;
    hide NextCommitted;
  }

  lemma {:induction false} CycleStores(x: NodeId, h: Host)
    requires Settled(h) && h.node.log.window != []
    ensures var s := Synchronised(x, h);
            && s.phase.Synced? && s.phase.rd.msgs == h.node.msgs
            && Cycled(x, h) == Host(h.node.(log := AllStored(h.node.log), msgs := {}),
                                    Disk(h.node.term, h.node.vote, FileAfter(h, h.node.log.window)), Idle)
  {
    hide Synchronised;
    hide Persist;
    hide StableTo;
    hide FileAfter;
    hide Recovers;
    hide Unread;
    hide Logical;
    SynchronisedHost(x, h);
    WindowIsStored(h.node.log);
  }

  lemma {:induction false} CycleIsClean(x: NodeId, h: Host)
    requires Settled(h) && h.node.log.window != [] && (forall i :: 0 <= i < |h.node.log.window| ==> Fits(h.node.log.window[i]))
    ensures CleanWrite(h, h.node.log.window) && Settled(Cycled(x, h))
  {
    hide Synchronised;
    var l := h.node.log;
    CycleStores(x, h);
    hide HostAfter;
    VectorAppends(l, l.window);
    CleanAppendRecovers(h.disk.file, Vector(l), l.window);
    WindowIsStored(l);
    LogicalNumbered(l);
    assert Vector(Persist(l, l.window)) == Vector(AllStored(l));
    hide Recovers;
    hide Unread;
    hide Persist;
  }

  /** A whole cycle: the window is written and one message leaves. */
  lemma {:induction false} WritesAndSends(cfg: Config, c: State, x: NodeId, m: Message, care: Care)
    requires Reached(cfg, c, care) && x in c.hosts && Settled(c.hosts[x]) && c.hosts[x].node.log.window != [] && m in c.hosts[x].node.msgs
    requires forall i :: 0 <= i < |c.hosts[x].node.log.window| ==> Fits(c.hosts[x].node.log.window[i])
    ensures Reached(cfg, State(c.hosts[x := Cycled(x, c.hosts[x])], c.net + {m}), care) && Settled(Cycled(x, c.hosts[x]))
  {
    hide Reached;
    hide Synchronised;
    hide HostAfter;
    hide CleanWrite;
    hide Valid;
    hide Recovers;
    hide Unread;
    hide AllStored;
    hide FileAfter;
    var h := c.hosts[x];
    CycleIsClean(x, h);
    CycleStores(x, h);
    assert h.phase.Idle?;
    hide Settled;
    SendsOne(cfg, c, x, m, care);
    var c1 := State(c.hosts[x := Synchronised(x, h)], c.net + {m});
    Then(cfg, c1, Finish(x), care);
    assert c1.hosts[x := Cycled(x, h)] == c.hosts[x := Cycled(x, h)];
  }

  lemma {:induction false} StillSettled(h: Host, h': Host)
    requires Settled(h) && h'.disk == h.disk && h'.phase.Idle? && Valid(h'.node.log) && h'.node.log.stored == h.node.log.stored
    requires h'.node.log.offset == |h'.node.log.stored| + 1 && h'.node.log.committed == 0 && h'.node.log.applied == 0
    requires h'.node.readyLast == 0 && h'.node.readyApplied == 0 && h'.node.term >= 1
    ensures Settled(h')
  {
    hide Recovers;
    hide Unread;
  }

  /** A follower that took entries into its empty log. */
  ghost predicate Took(cfg: Config, y: NodeId, x: NodeId, t: nat, es: seq<Entry>, h: Host) {
    var f := Following(cfg, y, x, t, []);
    h == f.(node := f.node.(log := Log([], 1, es, 0, 0), msgs := h.node.msgs))
  }

  lemma {:induction false} TookIsSettled(cfg: Config, y: NodeId, x: NodeId, t: nat, es: seq<Entry>, h: Host)
    requires Took(cfg, y, x, t, es, h) && Numbered(es, 1) && t >= 1
    ensures Settled(h)
  {
    NoRecordsYet(h.disk.file);
    assert Vector(h.node.log) == [DUMMY];
  }

  // ----- a leader of three commits -----

  /** v acknowledges index i. */
  function Ack(v: NodeId, x: NodeId, t: nat, i: nat): Message { Message(MsgAppResp, x, v, t, index := i) }

  lemma {:induction false} QuorumHolds(held: map<NodeId, nat>, x: NodeId, v: NodeId, z: NodeId, k: nat)
    requires held.Keys == {x, v, z} && x != v && v != z && x != z && held[x] == held[v] == k && held[z] == 0 && k >= 1
    ensures QuorumIndex(held, 2) == k
  {
    assert Holders(held, k) == {x, v} && Holders(held, k + 1) == {};
    assert IsQuorumIndex(held, k, 2);
    QuorumIndexUnique(held, k, QuorumIndex(held, 2), 2);
  }

  /** The acknowledgement counted, before anything is sent or committed. */
  function Counted(n: Node, v: NodeId, i: nat): Node
    requires v in n.pr
  {
    var p := Update(n.pr[v], i);
    n.(pr := n.pr[v := if p.state == Probe then BecomeReplicate(p) else p])
  }

  /** Leader of three whose other two have acknowledged nothing. */
  ghost predicate LeadsThree(n: Node, v: NodeId, z: NodeId) {
    && n.role == Leader && Quorum(n.cfg) == 2 && n.pr.Keys == {n.id, v, z} && n.id != v && v != z && n.id != z
    && n.pr[v].matchIndex == 0 && n.pr[z].matchIndex == 0
  }

  /** Leader x of term t, with nothing acknowledged by v and z. */
  ghost predicate Leading(cfg: Config, x: NodeId, v: NodeId, z: NodeId, t: nat, log: Log, h: Host) {
    && h.phase.Idle? && h.node.id == x && h.node.cfg == cfg && h.node.term == t && h.node.log == log
    && h.node.readyLast == 0 && h.node.readyApplied == 0 && LeadsThree(h.node, v, z)
  }

  lemma {:induction false} AckCommits(n: Node, v: NodeId, z: NodeId)
    requires LeadsThree(n, v, z) && LastIndex(n.log) >= 1 && n.log.committed == 0 && LastTerm(n.log) == n.term
    ensures var n1, k := Counted(n, v, LastIndex(n.log)), LastIndex(n.log);
            Commits(n1) && MaybeCommit(n1).log == n.log.(committed := k)
  {
    var n1, k := Counted(n, v, LastIndex(n.log)), LastIndex(n.log);
    QuorumHolds(Matches(n1), n.id, v, z, k);
  }

  /** Committing changes the commit index; sending, progress and messages. */
  lemma {:induction false} AcceptedIs(n: Node, m: Message)
    requires m.from in n.pr && Commits(Counted(n, m.from, m.index))
    ensures var n' := AppendAccepted(n, m);
            n' == n.(log := MaybeCommit(Counted(n, m.from, m.index)).log, pr := n'.pr, msgs := n'.msgs) && n'.pr.Keys == n.pr.Keys
  {
    hide Commits;
    hide Update;
    hide Sends;
    hide AfterSend;
    hide NodeSpec.Batch;
  }

  lemma {:induction false} AckIsCounted(n: Node, m: Message)
    requires n.role == Leader && m.typ == MsgAppResp && !m.reject && m.term == n.term && m.from in n.pr
    ensures Step(n, m) == AppendAccepted(n, m)
  {
    hide AppendAccepted;
  }

  /** The acknowledgement of its last entry commits a leader's log. */
  lemma {:induction false} LeaderCommits(n: Node, v: NodeId, z: NodeId)
    requires LeadsThree(n, v, z) && LastIndex(n.log) >= 1 && n.log.committed == 0 && LastTerm(n.log) == n.term
    ensures var n' := Step(n, Ack(v, n.id, n.term, LastIndex(n.log)));
            n' == n.(log := n.log.(committed := LastIndex(n.log)), pr := n'.pr, msgs := n'.msgs) && n'.pr.Keys == n.pr.Keys
  {
    var m := Ack(v, n.id, n.term, LastIndex(n.log));
    AckCommits(n, v, z);
    AcceptedIs(n, m);
    AckIsCounted(n, m);
    hide AppendAccepted;
    hide Step;
    hide MaybeCommit;
    hide Commits;
    hide Counted;
  }

  // ----- everything is handed out -----

  lemma {:induction false} AllIsApplied(es: seq<Entry>)
    requires es != []
    ensures NextCommitted(Log(es, |es| + 1, [], |es|, 0)) == es
  {
    var l := Log(es, |es| + 1, [], |es|, 0);
    assert StoragePart(l, 1, |es| + 1, NO_LIMIT) == es && WindowPart(l, 1, |es| + 1) == [];
    assert es + [] == es;
  }

  /** The leader takes the acknowledgement of its whole log and hands it out. */
  lemma {:induction false} CommitsAll(cfg: Config, x: NodeId, v: NodeId, z: NodeId, t: nat, es: seq<Entry>, h: Host)
    requires Leading(cfg, x, v, z, t, Log(es, |es| + 1, [], 0, 0), h) && es != [] && es[|es| - 1].term == t
    ensures var h1 := HostAfter(h, Deliver(x, Ack(v, x, t, |es|)));
            && h1.phase.Idle? && h1.node == h.node.(log := Log(es, |es| + 1, [], |es|, 0), pr := h1.node.pr, msgs := h1.node.msgs)
            && h1.node.pr.Keys == h.node.pr.Keys
            && HostAfter(h1, Poll(x)).phase.Polled? && HostAfter(h1, Poll(x)).phase.rd.committed == es
  {
    hide Step;
    hide NextCommitted;
    hide LeadsThree;
    LeaderCommits(h.node, v, z);
    AllIsApplied(es);
    PollHandsOut(x, HostAfter(h, Deliver(x, Ack(v, x, t, |es|))), es);
  }

  lemma {:induction false} PollHandsOut(x: NodeId, h: Host, es: seq<Entry>)
    requires NextCommitted(h.node.log) == es
    ensures HostAfter(h, Poll(x)).phase.Polled? && HostAfter(h, Poll(x)).phase.rd.committed == es
  {
    hide NextCommitted;
  }

  /** A leader that took its first proposal. */
  lemma {:induction false} FirstIsSettled(cfg: Config, x: NodeId, v: NodeId, z: NodeId, t: nat, b: Byte, h: Host)
    requires Quorum(cfg) == 2 && Elements(cfg.voters) == {x, v, z} && x != v && v != z && x != z && 1 <= t < U64
    requires LeadsFirst(cfg, x, v, t, b, h) && h.disk.file == []
    ensures Leading(cfg, x, v, z, t, Log([], 1, [First(t, b)], 0, 0), h) && Settled(h) && Fits(First(t, b))
  {
    NoRecordsYet(h.disk.file);
    assert Vector(h.node.log) == [DUMMY];
  }

  // ----- the first entry is stored, replicated and committed -----

  /** Follower y of x with the first entry in storage. */
  ghost predicate HoldsFirst(cfg: Config, y: NodeId, x: NodeId, t: nat, b: Byte, h: Host) {
    && Settled(h)
    && h.node == Node(y, cfg, t, x, Follower, x, [], Log([First(t, b)], 2, [], 0, 0), map[], {}, 0, 0)
  }

  lemma {:induction false} TookAndStored(cfg: Config, y: NodeId, x: NodeId, t: nat, b: Byte, h: Host)
    requires Took(cfg, y, x, t, [First(t, b)], h) && Settled(h) && Settled(Cycled(y, h))
    ensures HoldsFirst(cfg, y, x, t, b, Cycled(y, h))
  {
    CycleStores(y, h);
    hide Cycled;
    assert [] + [First(t, b)] == [First(t, b)];
    hide Recovers;
    hide Unread;
    hide Valid;
    hide FileAfter;
  }

  lemma {:induction false} FollowerAcks(cfg: Config, y: NodeId, x: NodeId, t: nat, b: Byte)
    requires t >= 1
    ensures var h, m := Following(cfg, y, x, t, []), Carry(x, y, t, b);
            && Took(cfg, y, x, t, [First(t, b)], HostAfter(h, Deliver(y, m)))
            && Ack(y, x, t, 1) in HostAfter(h, Deliver(y, m)).node.msgs
            && CarefulAppend(h.node, m)
  {
    var e := First(t, b);
    assert ConflictPos(EMPTY, [e]) == 0 && [e][0..] == [e];
    assert AppendReply(Following(cfg, y, x, t, []).node, Carry(x, y, t, b)) == Ack(y, x, t, 1);
  }

  /** The leader writes the entry and sends it. */
  lemma {:induction false} FirstIsSent(cfg: Config, c: State, x: NodeId, y: NodeId, z: NodeId, t: nat, b: Byte, care: Care) returns (h: Host)
    requires Reached(cfg, c, care) && x in c.hosts && Settled(c.hosts[x]) && t < U64
    requires Leading(cfg, x, y, z, t, Log([], 1, [First(t, b)], 0, 0), c.hosts[x]) && Carry(x, y, t, b) in c.hosts[x].node.msgs
    ensures Reached(cfg, State(c.hosts[x := h], c.net + {Carry(x, y, t, b)}), care)
    ensures Leading(cfg, x, y, z, t, Log([First(t, b)], 2, [], 0, 0), h) && Settled(h) && h.node.pr == c.hosts[x].node.pr
  {
    hide Reached;
    hide Settled;
    hide Cycled;
    hide FileAfter;
    WritesAndSends(cfg, c, x, Carry(x, y, t, b), care);
    CycleStores(x, c.hosts[x]);
    assert [] + [First(t, b)] == [First(t, b)];
    h := Cycled(x, c.hosts[x]);
  }

  /** The follower takes it. */
  lemma {:induction false} FirstIsTaken(cfg: Config, c: State, y: NodeId, x: NodeId, t: nat, b: Byte, care: Care) returns (h: Host)
    requires Reached(cfg, c, care) && y in c.hosts && c.hosts[y] == Following(cfg, y, x, t, []) && Carry(x, y, t, b) in c.net && t >= 1
    ensures Reached(cfg, c.(hosts := c.hosts[y := h]), care)
    ensures Took(cfg, y, x, t, [First(t, b)], h) && Ack(y, x, t, 1) in h.node.msgs
  {
    hide HostAfter;
    hide Reached;
    hide CarefulAppend;
    hide Took;
    hide First;
    FollowerAcks(cfg, y, x, t, b);
    var h0, m := c.hosts[y], Carry(x, y, t, b);
    assert h0.phase.Idle? && m.typ == MsgApp && m.to == y;
    hide Following;
    hide Carry;
    Unchanged(c, y);
    Acts(cfg, c, y, h0, Deliver(y, m), care);
    h := HostAfter(h0, Deliver(y, m));
  }

  /** It stores and acknowledges it. */
  lemma {:induction false} FirstIsAcknowledged(cfg: Config, c: State, y: NodeId, x: NodeId, t: nat, b: Byte, care: Care) returns (h: Host)
    requires Reached(cfg, c, care) && y in c.hosts && c.hosts[y] == Following(cfg, y, x, t, []) && Carry(x, y, t, b) in c.net && 1 <= t < U64
    ensures Reached(cfg, State(c.hosts[y := h], c.net + {Ack(y, x, t, 1)}), care) && HoldsFirst(cfg, y, x, t, b, h)
  {
    hide Reached;
    hide Following;
    hide Carry;
    var h1 := FirstIsTaken(cfg, c, y, x, t, b, care);
    assert h1.node.log.window == [First(t, b)] && Fits(First(t, b));
    TookIsSettled(cfg, y, x, t, [First(t, b)], h1);
    hide Took;
    hide Settled;
    hide Cycled;
    hide First;
    hide HoldsFirst;
    var c1 := c.(hosts := c.hosts[y := h1]);
    WritesAndSends(cfg, c1, y, Ack(y, x, t, 1), care);
    h := Cycled(y, h1);
    TookAndStored(cfg, y, x, t, b, h1);
    assert c1.hosts[y := h] == c.hosts[y := h];
  }

  /** Leader x with its entry committed. */
  ghost predicate CommittedFirst(cfg: Config, x: NodeId, t: nat, b: Byte, h: Host) {
    && h.phase.Idle? && h.node.role == Leader && h.node.id == x && h.node.cfg == cfg && h.node.term == t
    && h.node.log == Log([First(t, b)], 2, [], 1, 0)
  }

  lemma {:induction false} CommitsFirst(cfg: Config, x: NodeId, y: NodeId, z: NodeId, t: nat, b: Byte, h: Host)
    requires Leading(cfg, x, y, z, t, Log([First(t, b)], 2, [], 0, 0), h)
    ensures var h' := HostAfter(h, Deliver(x, Ack(y, x, t, 1))); CommittedFirst(cfg, x, t, b, h') && h'.node.pr.Keys == h.node.pr.Keys
  {
    hide HostAfter;
    CommitsAll(cfg, x, y, z, t, [First(t, b)], h);
  }

  /** Sent, taken, acknowledged and committed. */
  lemma {:induction false} FirstIsCommitted(cfg: Config, c: State, x: NodeId, y: NodeId, z: NodeId, t: nat, b: Byte, care: Care) returns (c': State)
    requires Reached(cfg, c, care) && x in c.hosts && y in c.hosts && x != y && Settled(c.hosts[x]) && 1 <= t < U64
    requires Leading(cfg, x, y, z, t, Log([], 1, [First(t, b)], 0, 0), c.hosts[x]) && Carry(x, y, t, b) in c.hosts[x].node.msgs
    requires c.hosts[y] == Following(cfg, y, x, t, [])
    ensures Reached(cfg, c', care) && c'.hosts.Keys == c.hosts.Keys && c.net <= c'.net
    ensures forall w :: w in c.hosts && w != x && w != y ==> c'.hosts[w] == c.hosts[w]
    ensures CommittedFirst(cfg, x, t, b, c'.hosts[x]) && c'.hosts[x].node.pr.Keys == {x, y, z}
    ensures HoldsFirst(cfg, y, x, t, b, c'.hosts[y])
  {
    hide HostAfter;
    hide Reached;
    hide Following;
    hide Settled;
    hide CommittedFirst;
    hide HoldsFirst;
    hide First;
    hide Carry;
    var h := FirstIsSent(cfg, c, x, y, z, t, b, care);
    CommitsFirst(cfg, x, y, z, t, b, h);
    assert h.phase.Idle?;
    var c1 := State(c.hosts[x := h], c.net + {Carry(x, y, t, b)});
    var v := FirstIsAcknowledged(cfg, c1, y, x, t, b, care);
    var c2 := State(c1.hosts[y := v], c1.net + {Ack(y, x, t, 1)});
    Unchanged(c2, x);
    Acts(cfg, c2, x, h, Deliver(x, Ack(y, x, t, 1)), care);
    c' := c2.(hosts := c2.hosts[x := HostAfter(h, Deliver(x, Ack(y, x, t, 1)))]);
  }

  // ----- the heartbeat that tells of it -----

  /** The heartbeat of leader x of term t to y, once its entry is committed. */
  function Beat(x: NodeId, y: NodeId, t: nat): Message { Message(MsgHeartbeat, y, x, t, commit := 1) }

  lemma {:induction false} LeaderBeats(n: Node, y: NodeId)
    requires n.role == Leader && n.log.committed == 1 && y in n.pr && y != n.id
    ensures var n' := Timeout(n); n' == n.(msgs := n'.msgs) && Beat(n.id, y, n.term) in n'.msgs
  {
    assert HeartbeatTo(n, y) == Beat(n.id, y, n.term);
  }

  /** The leader, in the middle of a cycle, hands its entry out. */
  ghost predicate HandsOutFirst(x: NodeId, t: nat, b: Byte, h: Host) {
    && h.phase.Synced? && h.phase.rd.committed == [First(t, b)]
    && h.node.role == Leader && h.node.term == t && h.node.log == Log([First(t, b)], 2, [], 1, 0)
  }

  lemma {:induction false} BeatApplies(cfg: Config, x: NodeId, y: NodeId, t: nat, b: Byte, h: Host)
    requires CommittedFirst(cfg, x, t, b, h) && y in h.node.pr && x != y && t >= 1
    ensures var h1 := HostAfter(h, TimerFires(x));
            h1.phase.Idle? && Beat(x, y, t) in h1.node.msgs && h1.node.log.window == [] && HandsOutFirst(x, t, b, Synchronised(x, h1))
  {
    hide Synchronised;
    hide NextCommitted;
    hide FileAfter;
    LeaderBeats(h.node, y);
    hide Timeout;
    AllIsApplied([First(t, b)]);
    SynchronisedHost(x, HostAfter(h, TimerFires(x)));
  }

  /** It sends the heartbeat in that cycle. */
  lemma {:induction false} BeatIsSent(cfg: Config, c: State, x: NodeId, y: NodeId, t: nat, b: Byte, care: Care) returns (h: Host)
    requires Reached(cfg, c, care) && x in c.hosts && CommittedFirst(cfg, x, t, b, c.hosts[x]) && y in c.hosts[x].node.pr && x != y && t >= 1
    ensures Reached(cfg, State(c.hosts[x := h], c.net + {Beat(x, y, t)}), care) && HandsOutFirst(x, t, b, h)
  {
    hide Synchronised;
    var h0 := c.hosts[x];
    BeatApplies(cfg, x, y, t, b, h0);
    assert h0.phase.Idle?;
    hide HostAfter;
    hide Reached;
    hide CommittedFirst;
    hide HandsOutFirst;
    hide First;
    var h1 := HostAfter(h0, TimerFires(x));
    assert CleanWrite(h1, []);
    hide CleanWrite;
    Unchanged(c, x);
    Acts(cfg, c, x, h0, TimerFires(x), care);
    var c1 := c.(hosts := c.hosts[x := h1]);
    SendsOne(cfg, c1, x, Beat(x, y, t), care);
    h := Synchronised(x, h1);
    assert c1.hosts[x := h] == c.hosts[x := h];
  }
}
