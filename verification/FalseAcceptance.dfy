/** Where an acceptance is false: two appends of one leader overtake each other, and the shorter one cuts
    the follower's window below the index that a pending reply accepts.  The leader commits what the
    follower no longer has, and the follower, elected later, commits another entry there. */
module FalseAcceptance {
  import opened Bytes
  import opened RaftTypes
  import opened LogSpec
  import opened WalSpec
  import opened ProgressSpec
  import opened NodeSpec
  import opened Cluster
  import opened Votes
  import opened Schedules
  import opened FirstEntry
  import opened Episodes

  /** Room for two small entries in a message, and for two messages on their way. */
  ghost predicate Roomy(cfg: Config) { cfg.voters == [1, 2, 3] && cfg.maxInflight >= 2 && cfg.maxSize >= 98 }

  function Second(b: Byte): Entry { Entry(1, 2, 0, [b]) }

  /** The entry of its own with which node 2 takes office. */
  const OWN := Entry(2, 2, 0, [])

  // ----- leader 1 and its two appends -----

  /** The append with both entries. */
  function Long(b: Byte, b': Byte): Message { Message(MsgApp, 2, 1, 1, entries := [First(1, b), Second(b')]) }

  lemma {:induction false} BothFit(e: Entry, e': Entry, maxSize: nat)
    requires |e.data| <= 1 && |e'.data| <= 1 && maxSize >= 98
    ensures Bounded([e, e'], maxSize) == [e, e'] && StorageTake([e, e'], maxSize) == [e, e'] && Cut([e, e'], maxSize) == [e, e']
    ensures StorageTake([e], maxSize) == [e]
  {
    assert [e, e'][1..] == [e'] && [e'][1..] == [];
    assert Fit([e'], Cost(e), maxSize) == 1 + Fit([], Cost(e) + Cost(e'), maxSize) == 1;
    assert [e, e'][..2] == [e, e'];
  }

  lemma {:induction false} LongBatch(n: Node, p: Progress, b: Byte, b': Byte)
    requires n.log == Log([First(1, b)], 2, [Second(b')], 0, 0) && n.cfg.maxSize >= 98
    requires p == Progress(0, 1, Replicate, false, [1], n.cfg.maxInflight) && n.cfg.maxInflight >= 2
    ensures Sends(n, p) && NodeSpec.Batch(n, p) == [First(1, b), Second(b')]
  {
    var e, e' := First(1, b), Second(b');
    BothFit(e, e', n.cfg.maxSize);
    assert StoragePart(n.log, 1, 3, n.cfg.maxSize) == [e] by { assert [e][0..1] == [e]; }
    assert WindowPart(n.log, 1, 3) == [e'] by { assert [e'][0..1] == [e']; }
    assert [e] + [e'] == [e, e'];
    assert Slice(n.log, 1, 3, n.cfg.maxSize) == Some([e, e']);
  }

  lemma {:induction false} OwnSecond(cfg: Config, b: Byte, b': Byte, h: Host)
    requires Leading(cfg, 1, 2, 3, 1, Log([First(1, b)], 2, [], 0, 0), h)
    ensures var n := AppendOwn(h.node, [b']);
            && n == h.node.(log := Log([First(1, b)], 2, [Second(b')], 0, 0), pr := n.pr)
            && n.pr.Keys == h.node.pr.Keys && n.pr[2] == h.node.pr[2] && n.pr[3] == h.node.pr[3]
  {
  }

  lemma {:induction false} SecondProposal(cfg: Config, b: Byte, b': Byte, h: Host)
    requires Roomy(cfg) && Leading(cfg, 1, 2, 3, 1, Log([First(1, b)], 2, [], 0, 0), h)
    requires h.node.pr[2] == Progress(0, 1, Replicate, false, [1], cfg.maxInflight)
    ensures var h' := HostAfter(h, ClientProposes(1, [b']));
            && Leading(cfg, 1, 2, 3, 1, Log([First(1, b)], 2, [Second(b')], 0, 0), h') && h'.disk == h.disk
            && Long(b, b') in h'.node.msgs
  {
    hide AppendOwn;
    hide Sends;
    hide NodeSpec.Batch;
    hide AfterSend;
    OwnSecond(cfg, b, b', h);
    var n := AppendOwn(h.node, [b']);
    LongBatch(n, n.pr[2], b, b');
    assert AppendTo(n, 2, n.pr[2]) == Long(b, b');
    hide First;
    hide Second;
    ProgressOfOthers(n);
    assert Propose(h.node, [b']) == BroadcastAppend(n);
  }

  // ----- follower 2 takes them the wrong way round -----

  lemma {:induction false} TakesLong(cfg: Config, b: Byte, b': Byte)
    ensures var h, h' := Following(cfg, 2, 1, 1, []), HostAfter(Following(cfg, 2, 1, 1, []), Deliver(2, Long(b, b')));
            h' == h.(node := h.node.(log := Log([], 1, [First(1, b), Second(b')], 0, 0), msgs := {Ack(2, 1, 1, 2)}))
  {
    var es := [First(1, b), Second(b')];
    assert ConflictPos(EMPTY, es) == 0 && es[0..] == es;
    assert MaybeAppend(EMPTY, 0, 0, 0, es) == (Log([], 1, es, 0, 0), true);
    assert AppendReply(Following(cfg, 2, 1, 1, []).node, Long(b, b')) == Ack(2, 1, 1, 2);
  }

  lemma {:induction false} TakesShort(cfg: Config, b: Byte, b': Byte)
    ensures var h := Following(cfg, 2, 1, 1, []);
            var h1 := h.(node := h.node.(log := Log([], 1, [First(1, b), Second(b')], 0, 0), msgs := {Ack(2, 1, 1, 2)}));
            var h2 := HostAfter(h1, Deliver(2, Carry(1, 2, 1, b)));
            h2 == h.(node := h.node.(log := Log([], 1, [First(1, b)], 0, 0), msgs := {Ack(2, 1, 1, 2), Ack(2, 1, 1, 1)}))
  {
    var e, es := First(1, b), [First(1, b), Second(b')];
    var l := Log([], 1, es, 0, 0);
    assert ConflictPos(l, [e]) == 1 by { assert [e][1..] == []; }
    assert es[..1] == [e];
    assert MaybeAppend(l, 0, 0, 0, [e]) == (Log([], 1, [e], 0, 0), true);
    var h := Following(cfg, 2, 1, 1, []);
    var n := h.node.(log := l, msgs := {Ack(2, 1, 1, 2)});
    assert AppendReply(n, Carry(1, 2, 1, b)) == Ack(2, 1, 1, 1);
    assert {Ack(2, 1, 1, 2)} + {Ack(2, 1, 1, 1)} == {Ack(2, 1, 1, 2), Ack(2, 1, 1, 1)};
    hide MaybeAppend;
    hide AppendReply;
  }

  // ----- node 2 is elected by node 3 -----

  const ASK := Message(MsgVote, 3, 2, 2, logTerm := 1, index := 1)

  /** Node 2 as a candidate with that log. */
  ghost predicate StandsWithFirst(cfg: Config, b: Byte, h: Host) {
    && Settled(h)
    && h.node == Node(2, cfg, 2, 2, Candidate, 0, [2], Log([First(1, b)], 2, [], 0, 0), map[], h.node.msgs, 0, 0)
  }

  lemma {:induction false} SecondStands(cfg: Config, b: Byte, h: Host)
    requires Roomy(cfg) && HoldsFirst(cfg, 2, 1, 1, b, h)
    ensures var h' := HostAfter(h, TimerFires(2));
            StandsWithFirst(cfg, b, h') && AtRest(h') && StandsWithFirst(cfg, b, Rested(h')) && ASK in h'.node.msgs
  {
    hide Recovers;
    hide Unread;
    var c := BecomeCandidate(h.node);
    assert 3 in cfg.voters;
    assert VoteRequest(c, 3) == ASK && VoteRequest(c, 3) in VoteRequests(c, c.cfg.voters);
  }

  /** The first probe of leader 2: its own entry behind the one that node 3 does not have. */
  const PROBE := Message(MsgApp, 3, 2, 2, logTerm := 1, index := 1, entries := [OWN])

  lemma {:induction false} OwnBatch(n: Node, p: Progress, b: Byte)
    requires n.log == Log([First(1, b)], 2, [OWN], 0, 0) && n.id == 2 && n.term == 2 && p == Progress(0, 2, Probe, false, [], n.cfg.maxInflight)
    ensures Sends(n, p) && AppendTo(n, 3, p) == PROBE && AfterSend(n, p) == p.(paused := true)
  {
    assert WindowPart(n.log, 2, 3) == [OWN] && [] + [OWN] == [OWN];
    assert Slice(n.log, 2, 3, n.cfg.maxSize) == Some([OWN]);
  }

  lemma {:induction false} SecondInOffice(cfg: Config, b: Byte, n: Node)
    requires Roomy(cfg)
    requires n == Node(2, cfg, 2, 2, Candidate, 0, [2, 3], Log([First(1, b)], 2, [], 0, 0), map[], n.msgs, 0, 0)
    ensures var n' := InOffice(n);
            && n' == n.(role := Leader, lead := 2, log := Log([First(1, b)], 2, [OWN], 0, 0), pr := n'.pr)
            && LeadsThree(n', 3, 1) && n'.pr[3] == Progress(0, 2, Probe, false, [], cfg.maxInflight)
  {
    assert Elements(cfg.voters) + {2} == {1, 2, 3};
    assert LastIndex(n.log) == 1;
  }

  lemma {:induction false} SecondWins(cfg: Config, b: Byte, h: Host)
    requires Roomy(cfg) && StandsWithFirst(cfg, b, h)
    ensures var h' := HostAfter(h, Deliver(2, GrantMsg(3, 2, 2)));
            && Leading(cfg, 2, 3, 1, 2, Log([First(1, b)], 2, [OWN], 0, 0), h') && h'.disk == h.disk
            && h'.node.pr[3] == Progress(0, 2, Probe, true, [], cfg.maxInflight) && PROBE in h'.node.msgs
  {
    hide Recovers;
    hide Unread;
    hide InOffice;
    var counted := h.node.(votes := [2] + [3]);
    assert Wins(h.node, GrantMsg(3, 2, 2));
    assert Step(h.node, GrantMsg(3, 2, 2)) == BecomeLeader(counted);
    assert [2] + [3] == [2, 3];
    SecondInOffice(cfg, b, counted);
    var n := InOffice(counted);
    OwnBatch(n, n.pr[3], b);
    hide Sends;
    hide AfterSend;
    hide NodeSpec.Batch;
    ProgressOfOthers(n);
    hide First;
    hide Step;
  }

  // ----- node 3 refuses the probe and takes the whole log -----

  const NACK := Message(MsgAppResp, 2, 3, 2, reject := true, index := 1)

  lemma {:induction false} ThirdRefuses(cfg: Config)
    ensures var h' := HostAfter(Answered(cfg, 3, 2, 2, []), Deliver(3, PROBE));
            AtRest(h') && NACK in h'.node.msgs && Rested(h') == Following(cfg, 3, 2, 2, [])
  {
    assert MaybeAppend(EMPTY, 1, 1, 0, [OWN]) == (EMPTY, false);
    assert AppendReply(Answered(cfg, 3, 2, 2, []).node, PROBE) == NACK;
  }

  /** The append with both of leader 2's entries. */
  function Whole(b: Byte): Message { Message(MsgApp, 3, 2, 2, entries := [First(1, b), OWN]) }

  lemma {:induction false} WholeBatch(n: Node, p: Progress, b: Byte)
    requires n.log == Log([First(1, b), OWN], 3, [], 0, 0) && n.cfg.maxSize >= 98 && n.id == 2 && n.term == 2
    requires p == Progress(0, 1, Probe, false, [], n.cfg.maxInflight)
    ensures Sends(n, p) && AppendTo(n, 3, p) == Whole(b) && AfterSend(n, p).matchIndex == 0
  {
    var es := [First(1, b), OWN];
    BothFit(First(1, b), OWN, n.cfg.maxSize);
    assert StoragePart(n.log, 1, 3, n.cfg.maxSize) == es by { assert es[0..2] == es; }
    assert WindowPart(n.log, 1, 3) == [] && es + [] == es;
    assert Slice(n.log, 1, 3, n.cfg.maxSize) == Some(es);
  }

  lemma {:induction false} SecondRetries(cfg: Config, b: Byte, h: Host)
    requires Roomy(cfg) && Leading(cfg, 2, 3, 1, 2, Log([First(1, b), OWN], 3, [], 0, 0), h) && Settled(h)
    requires h.node.pr[3] == Progress(0, 2, Probe, true, [], cfg.maxInflight)
    ensures var h' := HostAfter(h, Deliver(2, NACK));
            && AtRest(h') && Whole(b) in h'.node.msgs && Leading(cfg, 2, 3, 1, 2, h.node.log, Rested(h')) && Settled(Rested(h'))
  {
    hide Recovers;
    hide Unread;
    var n := h.node;
    var p := BecomeProbe(MaybeDecr(n.pr[3], 1, 0));
    assert p == Progress(0, 1, Probe, false, [], cfg.maxInflight);
    var n1 := n.(pr := n.pr[3 := p]);
    WholeBatch(n1, p, b);
    hide Sends;
    hide AfterSend;
    hide NodeSpec.Batch;
    assert AppendRejected(n, NACK) == SendAppend(n1, 3);
    assert Step(n, NACK) == AppendRejected(n, NACK);
    hide Step;
    hide First;
  }

  lemma {:induction false} ThirdTakesWhole(cfg: Config, b: Byte)
    ensures var h, h' := Following(cfg, 3, 2, 2, []), HostAfter(Following(cfg, 3, 2, 2, []), Deliver(3, Whole(b)));
            h' == h.(node := h.node.(log := Log([], 1, [First(1, b), OWN], 0, 0), msgs := {Ack(3, 2, 2, 2)}))
  {
    var es := [First(1, b), OWN];
    assert ConflictPos(EMPTY, es) == 0 && es[0..] == es;
    assert MaybeAppend(EMPTY, 0, 0, 0, es) == (Log([], 1, es, 0, 0), true);
    assert AppendReply(Following(cfg, 3, 2, 2, []).node, Whole(b)) == Ack(3, 2, 2, 2);
  }

  // ----- the run -----

  /** Node 1 leads term 1, with the first entry in its window. */
  lemma {:induction false} FirstLeads(cfg: Config, b: Byte) returns (c: State)
    requires Roomy(cfg)
    ensures Reached(cfg, c, Cleanly) && c.hosts.Keys == {1, 2, 3} && Settled(c.hosts[1])
    ensures Leading(cfg, 1, 2, 3, 1, Log([], 1, [First(1, b)], 0, 0), c.hosts[1]) && Carry(1, 2, 1, b) in c.hosts[1].node.msgs
    ensures c.hosts[1].node.pr[2] == Progress(0, 1, Replicate, false, [1], cfg.maxInflight)
    ensures c.hosts[2] == Following(cfg, 2, 1, 1, []) && c.hosts[3] == FreshHost(3, cfg)
  {
    hide Reached;
    hide FreshHost;
    hide Blank;
    hide Answered;
    hide Following;
    hide Stands;
    hide Settled;
    c := Begins(cfg, Cleanly);
    FreshIsBlank(1, cfg);
    FreshIsBlank(2, cfg);
    var a := Asks(cfg, c, 1, 2, Cleanly);
    c := State(c.hosts[1 := a], c.net + {Ask(1, 2, 1)});
    Answers(cfg, c, 2, Ask(1, 2, 1), Cleanly);
    c := State(c.hosts[2 := Answered(cfg, 2, 1, 1, [])], c.net + {GrantMsg(2, 1, 1)});
    assert c.hosts[2].disk.file == [] by { AnsweredIsBlank(cfg, 2, 1, 1, []); }
    c := OpensTerm(cfg, c, 1, 2, 1, b, Cleanly);
    assert Elements(cfg.voters) == {1, 2, 3};
    FirstIsSettled(cfg, 1, 2, 3, 1, b, c.hosts[1]);
  }

  /** It writes the entry and sends it. */
  lemma {:induction false} ShortIsSent(cfg: Config, b: Byte) returns (c: State)
    requires Roomy(cfg)
    ensures Reached(cfg, c, Cleanly) && c.hosts.Keys == {1, 2, 3} && Carry(1, 2, 1, b) in c.net && Settled(c.hosts[1])
    ensures Leading(cfg, 1, 2, 3, 1, Log([First(1, b)], 2, [], 0, 0), c.hosts[1])
    ensures c.hosts[1].node.pr[2] == Progress(0, 1, Replicate, false, [1], cfg.maxInflight)
    ensures c.hosts[2] == Following(cfg, 2, 1, 1, []) && c.hosts[3] == FreshHost(3, cfg)
  {
    hide Reached;
    hide FreshHost;
    hide Following;
    hide Settled;
    c := FirstLeads(cfg, b);
    var h := FirstIsSent(cfg, c, 1, 2, 3, 1, b, Cleanly);
    c := State(c.hosts[1 := h], c.net + {Carry(1, 2, 1, b)});
  }

  /** It takes the second proposal and sends both entries. */
  lemma {:induction false} LongIsSent(cfg: Config, b: Byte, b': Byte) returns (c: State)
    requires Roomy(cfg)
    ensures Reached(cfg, c, Cleanly) && c.hosts.Keys == {1, 2, 3} && Carry(1, 2, 1, b) in c.net && Long(b, b') in c.net
    ensures Leading(cfg, 1, 2, 3, 1, Log([First(1, b), Second(b')], 3, [], 0, 0), c.hosts[1])
    ensures c.hosts[2] == Following(cfg, 2, 1, 1, []) && c.hosts[3] == FreshHost(3, cfg)
  {
    hide Reached;
    hide FreshHost;
    hide Following;
    hide Settled;
    hide Cycled;
    hide HostAfter;
    hide FileAfter;
    c := ShortIsSent(cfg, b);
    var h := c.hosts[1];
    SecondProposal(cfg, b, b', h);
    var h1 := HostAfter(h, ClientProposes(1, [b']));
    StillSettled(h, h1);
    Unchanged(c, 1);
    Acts(cfg, c, 1, h, ClientProposes(1, [b']), Cleanly);
    c := c.(hosts := c.hosts[1 := h1]);
    WritesAndSends(cfg, c, 1, Long(b, b'), Cleanly);
    CycleStores(1, h1);
    assert [First(1, b)] + [Second(b')] == [First(1, b), Second(b')];
    c := State(c.hosts[1 := Cycled(1, h1)], c.net + {Long(b, b')});
  }

  /** Node 2 takes the long append and then the short one. */
  lemma {:induction false} TakesBoth(cfg: Config, c: State, b: Byte, b': Byte) returns (h: Host)
    requires Reached(cfg, c, Cleanly) && 2 in c.hosts && c.hosts[2] == Following(cfg, 2, 1, 1, [])
    requires Carry(1, 2, 1, b) in c.net && Long(b, b') in c.net
    ensures Reached(cfg, c.(hosts := c.hosts[2 := h]), Cleanly)
    ensures Took(cfg, 2, 1, 1, [First(1, b)], h) && Ack(2, 1, 1, 2) in h.node.msgs
  {
    hide HostAfter;
    hide Reached;
    TakesLong(cfg, b, b');
    TakesShort(cfg, b, b');
    var h0 := c.hosts[2];
    var h1 := HostAfter(h0, Deliver(2, Long(b, b')));
    h := HostAfter(h1, Deliver(2, Carry(1, 2, 1, b)));
    assert h0.phase.Idle? && h1.phase.Idle? && Took(cfg, 2, 1, 1, [First(1, b)], h) && Ack(2, 1, 1, 2) in h.node.msgs;
    hide Following;
    hide Took;
    Unchanged(c, 2);
    Acts(cfg, c, 2, h0, Deliver(2, Long(b, b')), Cleanly);
    Acts(cfg, c, 2, h1, Deliver(2, Carry(1, 2, 1, b)), Cleanly);
  }

  /** It accepts index 2 with one entry in hand. */
  lemma {:induction false} FollowerAccepts(cfg: Config, b: Byte, b': Byte) returns (c: State)
    requires Roomy(cfg)
    ensures Reached(cfg, c, Cleanly) && c.hosts.Keys == {1, 2, 3} && Ack(2, 1, 1, 2) in c.net
    ensures Leading(cfg, 1, 2, 3, 1, Log([First(1, b), Second(b')], 3, [], 0, 0), c.hosts[1])
    ensures HoldsFirst(cfg, 2, 1, 1, b, c.hosts[2]) && c.hosts[3] == FreshHost(3, cfg)
  {
    hide Reached;
    hide FreshHost;
    hide Following;
    hide Leading;
    c := LongIsSent(cfg, b, b');
    var h := TakesBoth(cfg, c, b, b');
    assert Fits(First(1, b)) && h.node.log.window == [First(1, b)];
    TookIsSettled(cfg, 2, 1, 1, [First(1, b)], h);
    hide Took;
    hide Settled;
    hide First;
    hide Second;
    hide Cycled;
    hide HoldsFirst;
    c := c.(hosts := c.hosts[2 := h]);
    WritesAndSends(cfg, c, 2, Ack(2, 1, 1, 2), Cleanly);
    TookAndStored(cfg, 2, 1, 1, b, h);
    c := State(c.hosts[2 := Cycled(2, h)], c.net + {Ack(2, 1, 1, 2)});
  }

  /** Host 1 hands out its two entries. */
  ghost predicate HandsOutBoth(x: NodeId, e: Entry, e': Entry, c: State) {
    x in c.hosts && c.hosts[x].phase.Polled? && c.hosts[x].phase.rd.committed == [e, e']
  }

  /** Leader 1 counts that acceptance, commits both entries and hands them out. */
  lemma {:induction false} FirstCommits(cfg: Config, b: Byte, b': Byte) returns (c: State)
    requires Roomy(cfg)
    ensures Reached(cfg, c, Cleanly) && c.hosts.Keys == {1, 2, 3} && HandsOutBoth(1, First(1, b), Second(b'), c)
    ensures HoldsFirst(cfg, 2, 1, 1, b, c.hosts[2]) && c.hosts[3] == FreshHost(3, cfg)
  {
    c := FollowerAccepts(cfg, b, b');
    var h := c.hosts[1];
    CommitsAll(cfg, 1, 2, 3, 1, [First(1, b), Second(b')], h);
    assert h.phase.Idle?;
    hide Reached;
    hide HostAfter;
    hide FreshHost;
    hide HoldsFirst;
    hide Leading;
    hide First;
    hide Second;
    var h1 := HostAfter(h, Deliver(1, Ack(2, 1, 1, 2)));
    Unchanged(c, 1);
    Acts(cfg, c, 1, h, Deliver(1, Ack(2, 1, 1, 2)), Cleanly);
    Acts(cfg, c, 1, h1, Poll(1), Cleanly);
    c := c.(hosts := c.hosts[1 := HostAfter(h1, Poll(1))]);
  }

  /** Node 2 asks node 3 for its vote of term 2. */
  lemma {:induction false} SecondAsks(cfg: Config, c: State, b: Byte) returns (h: Host)
    requires Roomy(cfg) && Reached(cfg, c, Cleanly) && 2 in c.hosts && HoldsFirst(cfg, 2, 1, 1, b, c.hosts[2])
    ensures Reached(cfg, State(c.hosts[2 := h], c.net + {ASK}), Cleanly) && StandsWithFirst(cfg, b, h)
  {
    SecondStands(cfg, b, c.hosts[2]);
    assert c.hosts[2].phase.Idle?;
    hide Reached;
    hide HostAfter;
    hide HoldsFirst;
    hide StandsWithFirst;
    hide AtRest;
    hide Rested;
    var h1 := HostAfter(c.hosts[2], TimerFires(2));
    Unchanged(c, 2);
    Acts(cfg, c, 2, c.hosts[2], TimerFires(2), Cleanly);
    var c1 := c.(hosts := c.hosts[2 := h1]);
    Speaks(cfg, c1, 2, ASK, Cleanly);
    h := Rested(h1);
    assert c1.hosts[2 := h] == c.hosts[2 := h];
  }

  /** Node 3, which has no log, gives it. */
  lemma {:induction false} ThirdVotes(cfg: Config, b: Byte, b': Byte) returns (c: State)
    requires Roomy(cfg)
    ensures Reached(cfg, c, Cleanly) && c.hosts.Keys == {1, 2, 3} && HandsOutBoth(1, First(1, b), Second(b'), c)
    ensures StandsWithFirst(cfg, b, c.hosts[2]) && c.hosts[3] == Answered(cfg, 3, 2, 2, []) && GrantMsg(3, 2, 2) in c.net
  {
    hide Reached;
    hide FreshHost;
    hide HoldsFirst;
    hide StandsWithFirst;
    hide Blank;
    hide Answered;
    hide First;
    hide Second;
    c := FirstCommits(cfg, b, b');
    FreshIsBlank(3, cfg);
    var h := SecondAsks(cfg, c, b);
    c := State(c.hosts[2 := h], c.net + {ASK});
    Answers(cfg, c, 3, ASK, Cleanly);
    c := State(c.hosts[3 := Answered(cfg, 3, 2, 2, [])], c.net + {GrantMsg(3, 2, 2)});
  }

  /** Elected, node 2 adds an entry of its own at index 2 and probes node 3. */
  lemma {:induction false} SecondProbes(cfg: Config, c: State, b: Byte) returns (h: Host)
    requires Roomy(cfg) && Reached(cfg, c, Cleanly) && 2 in c.hosts && StandsWithFirst(cfg, b, c.hosts[2]) && GrantMsg(3, 2, 2) in c.net
    ensures Reached(cfg, State(c.hosts[2 := h], c.net + {PROBE}), Cleanly)
    ensures Leading(cfg, 2, 3, 1, 2, Log([First(1, b), OWN], 3, [], 0, 0), h) && Settled(h)
    ensures h.node.pr[3] == Progress(0, 2, Probe, true, [], cfg.maxInflight)
  {
    hide Reached;
    hide HostAfter;
    hide Cycled;
    hide FileAfter;
    hide Recovers;
    hide Unread;
    var h0 := c.hosts[2];
    SecondWins(cfg, b, h0);
    var h1 := HostAfter(h0, Deliver(2, GrantMsg(3, 2, 2)));
    StillSettled(h0, h1);
    hide Settled;
    hide StandsWithFirst;
    Unchanged(c, 2);
    Acts(cfg, c, 2, h0, Deliver(2, GrantMsg(3, 2, 2)), Cleanly);
    var c1 := c.(hosts := c.hosts[2 := h1]);
    WritesAndSends(cfg, c1, 2, PROBE, Cleanly);
    CycleStores(2, h1);
    assert [First(1, b)] + [OWN] == [First(1, b), OWN];
    h := Cycled(2, h1);
    assert c1.hosts[2 := h] == c.hosts[2 := h];
  }

  /** Node 3 refuses: it lacks the entry in front. */
  lemma {:induction false} ProbeIsRefused(cfg: Config, c: State)
    requires Reached(cfg, c, Cleanly) && 3 in c.hosts && c.hosts[3] == Answered(cfg, 3, 2, 2, []) && PROBE in c.net
    ensures Reached(cfg, State(c.hosts[3 := Following(cfg, 3, 2, 2, [])], c.net + {NACK}), Cleanly)
  {
    ThirdRefuses(cfg);
    assert c.hosts[3].phase.Idle?;
    hide Reached;
    hide HostAfter;
    hide Answered;
    hide Following;
    hide AtRest;
    hide Rested;
    var v := HostAfter(c.hosts[3], Deliver(3, PROBE));
    Unchanged(c, 3);
    Acts(cfg, c, 3, c.hosts[3], Deliver(3, PROBE), Cleanly);
    var c1 := c.(hosts := c.hosts[3 := v]);
    Speaks(cfg, c1, 3, NACK, Cleanly);
    assert c1.hosts[3 := Rested(v)] == c.hosts[3 := Rested(v)];
  }

  /** Node 2 sends it the whole log. */
  lemma {:induction false} SecondSendsWhole(cfg: Config, c: State, b: Byte) returns (h: Host)
    requires Roomy(cfg) && Reached(cfg, c, Cleanly) && 2 in c.hosts && NACK in c.net && Settled(c.hosts[2])
    requires Leading(cfg, 2, 3, 1, 2, Log([First(1, b), OWN], 3, [], 0, 0), c.hosts[2])
    requires c.hosts[2].node.pr[3] == Progress(0, 2, Probe, true, [], cfg.maxInflight)
    ensures Reached(cfg, State(c.hosts[2 := h], c.net + {Whole(b)}), Cleanly)
    ensures Leading(cfg, 2, 3, 1, 2, Log([First(1, b), OWN], 3, [], 0, 0), h)
  {
    hide Reached;
    hide HostAfter;
    hide AtRest;
    hide Rested;
    hide Settled;
    var h0 := c.hosts[2];
    SecondRetries(cfg, b, h0);
    assert h0.phase.Idle?;
    var h1 := HostAfter(h0, Deliver(2, NACK));
    Unchanged(c, 2);
    Acts(cfg, c, 2, h0, Deliver(2, NACK), Cleanly);
    var c1 := c.(hosts := c.hosts[2 := h1]);
    h := Rested(h1);
    assert c1.hosts[2 := h] == c.hosts[2 := h];
    hide Leading;
    hide Whole;
    Speaks(cfg, c1, 2, Whole(b), Cleanly);
  }

  /** Node 3 stores it and accepts. */
  lemma {:induction false} WholeIsAccepted(cfg: Config, c: State, b: Byte) returns (h: Host)
    requires Reached(cfg, c, Cleanly) && 3 in c.hosts && c.hosts[3] == Following(cfg, 3, 2, 2, []) && Whole(b) in c.net
    ensures Reached(cfg, State(c.hosts[3 := h], c.net + {Ack(3, 2, 2, 2)}), Cleanly)
  {
    ThirdTakesWhole(cfg, b);
    var h0 := c.hosts[3];
    var h1 := HostAfter(h0, Deliver(3, Whole(b)));
    assert h0.phase.Idle? && Took(cfg, 3, 2, 2, [First(1, b), OWN], h1) && Ack(3, 2, 2, 2) in h1.node.msgs;
    assert h1.node.log.window == [First(1, b), OWN] && Fits(First(1, b)) && Fits(OWN);
    hide Reached;
    hide HostAfter;
    hide Following;
    TookIsSettled(cfg, 3, 2, 2, [First(1, b), OWN], h1);
    hide Took;
    hide Settled;
    hide Cycled;
    Unchanged(c, 3);
    Acts(cfg, c, 3, h0, Deliver(3, Whole(b)), Cleanly);
    var c1 := c.(hosts := c.hosts[3 := h1]);
    WritesAndSends(cfg, c1, 3, Ack(3, 2, 2, 2), Cleanly);
    h := Cycled(3, h1);
    assert c1.hosts[3 := h] == c.hosts[3 := h];
  }

  /** Node 2 commits both entries and hands them out. */
  lemma {:induction false} SecondCommits(cfg: Config, c: State, b: Byte) returns (h: Host)
    requires Reached(cfg, c, Cleanly) && 2 in c.hosts && Ack(3, 2, 2, 2) in c.net
    requires Leading(cfg, 2, 3, 1, 2, Log([First(1, b), OWN], 3, [], 0, 0), c.hosts[2])
    ensures Reached(cfg, c.(hosts := c.hosts[2 := h]), Cleanly) && h.phase.Polled? && h.phase.rd.committed == [First(1, b), OWN]
  {
    var h0 := c.hosts[2];
    CommitsAll(cfg, 2, 3, 1, 2, [First(1, b), OWN], h0);
    assert h0.phase.Idle?;
    hide Reached;
    hide HostAfter;
    hide Leading;
    var h1 := HostAfter(h0, Deliver(2, Ack(3, 2, 2, 2)));
    Unchanged(c, 2);
    Acts(cfg, c, 2, h0, Deliver(2, Ack(3, 2, 2, 2)), Cleanly);
    Acts(cfg, c, 2, h1, Poll(2), Cleanly);
    h := HostAfter(h1, Poll(2));
  }

  lemma {:induction false} BothHandedOut(cfg: Config, b: Byte, b': Byte) returns (c: State)
    requires Roomy(cfg)
    ensures Reached(cfg, c, Cleanly) && HandsOutBoth(1, First(1, b), Second(b'), c) && HandsOutBoth(2, First(1, b), OWN, c)
  {
    hide Reached;
    hide Leading;
    hide StandsWithFirst;
    hide Settled;
    hide Answered;
    hide Following;
    hide First;
    hide Second;
    hide Whole;
    c := ThirdVotes(cfg, b, b');
    var h := SecondProbes(cfg, c, b);
    c := State(c.hosts[2 := h], c.net + {PROBE});
    ProbeIsRefused(cfg, c);
    c := State(c.hosts[3 := Following(cfg, 3, 2, 2, [])], c.net + {NACK});
    h := SecondSendsWhole(cfg, c, b);
    c := State(c.hosts[2 := h], c.net + {Whole(b)});
    var v := WholeIsAccepted(cfg, c, b);
    c := State(c.hosts[3 := v], c.net + {Ack(3, 2, 2, 2)});
    h := SecondCommits(cfg, c, b);
    c := c.(hosts := c.hosts[2 := h]);
  }

  /** A clean run, without a crash and without a heartbeat, at whose end nodes 1 and 2 hand different
      entries at index 2 to their state machines. */
  lemma {:induction false} AcceptedAndLost(cfg: Config, b: Byte, b': Byte) returns (run: seq<State>)
    requires cfg.voters == [1, 2, 3] && cfg.maxInflight >= 2 && cfg.maxSize >= 98
    ensures CleanRun(cfg, run)
    ensures var c := run[|run| - 1];
            && 1 in c.hosts && c.hosts[1].phase.Polled? && c.hosts[1].phase.rd.committed == [Entry(1, 1, 0, [b]), Entry(1, 2, 0, [b'])]
            && 2 in c.hosts && c.hosts[2].phase.Polled? && c.hosts[2].phase.rd.committed == [Entry(1, 1, 0, [b]), Entry(2, 2, 0, [])]
  {
    var c := BothHandedOut(cfg, b, b');
    run :| EndsIn(cfg, run, c, Cleanly);
    hide Init;
    hide CleanNext;
  }
}
