/** Where State Machine Safety ends: a heartbeat carries the leader's whole commit index, and a node whose
    log disagrees with the leader's takes it for its own entries.  Two nodes then hand different entries
    at one index to their state machines, in a run without a crash. */
module StaleCommit {
  import opened Bytes
  import opened RaftTypes
  import opened LogSpec
  import opened NodeSpec
  import opened Cluster
  import opened Votes
  import opened Schedules
  import opened FirstEntry
  import opened Episodes

  /** Three voters, and room for a message on its way. */
  ghost predicate Three(cfg: Config) { cfg.voters == [1, 2, 3] && cfg.maxInflight >= 1 }

  // ----- what the heartbeat does -----

  /** The heartbeat of leader 2 to node 1. */
  const BEAT := Beat(2, 1, 2)

  lemma {:induction false} WindowIsApplied(t: nat, b: Byte)
    ensures NextCommitted(Log([], 1, [First(t, b)], 1, 0)) == [First(t, b)]
  {
    var l := Log([], 1, [First(t, b)], 1, 0);
    assert StoragePart(l, 1, 2, NO_LIMIT) == [] && WindowPart(l, 1, 2) == [First(t, b)];
    assert [] + [First(t, b)] == [First(t, b)];
  }

  /** Node 1, still with its own entry of term 1, takes the heartbeat. */
  lemma {:induction false} StaleApplies(cfg: Config, b: Byte, h: Host)
    requires LeadsFirst(cfg, 1, 3, 1, b, h)
    ensures var h1 := HostAfter(h, Deliver(1, BEAT));
            var h2 := HostAfter(h1, Poll(1));
            h1.phase.Idle? && h2.phase.Polled? && h2.phase.rd.committed == [First(1, b)]
  {
    WindowIsApplied(1, b);
    hide NextCommitted;
    var n := BecomeFollower(h.node, 2, 0);
    assert Step(h.node, BEAT) == StepFollower(n, BEAT);
    assert CommitTo(n.log, 1) == Log([], 1, [First(1, b)], 1, 0);
    hide First;
  }

  // ----- the run -----

  /** Node 1 leads term 1 with an entry that it keeps to itself. */
  lemma {:induction false} FirstLeader(cfg: Config, b: Byte) returns (c: State)
    requires Three(cfg)
    ensures Reached(cfg, c, Cleanly) && c.hosts.Keys == {1, 2, 3} && LeadsFirst(cfg, 1, 3, 1, b, c.hosts[1])
    ensures c.hosts[2] == FreshHost(2, cfg) && c.hosts[3] == Following(cfg, 3, 1, 1, [])
    ensures c.hosts[1].disk.term == 1 && c.hosts[1].disk.file == []
  {
    hide Reached;
    hide FreshHost;
    hide Blank;
    hide Answered;
    hide Following;
    hide Stands;
    hide LeadsFirst;
    c := Begins(cfg, Cleanly);
    FreshIsBlank(1, cfg);
    FreshIsBlank(3, cfg);
    var a := Asks(cfg, c, 1, 3, Cleanly);
    c := State(c.hosts[1 := a], c.net + {Ask(1, 3, 1)});
    Answers(cfg, c, 3, Ask(1, 3, 1), Cleanly);
    c := State(c.hosts[3 := Answered(cfg, 3, 1, 1, [])], c.net + {GrantMsg(3, 1, 1)});
    assert c.hosts[3].disk.file == [] by { AnsweredIsBlank(cfg, 3, 1, 1, []); }
    c := OpensTerm(cfg, c, 1, 3, 1, b, Cleanly);
  }

  lemma {:induction false} StandsIsBlank(cfg: Config, x: NodeId, t: nat, h: Host)
    requires Stands(cfg, x, t, h)
    ensures Blank(cfg, x, h) && h.node.term == t
  {
  }

  /** Node 2 times out twice and stands in term 2. */
  lemma {:induction false} SecondCandidate(cfg: Config, b: Byte) returns (c: State)
    requires Three(cfg)
    ensures Reached(cfg, c, Cleanly) && c.hosts.Keys == {1, 2, 3} && LeadsFirst(cfg, 1, 3, 1, b, c.hosts[1])
    ensures Stands(cfg, 2, 2, c.hosts[2]) && c.hosts[2].disk.file == [] && Ask(2, 3, 2) in c.net
    ensures c.hosts[3] == Following(cfg, 3, 1, 1, [])
  {
    c := FirstLeader(cfg, b);
    FreshIsBlank(2, cfg);
    CandidateAsks(cfg, 2, 3, FreshHost(2, cfg));
    var h := HostAfter(FreshHost(2, cfg), TimerFires(2));
    StandsIsBlank(cfg, 2, 1, h);
    assert c.hosts[2].phase.Idle?;
    hide HostAfter;
    hide Reached;
    hide FreshHost;
    hide Blank;
    hide Answered;
    hide Following;
    hide Stands;
    hide LeadsFirst;
    Unchanged(c, 2);
    Acts(cfg, c, 2, c.hosts[2], TimerFires(2), Cleanly);
    c := c.(hosts := c.hosts[2 := h]);
    h := Asks(cfg, c, 2, 3, Cleanly);
    c := State(c.hosts[2 := h], c.net + {Ask(2, 3, 2)});
  }

  /** It is elected, and takes a proposal. */
  lemma {:induction false} SecondLeader(cfg: Config, b: Byte, b': Byte) returns (c: State)
    requires Three(cfg)
    ensures Reached(cfg, c, Cleanly) && c.hosts.Keys == {1, 2, 3} && LeadsFirst(cfg, 1, 3, 1, b, c.hosts[1])
    ensures LeadsFirst(cfg, 2, 3, 2, b', c.hosts[2]) && c.hosts[2].disk.file == [] && c.hosts[3] == Following(cfg, 3, 2, 2, [])
  {
    c := SecondCandidate(cfg, b);
    FollowingIsBlank(cfg, 3, 1, 1, []);
    hide Reached;
    hide Blank;
    hide Answered;
    hide Following;
    hide Stands;
    hide LeadsFirst;
    Answers(cfg, c, 3, Ask(2, 3, 2), Cleanly);
    c := State(c.hosts[3 := Answered(cfg, 3, 2, 2, [])], c.net + {GrantMsg(3, 2, 2)});
    assert c.hosts[3].disk.file == [] by { AnsweredIsBlank(cfg, 3, 2, 2, []); }
    c := OpensTerm(cfg, c, 2, 3, 2, b', Cleanly);
  }

  /** Its entry is stored, replicated to node 3 and committed. */
  lemma {:induction false} Committed(cfg: Config, b: Byte, b': Byte) returns (c: State)
    requires Three(cfg)
    ensures Reached(cfg, c, Cleanly) && c.hosts.Keys == {1, 2, 3} && LeadsFirst(cfg, 1, 3, 1, b, c.hosts[1])
    ensures CommittedFirst(cfg, 2, 2, b', c.hosts[2]) && 1 in c.hosts[2].node.pr
  {
    hide Reached;
    hide Following;
    c := SecondLeader(cfg, b, b');
    assert Elements(cfg.voters) == {2, 3, 1};
    FirstIsSettled(cfg, 2, 3, 1, 2, b', c.hosts[2]);
    assert Carry(2, 3, 2, b') in c.hosts[2].node.msgs;
    hide LeadsFirst;
    hide Settled;
    hide Leading;
    hide CommittedFirst;
    hide HoldsFirst;
    c := FirstIsCommitted(cfg, c, 2, 3, 1, 2, b', Cleanly);
  }

  /** The heartbeat leaves with the entry of node 2 handed out, and reaches node 1. */
  lemma {:induction false} BothHandedOut(cfg: Config, b: Byte, b': Byte) returns (c: State)
    requires Three(cfg)
    ensures Reached(cfg, c, Cleanly) && 1 in c.hosts && 2 in c.hosts
    ensures c.hosts[1].phase.Polled? && c.hosts[1].phase.rd.committed == [First(1, b)]
    ensures c.hosts[2].phase.Synced? && c.hosts[2].phase.rd.committed == [First(2, b')]
  {
    hide Reached;
    hide CommittedFirst;
    c := Committed(cfg, b, b');
    var g := c.hosts[1];
    StaleApplies(cfg, b, g);
    var g1 := HostAfter(g, Deliver(1, BEAT));
    assert g.phase.Idle?;
    hide HostAfter;
    hide LeadsFirst;
    var h := BeatIsSent(cfg, c, 2, 1, 2, b', Cleanly);
    c := State(c.hosts[2 := h], c.net + {BEAT});
    Unchanged(c, 1);
    Acts(cfg, c, 1, g, Deliver(1, BEAT), Cleanly);
    Acts(cfg, c, 1, g1, Poll(1), Cleanly);
    c := c.(hosts := c.hosts[1 := HostAfter(g1, Poll(1))]);
  }

  /** A clean run, without a crash, at whose end nodes 1 and 2 hand different entries at index 1 to their
      state machines. */
  lemma {:induction false} DifferentEntriesApplied(cfg: Config, b: Byte, b': Byte) returns (run: seq<State>)
    requires cfg.voters == [1, 2, 3] && cfg.maxInflight >= 1
    ensures CleanRun(cfg, run)
    ensures var c := run[|run| - 1];
            && 1 in c.hosts && c.hosts[1].phase.Polled? && c.hosts[1].phase.rd.committed == [Entry(1, 1, 0, [b])]
            && 2 in c.hosts && c.hosts[2].phase.Synced? && c.hosts[2].phase.rd.committed == [Entry(2, 1, 0, [b'])]
  {
    var c := BothHandedOut(cfg, b, b');
    run :| EndsIn(cfg, run, c, Cleanly);
    hide Init;
    hide CleanNext;
  }
}
