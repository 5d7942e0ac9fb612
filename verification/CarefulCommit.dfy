/** Careful runs do commit: one in which a leader commits an entry and both it and its follower hand that
    entry to their state machines. */
module CarefulCommit {
  import opened Bytes
  import opened RaftTypes
  import opened LogSpec
  import opened NodeSpec
  import opened Cluster
  import opened CarefulRuns
  import opened Votes
  import opened Schedules
  import opened FirstEntry
  import opened Episodes

  /** The heartbeat of leader 1 to node 2. */
  const BEAT := Beat(1, 2, 1)

  lemma {:induction false} FollowerApplies(cfg: Config, b: Byte, h: Host)
    requires HoldsFirst(cfg, 2, 1, 1, b, h)
    ensures var h1 := HostAfter(h, Deliver(2, BEAT));
            h1.phase.Idle? && HostAfter(h1, Poll(2)).phase.Polled? && HostAfter(h1, Poll(2)).phase.rd.committed == [First(1, b)]
  {
    hide NextCommitted;
    AllIsApplied([First(1, b)]);
    assert Step(h.node, BEAT) == StepFollower(h.node, BEAT);
    PollHandsOut(2, HostAfter(h, Deliver(2, BEAT)), [First(1, b)]);
  }

  lemma {:induction false} BeatIsCareful(cfg: Config, c: State, b: Byte)
    requires 1 in c.hosts && 2 in c.hosts && HandsOutFirst(1, 1, b, c.hosts[1]) && HoldsFirst(cfg, 2, 1, 1, b, c.hosts[2]) && BEAT in c.net
    ensures Careful([c], Deliver(2, BEAT))
  {
    assert LeaderHolds(c, 1, 1, 1, TermAt(c.hosts[2].node.log, 1));
    assert [c][0] == c;
  }

  /** Node 1 is elected by node 2 and commits an entry with it. */
  lemma {:induction false} OneCommits(cfg: Config, b: Byte) returns (c: State)
    requires cfg.voters == [1, 2, 3] && cfg.maxInflight >= 1
    ensures Reached(cfg, c, Carefully) && 1 in c.hosts && 2 in c.hosts
    ensures CommittedFirst(cfg, 1, 1, b, c.hosts[1]) && 2 in c.hosts[1].node.pr && HoldsFirst(cfg, 2, 1, 1, b, c.hosts[2])
  {
    hide Reached;
    hide FreshHost;
    hide Blank;
    hide Answered;
    hide Following;
    hide Stands;
    hide Settled;
    c := Begins(cfg, Carefully);
    FreshIsBlank(1, cfg);
    FreshIsBlank(2, cfg);
    var a := Asks(cfg, c, 1, 2, Carefully);
    c := State(c.hosts[1 := a], c.net + {Ask(1, 2, 1)});
    Answers(cfg, c, 2, Ask(1, 2, 1), Carefully);
    c := State(c.hosts[2 := Answered(cfg, 2, 1, 1, [])], c.net + {GrantMsg(2, 1, 1)});
    assert c.hosts[2].disk.file == [] by { AnsweredIsBlank(cfg, 2, 1, 1, []); }
    c := OpensTerm(cfg, c, 1, 2, 1, b, Carefully);
    assert Elements(cfg.voters) == {1, 2, 3};
    FirstIsSettled(cfg, 1, 2, 3, 1, b, c.hosts[1]);
    hide CommittedFirst;
    hide HoldsFirst;
    c := FirstIsCommitted(cfg, c, 1, 2, 3, 1, b, Carefully);
  }

  /** Its heartbeat leaves while it hands the entry out, and node 2 hands it out too. */
  lemma {:induction false} BothHandOut(cfg: Config, b: Byte) returns (c: State)
    requires cfg.voters == [1, 2, 3] && cfg.maxInflight >= 1
    ensures Reached(cfg, c, Carefully) && HandsOut(c, 1, First(1, b)) && HandsOut(c, 2, First(1, b))
  {
    hide Reached;
    hide CommittedFirst;
    hide Careful;
    hide HostAfter;
    c := OneCommits(cfg, b);
    var v := c.hosts[2];
    assert v.phase.Idle?;
    hide HoldsFirst;
    var h := BeatIsSent(cfg, c, 1, 2, 1, b, Carefully);
    c := State(c.hosts[1 := h], c.net + {BEAT});
    BeatIsCareful(cfg, c, b);
    FollowerApplies(cfg, b, v);
    var v1 := HostAfter(v, Deliver(2, BEAT));
    Unchanged(c, 2);
    Acts(cfg, c, 2, v, Deliver(2, BEAT), Carefully);
    Acts(cfg, c, 2, v1, Poll(2), Carefully);
    c := c.(hosts := c.hosts[2 := HostAfter(v1, Poll(2))]);
  }

  /** A careful run at whose end nodes 1 and 2 hand the same entry at index 1 to their state machines. */
  lemma {:induction false} SameEntryApplied(cfg: Config, b: Byte) returns (run: seq<State>)
    requires cfg.voters == [1, 2, 3] && cfg.maxInflight >= 1
    ensures CarefulRun(cfg, run)
    ensures var c := run[|run| - 1]; HandsOut(c, 1, Entry(1, 1, 0, [b])) && HandsOut(c, 2, Entry(1, 1, 0, [b]))
  {
    var c := BothHandOut(cfg, b);
    run :| EndsIn(cfg, run, c, Carefully);
    CarefulStepsAreCareful(cfg, run);
    hide CarefulRun;
    hide CarefulSteps;
  }
}
