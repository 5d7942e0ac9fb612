/** Where Election Safety ends: the hard state file is emptied before it is written, so a crash in
    between makes a host forget its term and its vote.  With two voters or more, two nodes then lead one
    term; a lone voter has nobody to share a term with. */
module LostVote {
  import opened Bytes
  import opened RaftTypes
  import opened LogSpec
  import opened WalSpec
  import opened NodeSpec
  import opened Cluster
  import opened Votes
  import opened ElectionSteps
  import opened RaftSafety
  import opened Schedules
  import opened FirstEntry

  // ----- the byte at which a crash costs term or vote -----

  /** A crash while the hard state is written keeps term and vote exactly when the bytes it cuts off are
      zero. */
  lemma {:induction false} IntactExactlyWhen(c: State, x: NodeId, kept: nat)
    requires Enabled(c, CrashWhileSavingHard(x, kept))
    ensures var rd, k := c.hosts[x].phase.rd, Min(kept, 24);
            Intact(c, CrashWhileSavingHard(x, kept)) <==>
            rd.term < Pow256(BytesKept(0, k)) && rd.vote < Pow256(BytesKept(8, k))
  {
    hide Pow256;
    hide HardBytes;
    hide ReadHardState;
    hide BytesKept;
    var rd := c.hosts[x].phase.rd;
    HardStateSurvivesExactlyWhen(HardState(rd.term, rd.vote, rd.commit), Min(kept, 24));
  }

  // ----- forgetting -----

  /** Nothing in the log or in its file, but a term to write. */
  ghost predicate Forgettable(cfg: Config, x: NodeId, h: Host) {
    && h.phase.Idle? && h.node.id == x && h.node.cfg == cfg && h.node.term >= 1
    && h.node.log.window == [] && h.disk.file == []
  }

  lemma {:induction false} HostForgets(cfg: Config, x: NodeId, h: Host)
    requires Forgettable(cfg, x, h)
    ensures var h1 := HostAfter(h, Poll(x));
            var h2 := HostAfter(h1, SaveEntries(x));
            && h1.phase.Polled? && h2.phase.Saved? && WritesHard(h2.phase.rd)
            && HostAfter(h2, CrashWhileSavingHard(x, 0)) == FreshHost(x, cfg)
  {
    hide NextCommitted;
    var h2 := HostAfter(HostAfter(h, Poll(x)), SaveEntries(x));
    assert HardAfter(h2.phase.rd, 0) == HardState(0, 0, 0);
    NothingToRead();
  }

  /** A cycle that is cut short while the hard state is written. */
  lemma {:induction false} Forgets(cfg: Config, c: State, x: NodeId, care: Care)
    requires Lossy(care) && Reached(cfg, c, care) && x in c.hosts && Forgettable(cfg, x, c.hosts[x])
    ensures Reached(cfg, c.(hosts := c.hosts[x := FreshHost(x, cfg)]), care)
  {
    var h1 := HostAfter(c.hosts[x], Poll(x));
    var h2 := HostAfter(h1, SaveEntries(x));
    HostForgets(cfg, x, c.hosts[x]);
    hide HostAfter;
    hide Reached;
    hide WritesHard;
    hide FreshHost;
    Unchanged(c, x);
    Acts(cfg, c, x, c.hosts[x], Poll(x), care);
    Acts(cfg, c, x, h1, SaveEntries(x), care);
    Acts(cfg, c, x, h2, CrashWhileSavingHard(x, 0), care);
  }

  // ----- votes are collected, and forgotten again -----

  ghost predicate AllFresh(cfg: Config, c: State) {
    c.hosts.Keys == Elements(cfg.voters) && forall z :: z in c.hosts ==> c.hosts[z] == FreshHost(z, cfg)
  }

  lemma {:induction false} SameFresh(cfg: Config, c: State, hosts: map<NodeId, Host>)
    requires AllFresh(cfg, c) && hosts.Keys == c.hosts.Keys && forall z :: z in hosts ==> hosts[z] == FreshHost(z, cfg)
    ensures hosts == c.hosts
  {
    hide FreshHost;
  }

  lemma {:induction false} AnsweredForgets(cfg: Config, y: NodeId, x: NodeId, t: nat)
    requires t >= 1
    ensures Forgettable(cfg, y, Answered(cfg, y, x, t, []))
  {
  }

  lemma {:induction false} StandingForgets(cfg: Config, x: NodeId, t: nat, h: Host)
    requires Stands(cfg, x, t, h) && t >= 1 && h.disk.file == []
    ensures Forgettable(cfg, x, h)
  {
  }

  /** x asks v, v answers, and both forget it. */
  lemma {:induction false} CollectsVote(cfg: Config, c: State, x: NodeId, v: NodeId, care: Care) returns (net: set<Message>)
    requires ValidConfig(cfg) && Quorum(cfg) > 1 && Lossy(care) && Reached(cfg, c, care) && AllFresh(cfg, c)
    requires x in cfg.voters && v in cfg.voters && x != v
    ensures Reached(cfg, c.(net := net), care) && c.net <= net && GrantMsg(v, x, 1) in net
  {
    hide Reached;
    hide FreshHost;
    hide Blank;
    hide Stands;
    hide Answered;
    hide Forgettable;
    FreshIsBlank(x, cfg);
    FreshIsBlank(v, cfg);
    assert x in Elements(cfg.voters) && v in Elements(cfg.voters);
    var h := Asks(cfg, c, x, v, care);
    StandingForgets(cfg, x, 1, h);
    var c1 := State(c.hosts[x := h], c.net + {Ask(x, v, 1)});
    Answers(cfg, c1, v, Ask(x, v, 1), care);
    var c2 := State(c1.hosts[v := Answered(cfg, v, x, 1, [])], c1.net + {GrantMsg(v, x, 1)});
    AnsweredForgets(cfg, v, x, 1);
    Forgets(cfg, c2, x, care);
    var c3 := c2.(hosts := c2.hosts[x := FreshHost(x, cfg)]);
    Forgets(cfg, c3, v, care);
    net := c2.net;
    SameFresh(cfg, c, c3.hosts[v := FreshHost(v, cfg)]);
  }

  /** Votes of the first k voters for x are on their way. */
  ghost predicate VotesOf(cfg: Config, x: NodeId, k: nat, net: set<Message>)
    requires k <= |cfg.voters|
  {
    forall i :: 0 <= i < k && cfg.voters[i] != x ==> GrantMsg(cfg.voters[i], x, 1) in net
  }

  lemma {:induction false} CollectsVotes(cfg: Config, c: State, x: NodeId, k: nat, care: Care) returns (net: set<Message>)
    requires ValidConfig(cfg) && Quorum(cfg) > 1 && Lossy(care) && Reached(cfg, c, care) && AllFresh(cfg, c) && x in cfg.voters
    requires k <= |cfg.voters|
    ensures Reached(cfg, c.(net := net), care) && c.net <= net && VotesOf(cfg, x, k, net)
    decreases k
  {
    hide Reached;
    hide FreshHost;
    if k == 0 {
      net := c.net;
    } else {
      net := CollectsVotes(cfg, c, x, k - 1, care);
      if cfg.voters[k - 1] != x { net := CollectsVote(cfg, c.(net := net), x, cfg.voters[k - 1], care); }
    }
  }

  // ----- x is elected -----

  /** Candidate x of term 1 with these votes counted. */
  ghost predicate StandsWith(cfg: Config, x: NodeId, votes: seq<NodeId>, h: Host) {
    h == Host(Node(x, cfg, 1, x, Candidate, 0, votes, EMPTY, map[], h.node.msgs, 0, 0), Disk(0, 0, []), Idle)
  }

  ghost predicate LeadsOne(cfg: Config, x: NodeId, h: Host) {
    && h.phase.Idle? && h.node.id == x && h.node.cfg == cfg && h.node.role == Leader && h.node.term == 1
    && h.node.log == EMPTY && h.disk.file == []
  }

  lemma {:induction false} OfficeWithoutLog(n: Node)
    requires n.log == EMPTY
    ensures var n' := BecomeLeader(n); n'.id == n.id && n'.cfg == n.cfg && n'.role == Leader && n'.term == n.term && n'.log == EMPTY
  {
    hide Sends;
    hide AfterSend;
    hide NodeSpec.Batch;
    hide FreshProgress;
  }

  /** One more vote: still a candidate, or elected. */
  lemma {:induction false} CountsOne(cfg: Config, x: NodeId, votes: seq<NodeId>, v: NodeId, h: Host)
    requires StandsWith(cfg, x, votes, h) && v !in votes
    ensures var h' := HostAfter(h, Deliver(x, GrantMsg(v, x, 1)));
            if |votes| + 1 >= Quorum(cfg) then LeadsOne(cfg, x, h') else StandsWith(cfg, x, votes + [v], h')
  {
    hide BecomeLeader;
    OfficeWithoutLog(h.node.(votes := votes + [v]));
    assert Step(h.node, GrantMsg(v, x, 1)) == PollVote(h.node, v, true);
  }

  lemma {:induction false} SomebodyElse(all: seq<NodeId>, votes: seq<NodeId>) returns (i: nat)
    requires NoRepeats(all) && NoRepeats(votes) && |votes| < |all|
    ensures i < |all| && all[i] !in votes
  {
    DistinctCount(all);
    DistinctCount(votes);
    if forall v :: v in Elements(all) ==> v in Elements(votes) {
      SubsetCount(Elements(all), Elements(votes));
      assert false;
    }
    var v :| v in Elements(all) && v !in Elements(votes);
    i :| i < |all| && all[i] == v;
  }

  /** The votes on their way are counted until they are enough. */
  lemma {:induction false} CountsVotes(cfg: Config, c: State, x: NodeId, votes: seq<NodeId>, h: Host, care: Care) returns (h': Host)
    requires ValidConfig(cfg) && Lossy(care) && x in c.hosts && x in votes && VotesOf(cfg, x, |cfg.voters|, c.net)
    requires Reached(cfg, c.(hosts := c.hosts[x := h]), care) && StandsWith(cfg, x, votes, h)
    requires NoRepeats(votes) && |votes| < Quorum(cfg)
    ensures Reached(cfg, c.(hosts := c.hosts[x := h']), care) && LeadsOne(cfg, x, h')
    decreases Quorum(cfg) - |votes|
  {
    hide Reached;
    hide HostAfter;
    var i := SomebodyElse(cfg.voters, votes);
    var v := cfg.voters[i];
    CountsOne(cfg, x, votes, v, h);
    assert h.phase.Idle?;
    Acts(cfg, c, x, h, Deliver(x, GrantMsg(v, x, 1)), care);
    h' := HostAfter(h, Deliver(x, GrantMsg(v, x, 1)));
    if |votes| + 1 < Quorum(cfg) {
      h' := CountsVotes(cfg, c, x, votes + [v], h', care);
    }
  }

  lemma {:induction false} Campaigns(cfg: Config, x: NodeId)
    requires Quorum(cfg) > 1
    ensures StandsWith(cfg, x, [x], HostAfter(FreshHost(x, cfg), TimerFires(x)))
  {
  }

  /** From a fresh start, with whatever on its way, x comes to lead term 1. */
  lemma {:induction false} Elected(cfg: Config, c: State, x: NodeId, care: Care) returns (c': State)
    requires ValidConfig(cfg) && |cfg.voters| >= 2 && Lossy(care) && Reached(cfg, c, care) && AllFresh(cfg, c) && x in cfg.voters
    ensures Reached(cfg, c', care) && Leads(c', x, 1) && c'.hosts.Keys == c.hosts.Keys && LeadsOne(cfg, x, c'.hosts[x])
    ensures forall z :: z in c.hosts && z != x ==> c'.hosts[z] == c.hosts[z]
  {
    hide Reached;
    var net := CollectsVotes(cfg, c, x, |cfg.voters|, care);
    var c1 := c.(net := net);
    assert x in Elements(cfg.voters);
    Campaigns(cfg, x);
    assert c1.hosts[x].phase.Idle?;
    hide HostAfter;
    hide FreshHost;
    var h := HostAfter(c1.hosts[x], TimerFires(x));
    Unchanged(c1, x);
    Acts(cfg, c1, x, c1.hosts[x], TimerFires(x), care);
    hide StandsWith;
    var h' := CountsVotes(cfg, c1, x, [x], h, care);
    c' := c1.(hosts := c1.hosts[x := h']);
  }

  // ----- two leaders -----

  /** A run to c, from which others go on. */
  lemma {:induction false} AnyRun(cfg: Config, c: State) returns (run: seq<State>)
    requires Reached(cfg, c, Carelessly)
    ensures run != [] && run[|run| - 1] == c && Reached(cfg, c, After(run))
  {
    hide IsRun;
    run :| EndsIn(cfg, run, c, Carelessly);
    assert EndsIn(cfg, run, c, After(run));
  }

  /** From a state in which x leads term 1 and the others are fresh, y comes to lead it. */
  lemma {:induction false} AnotherLeads(cfg: Config, c: State, x: NodeId, y: NodeId, care: Care) returns (c': State)
    requires ValidConfig(cfg) && |cfg.voters| >= 2 && Lossy(care) && Reached(cfg, c, care) && y in cfg.voters
    requires c.hosts.Keys == Elements(cfg.voters) && x in c.hosts && LeadsOne(cfg, x, c.hosts[x])
    requires forall z :: z in c.hosts && z != x ==> c.hosts[z] == FreshHost(z, cfg)
    ensures Reached(cfg, c', care) && Leads(c', y, 1)
  {
    hide FreshHost;
    hide Reached;
    LeaderForgets(cfg, x, c.hosts[x]);
    hide LeadsOne;
    hide Forgettable;
    Forgets(cfg, c, x, care);
    var c1 := c.(hosts := c.hosts[x := FreshHost(x, cfg)]);
    c' := Elected(cfg, c1, y, care);
  }

  /** x leads term 1, everybody forgets, and y leads term 1. */
  lemma {:induction false} TwoLeaders(cfg: Config, x: NodeId, y: NodeId) returns (run: seq<State>, i: nat)
    requires ValidConfig(cfg) && |cfg.voters| >= 2 && x in cfg.voters && y in cfg.voters
    ensures IsRun(cfg, run) && i < |run| && Leads(run[i], x, 1) && Leads(run[|run| - 1], y, 1)
  {
    hide FreshHost;
    hide IsRun;
    hide LeadsOne;
    hide Reached;
    var c := Begins(cfg, Carelessly);
    var c1 := Elected(cfg, c, x, Carelessly);
    var past := AnyRun(cfg, c1);
    i := |past| - 1;
    var c2 := AnotherLeads(cfg, c1, x, y, After(past));
    run := RunOf(cfg, c2, After(past));
  }

  lemma {:induction false} LeaderForgets(cfg: Config, x: NodeId, h: Host)
    requires LeadsOne(cfg, x, h)
    ensures Forgettable(cfg, x, h)
  {
  }

  lemma {:induction false} RunOf(cfg: Config, c: State, care: Care) returns (run: seq<State>)
    requires Reached(cfg, c, care) && care.After?
    ensures IsRun(cfg, run) && care.past <= run && run != [] && run[|run| - 1] == c
  {
    hide IsRun;
    run :| EndsIn(cfg, run, c, care);
  }

  // ----- the exact condition -----

  ghost predicate OneLeader(cfg: Config, run: seq<State>, i: nat, j: nat, x: NodeId, y: NodeId, term: nat) {
    IsRun(cfg, run) && i < |run| && j < |run| && Leads(run[i], x, term) && Leads(run[j], y, term) ==> x == y
  }

  /** In any run at all, no term has two leaders. */
  ghost predicate AlwaysOneLeader(cfg: Config) { forall run, i, j, x, y, term :: OneLeader(cfg, run, i, j, x, y, term) }

  lemma {:induction false} OneLeaderExactlyWhen(cfg: Config)
    requires ValidConfig(cfg)
    ensures AlwaysOneLeader(cfg) <==> |cfg.voters| == 1
  {
    if |cfg.voters| == 1 {
      forall run, i: nat, j: nat, x, y, term ensures OneLeader(cfg, run, i, j, x, y, term) {
        if IsRun(cfg, run) && i < |run| && j < |run| {
          SameHosts(cfg, run, i);
          SameHosts(cfg, run, j);
        }
      }
    } else {
      var x, y := cfg.voters[0], cfg.voters[1];
      var run, i := TwoLeaders(cfg, x, y);
      assert !OneLeader(cfg, run, i, |run| - 1, x, y, 1);
    }
  }
}
