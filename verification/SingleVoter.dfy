/** Matching over time holds exactly for clusters of two or more voters.  A lone voter takes office
    before its term is on disk, so after a crash it leads the same term again, with another log. */
module SingleVoter {
  import opened Bytes
  import opened RaftTypes
  import opened LogSpec
  import opened NodeSpec
  import opened Cluster
  import opened RaftSafety

  ghost predicate InRun(cfg: Config, run: seq<State>, i: nat, x: NodeId) {
    CleanRun(cfg, run) && i < |run| && x in run[i].hosts && Valid(run[i].hosts[x].node.log)
  }

  ghost predicate MatchBetween(cfg: Config, run: seq<State>, i: nat, j: nat, x: NodeId, y: NodeId) {
    InRun(cfg, run, i, x) && InRun(cfg, run, j, y) ==>
      LogsMatch(Logical(run[i].hosts[x].node.log), Logical(run[j].hosts[y].node.log))
  }

  ghost predicate GrowsBetween(cfg: Config, run: seq<State>, i: nat, j: nat, x: NodeId, term: nat) {
    InRun(cfg, run, i, x) && InRun(cfg, run, j, x) && i <= j && Leads(run[i], x, term) && Leads(run[j], x, term) ==>
      Logical(run[i].hosts[x].node.log) <= Logical(run[j].hosts[x].node.log)
  }

  /** Any two logs of any clean run match. */
  ghost predicate AlwaysMatch(cfg: Config) { forall run, i, j, x, y :: MatchBetween(cfg, run, i, j, x, y) }

  /** In any clean run, a leader's log only grows within its term. */
  ghost predicate AlwaysAppendOnly(cfg: Config) { forall run, i, j, x, term :: GrowsBetween(cfg, run, i, j, x, term) }

  // ----- the run of a lone voter -----

  lemma {:induction false} LoneVoterLeads(x: NodeId, cfg: Config)
    requires cfg.voters == [x]
    ensures var n := Timeout(Boot(x, cfg, 0, 0, []));
            n.role == Leader && n.term == 1 && n.id == x && n.cfg == cfg && x in n.pr && n.log == Log([], 0, [], 0, 0)
  {
  }

  lemma {:induction false} LoneProposal(n: Node, data: seq<Byte>)
    requires n.role == Leader && n.term == 1 && n.id in n.pr && n.log == Log([], 0, [], 0, 0)
    ensures var n' := Propose(n, data);
            && n'.role == Leader && n'.term == 1 && n'.id == n.id && n'.cfg == n.cfg
            && n'.log == Log([], 1, [Entry(1, 1, 0, data)], 0, 0)
  {
  }

  function Alone(x: NodeId, h: Host): State { State(map[x := h], {}) }

  lemma {:induction false} OneStep(x: NodeId, h: Host, a: Action)
    requires a.TimerFires? || a.ClientProposes? || a.Crash?
    requires a.x == x && (a.TimerFires? ==> h.phase.Idle?)
    ensures CleanNext(Alone(x, h), Alone(x, HostAfter(h, a)))
  {
    assert Enabled(Alone(x, h), a);
    assert Perform(Alone(x, h), a).hosts == map[x := HostAfter(h, a)];
  }

  lemma {:induction false} SixStates(cfg: Config, s0: State, s1: State, s2: State, s5: State)
    requires Init(cfg, s0) && CleanNext(s0, s1) && CleanNext(s1, s2) && CleanNext(s2, s0) && CleanNext(s1, s5)
    ensures CleanRun(cfg, [s0, s1, s2, s0, s1, s5])
  {
    hide CleanNext;
    hide Init;
    var run := [s0, s1, s2, s0, s1, s5];
    forall k | 0 <= k < |run| - 1 ensures CleanNext(run[k], run[k + 1]) {
      assert k == 0 || k == 1 || k == 2 || k == 3 || k == 4;
    }
  }

  /** A lone voter's host once elected, and after a proposal. */
  ghost function Elected(x: NodeId, cfg: Config): Host { HostAfter(FreshHost(x, cfg), TimerFires(x)) }

  ghost function Proposed(x: NodeId, cfg: Config, data: seq<Byte>): Host { HostAfter(Elected(x, cfg), ClientProposes(x, data)) }

  lemma {:induction false} ProposedHost(x: NodeId, cfg: Config, data: seq<Byte>)
    requires cfg.voters == [x]
    ensures var h := Proposed(x, cfg, data);
            && h.node.role == Leader && h.node.term == 1 && h.node.log == Log([], 1, [Entry(1, 1, 0, data)], 0, 0)
            && HostAfter(h, Crash(x)) == FreshHost(x, cfg)
  {
    LoneVoterLeads(x, cfg);
    LoneProposal(Elected(x, cfg).node, data);
    hide Timeout;
    hide Propose;
  }

  /** Elected, one proposal, crash, elected again, another proposal. */
  ghost function TwiceElected(x: NodeId, cfg: Config): seq<State> {
    [Alone(x, FreshHost(x, cfg)), Alone(x, Elected(x, cfg)), Alone(x, Proposed(x, cfg, [0])),
     Alone(x, FreshHost(x, cfg)), Alone(x, Elected(x, cfg)), Alone(x, Proposed(x, cfg, [1]))]
  }

  lemma {:induction false} TwiceElectedIsRun(x: NodeId, cfg: Config)
    requires cfg.voters == [x]
    ensures CleanRun(cfg, TwiceElected(x, cfg))
  {
    assert Init(cfg, Alone(x, FreshHost(x, cfg)));
    ProposedHost(x, cfg, [0]);
    OneStep(x, FreshHost(x, cfg), TimerFires(x));
    hide Timeout;
    hide Propose;
    OneStep(x, Elected(x, cfg), ClientProposes(x, [0]));
    OneStep(x, Elected(x, cfg), ClientProposes(x, [1]));
    OneStep(x, Proposed(x, cfg, [0]), Crash(x));
    hide HostAfter;
    hide CleanNext;
    hide Init;
    SixStates(cfg, Alone(x, FreshHost(x, cfg)), Alone(x, Elected(x, cfg)), Alone(x, Proposed(x, cfg, [0])), Alone(x, Proposed(x, cfg, [1])));
  }

  lemma {:induction false} LogsDiffer(a: Log, b: Log)
    requires a == Log([], 1, [Entry(1, 1, 0, [0])], 0, 0) && b == Log([], 1, [Entry(1, 1, 0, [1])], 0, 0)
    ensures Valid(a) && Valid(b) && !LogsMatch(Logical(a), Logical(b)) && !(Logical(a) <= Logical(b))
  {
    var ea, eb := Logical(a), Logical(b);
    assert ea[0].data[0] != eb[0].data[0];
    assert ea[..1][0] == ea[0] && eb[..1][0] == eb[0];
  }

  lemma {:induction false} TwoLogsOfOneTerm(cfg: Config, run: seq<State>, x: NodeId, i: nat, j: nat)
    requires CleanRun(cfg, run) && i <= j < |run| && Leads(run[i], x, 1) && Leads(run[j], x, 1)
    requires run[i].hosts[x].node.log == Log([], 1, [Entry(1, 1, 0, [0])], 0, 0)
    requires run[j].hosts[x].node.log == Log([], 1, [Entry(1, 1, 0, [1])], 0, 0)
    ensures !MatchBetween(cfg, run, i, j, x, x) && !GrowsBetween(cfg, run, i, j, x, 1)
  {
    hide CleanRun;
    LogsDiffer(run[i].hosts[x].node.log, run[j].hosts[x].node.log);
    hide LogsMatch;
    hide Logical;
    hide Valid;
  }

  lemma {:induction false} SecondAndLast(x: NodeId, cfg: Config)
    ensures var run := TwiceElected(x, cfg);
            |run| == 6 && run[2] == Alone(x, Proposed(x, cfg, [0])) && run[5] == Alone(x, Proposed(x, cfg, [1]))
  {
    hide Proposed;
    hide Elected;
    hide FreshHost;
  }

  lemma {:induction false} LoneVoterBreaksBoth(cfg: Config)
    requires |cfg.voters| == 1
    ensures !AlwaysMatch(cfg) && !AlwaysAppendOnly(cfg)
  {
    var x := cfg.voters[0];
    assert cfg.voters == [x];
    TwiceElectedIsRun(x, cfg);
    ProposedHost(x, cfg, [0]);
    ProposedHost(x, cfg, [1]);
    hide CleanRun;
    hide Proposed;
    hide Elected;
    hide FreshHost;
    hide HostAfter;
    hide TwiceElected;
    hide MatchBetween;
    hide GrowsBetween;
    SecondAndLast(x, cfg);
    TwoLogsOfOneTerm(cfg, TwiceElected(x, cfg), x, 2, 5);
  }

  // ----- the exact condition -----

  lemma {:induction false} MatchesExactlyWhen(cfg: Config)
    requires ValidConfig(cfg)
    ensures AlwaysMatch(cfg) <==> |cfg.voters| >= 2
  {
    if |cfg.voters| == 1 {
      LoneVoterBreaksBoth(cfg);
    } else {
      forall run, i, j, x, y ensures MatchBetween(cfg, run, i, j, x, y) {
        if InRun(cfg, run, i, x) && InRun(cfg, run, j, y) { LogsEverMatch(cfg, run, i, j, x, y); }
      }
    }
  }

  lemma {:induction false} AppendOnlyExactlyWhen(cfg: Config)
    requires ValidConfig(cfg)
    ensures AlwaysAppendOnly(cfg) <==> |cfg.voters| >= 2
  {
    if |cfg.voters| == 1 {
      LoneVoterBreaksBoth(cfg);
    } else {
      forall run, i, j, x, term ensures GrowsBetween(cfg, run, i, j, x, term) {
        if InRun(cfg, run, i, x) && InRun(cfg, run, j, x) && i <= j && Leads(run[i], x, term) && Leads(run[j], x, term) {
          LeaderAppendOnly(cfg, run, i, j, x, term);
        }
      }
    }
  }
}
