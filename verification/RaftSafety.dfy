/** The safety theorems, over whole runs: any mix of timeouts, deliveries, proposals, Ready cycles
    cut short by crashes at any byte, and a network that loses, duplicates, delays and reorders.
    Election Safety holds in every run in which no crash costs a host its term or vote; the theorems
    about logs where, besides, no host writes entries behind a piece of a record. */
module RaftSafety {
  import opened RaftTypes
  import opened LogSpec
  import opened WalSpec
  import opened NodeSpec
  import opened Cluster
  import opened Canon
  import opened Claims
  import opened Votes
  import opened ElectionSteps
  import opened Replication
  import opened ReplicationSteps
  import opened LoneVoter

  // ----- one record for a whole run -----

  /** The record accounts for the leaders of a state. */
  ghost predicate LeadersRecorded(e: Elections, c: State) {
    forall x :: x in c.hosts && c.hosts[x].node.role == Leader ==>
      c.hosts[x].node.term in e.winner && e.winner[c.hosts[x].node.term] == x
  }

  /** The chains account for the logs of a state. */
  ghost predicate LogsRecorded(chain: Chains, c: State) {
    forall x :: x in c.hosts ==>
      var n := c.hosts[x].node;
      LogOk(chain, n.log) && (n.role == Leader ==> n.term in chain && Logical(n.log) <= chain[n.term])
  }

  lemma {:induction false} VotesRecord(cfg: Config, c: State, e: Elections)
    requires VoteInv(cfg, c, e)
    ensures LeadersRecorded(e, c)
  {
    forall x | x in c.hosts ensures HostVotes(cfg, c.net, e, x, c.hosts[x]) {}
  }

  lemma {:induction false} LeadersStayRecorded(e: Elections, e': Elections, c: State)
    requires LeadersRecorded(e, c) && WinnersStay(e, e')
    ensures LeadersRecorded(e', c)
  {
  }

  lemma {:induction false} InvariantRecords(c: State, e: Elections, chain: Chains)
    requires LogInv(c, e, chain)
    ensures LogsRecorded(chain, c)
  {
    forall x | x in c.hosts ensures HostLog(chain, c.hosts[x]) {}
  }

  lemma {:induction false} LogsStayRecorded(chain: Chains, chain': Chains, c: State)
    requires LogsRecorded(chain, c) && Grows(chain, chain')
    ensures LogsRecorded(chain', c)
  {
    forall x | x in c.hosts ensures LogOk(chain', c.hosts[x].node.log) {
      LogOkGrows(chain, chain', c.hosts[x].node.log);
    }
  }

  /** One record accounts for every leader of a run up to k. */
  lemma {:induction false} RecordOfRun(cfg: Config, run: seq<State>, k: nat) returns (e: Elections)
    requires ValidConfig(cfg) && |cfg.voters| >= 2 && IntactRun(cfg, run) && k < |run|
    ensures VoteInv(cfg, run[k], e)
    ensures forall i :: 0 <= i <= k ==> LeadersRecorded(e, run[i])
  {
    if k == 0 {
      e := Elections(map[], map[]);
      VotesStart(cfg, run[0]);
    } else {
      var before := RecordOfRun(cfg, run, k - 1);
      assert IntactNext(run[k - 1], run[k - 1 + 1]);
      var a :| Enabled(run[k - 1], a) && Intact(run[k - 1], a) && run[k] == Perform(run[k - 1], a);
      e := ElectionsAfter(run[k - 1], before, a);
      ActionKeepsVotes(cfg, run[k - 1], before, a);
      hide Perform;
      hide VoteInv;
      hide LeadersRecorded;
      hide ElectionsAfter;
      forall i | 0 <= i < k ensures LeadersRecorded(e, run[i]) {
        LeadersStayRecorded(before, e, run[i]);
      }
    }
    VotesRecord(cfg, run[k], e);
  }

  /** One set of chains accounts for every log of a clean run up to k. */
  lemma {:induction false} ChainsOfRun(cfg: Config, run: seq<State>, k: nat) returns (e: Elections, chain: Chains)
    requires ValidConfig(cfg) && |cfg.voters| >= 2 && CleanRun(cfg, run) && k < |run|
    ensures VoteInv(cfg, run[k], e) && LogInv(run[k], e, chain)
    ensures forall i :: 0 <= i <= k ==> LogsRecorded(chain, run[i])
  {
    if k == 0 {
      e, chain := Elections(map[], map[]), map[];
      VotesStart(cfg, run[0]);
      LogsStart(cfg, run[0]);
    } else {
      var e0, chain0 := ChainsOfRun(cfg, run, k - 1);
      assert CleanNext(run[k - 1], run[k - 1 + 1]);
      var a :| Enabled(run[k - 1], a) && Intact(run[k - 1], a) && Clean(run[k - 1], a) && run[k] == Perform(run[k - 1], a);
      e := ElectionsAfter(run[k - 1], e0, a);
      ActionKeepsVotes(cfg, run[k - 1], e0, a);
      chain := ActionKeepsLogs(cfg, run[k - 1], e0, chain0, a);
      StepGrows(chain0, chain);
      hide Perform;
      hide VoteInv;
      hide LogInv;
      hide LogsRecorded;
      forall i | 0 <= i < k ensures LogsRecorded(chain, run[i]) {
        LogsStayRecorded(chain0, chain, run[i]);
      }
    }
    InvariantRecords(run[k], e, chain);
  }

  /** Nobody joins and nobody leaves. */
  lemma {:induction false} SameHosts(cfg: Config, run: seq<State>, k: nat)
    requires IsRun(cfg, run) && k < |run|
    ensures run[k].hosts.Keys == Elements(cfg.voters)
  {
    if k > 0 {
      SameHosts(cfg, run, k - 1);
      assert Next(run[k - 1], run[k - 1 + 1]);
    }
  }

  lemma {:induction false} CleanIsIntact(cfg: Config, run: seq<State>)
    ensures IntactRun(cfg, run) ==> IsRun(cfg, run)
    ensures CleanRun(cfg, run) ==> IntactRun(cfg, run)
  {
    if IntactRun(cfg, run) {
      forall k | 0 <= k < |run| - 1 ensures Next(run[k], run[k + 1]) { assert IntactNext(run[k], run[k + 1]); }
    }
    if CleanRun(cfg, run) {
      forall k | 0 <= k < |run| - 1 ensures IntactNext(run[k], run[k + 1]) { assert CleanNext(run[k], run[k + 1]); }
    }
  }

  // ----- Election Safety -----

  /** No two nodes are ever leader in the same term, at the same time or not, whatever the log files hold. */
  lemma {:induction false} ElectionSafety(cfg: Config, run: seq<State>, i: nat, j: nat, x: NodeId, y: NodeId, term: nat)
    requires ValidConfig(cfg) && IntactRun(cfg, run) && i < |run| && j < |run|
    requires Leads(run[i], x, term) && Leads(run[j], y, term)
    ensures x == y
  {
    CleanIsIntact(cfg, run);
    hide IntactRun;
    hide VoteInv;
    SameHosts(cfg, run, i);
    SameHosts(cfg, run, j);
    if |cfg.voters| == 1 {
      assert x == cfg.voters[0] && y == cfg.voters[0];
    } else {
      var e := RecordOfRun(cfg, run, |run| - 1);
      assert LeadersRecorded(e, run[i]) && LeadersRecorded(e, run[j]);
    }
  }

  // ----- Log Matching -----

  /** Log Matching over time: the log of any node at any moment, and what it has stored, match the
      log of any node at any other moment. */
  lemma {:induction false} LogsEverMatch(cfg: Config, run: seq<State>, i: nat, j: nat, x: NodeId, y: NodeId)
    requires ValidConfig(cfg) && |cfg.voters| >= 2 && CleanRun(cfg, run) && i < |run| && j < |run|
    requires x in run[i].hosts && y in run[j].hosts
    ensures var a, b := run[i].hosts[x].node.log, run[j].hosts[y].node.log;
            && Valid(a) && Valid(b)
            && LogsMatch(Logical(a), Logical(b)) && LogsMatch(a.stored, Logical(b)) && LogsMatch(a.stored, b.stored)
  {
    var e, chain := ChainsOfRun(cfg, run, |run| - 1);
    assert LogsRecorded(chain, run[i]) && LogsRecorded(chain, run[j]);
    var a, b := run[i].hosts[x].node.log, run[j].hosts[y].node.log;
    CanonicalLogsMatch(chain, Logical(a), Logical(b));
    CanonicalLogsMatch(chain, a.stored, Logical(b));
    CanonicalLogsMatch(chain, a.stored, b.stored);
  }

  /** Log Matching: in every state of a clean run any two nodes' logs match. */
  lemma {:induction false} LogMatching(cfg: Config, run: seq<State>, i: nat, x: NodeId, y: NodeId)
    requires ValidConfig(cfg) && CleanRun(cfg, run) && i < |run|
    requires x in run[i].hosts && y in run[i].hosts && x != y
    ensures Valid(run[i].hosts[x].node.log) && Valid(run[i].hosts[y].node.log)
    ensures LogsMatch(Logical(run[i].hosts[x].node.log), Logical(run[i].hosts[y].node.log))
  {
    CleanIsIntact(cfg, run);
    SameHosts(cfg, run, i);
    assert x in cfg.voters && y in cfg.voters;
    LogsEverMatch(cfg, run, i, i, x, y);
  }

  /** At every moment of a clean run, a restart would read back exactly the stored log. */
  lemma {:induction false} RestartReadsStoredLog(cfg: Config, run: seq<State>, i: nat, x: NodeId)
    requires ValidConfig(cfg) && CleanRun(cfg, run) && i < |run| && x in run[i].hosts
    ensures Replay(run[i].hosts[x].disk.file) == [DUMMY] + run[i].hosts[x].node.log.stored
  {
    var h := run[i].hosts[x];
    if |cfg.voters| == 1 {
      LoneRun(cfg, run, i);
      assert LoneHost(cfg, h);
    } else {
      var e, chain := ChainsOfRun(cfg, run, i);
      assert HostLog(chain, h);
    }
    hide LoneInv;
    hide LogInv;
    hide VoteInv;
    RecoversReplays(h.disk.file, Vector(h.node.log));
  }

  /** Leader Append-Only: between two moments at which a node leads the same term its log only grew. */
  lemma {:induction false} LeaderAppendOnly(cfg: Config, run: seq<State>, i: nat, j: nat, x: NodeId, term: nat)
    requires ValidConfig(cfg) && |cfg.voters| >= 2 && CleanRun(cfg, run) && i <= j < |run|
    requires Leads(run[i], x, term) && Leads(run[j], x, term)
    ensures Valid(run[i].hosts[x].node.log) && Valid(run[j].hosts[x].node.log)
    ensures Logical(run[i].hosts[x].node.log) <= Logical(run[j].hosts[x].node.log)
  {
    var e, chain := ChainsOfRun(cfg, run, j);
    assert LogsRecorded(chain, run[i]);
    assert HostLog(chain, run[j].hosts[x]);
  }
}
