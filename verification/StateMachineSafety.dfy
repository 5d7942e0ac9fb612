/** State Machine Safety and Leader Completeness, over every careful run. */
module StateMachineSafety {
  import opened Bytes
  import opened RaftTypes
  import opened LogSpec
  import opened LogTheorems
  import opened NodeSpec
  import opened Cluster
  import opened Canon
  import opened Claims
  import opened Votes
  import opened Replication
  import opened LoneVoter
  import opened RaftSafety
  import opened CarefulRuns
  import opened Commitment
  import opened CommitGrowth
  import opened FollowerSteps
  import opened CarefulFrame
  import opened CarefulCycle
  import opened CarefulNodes
  import opened CarefulDelivery
  import opened CarefulActions

  // ----- what a state of the run showed stays on record -----

  /** Commit indices and entries handed out, by what is committed in the end. */
  ghost predicate CommitsRecorded(cfg: Config, net: set<Message>, chain: Chains, c: State) {
    && (forall x :: x in c.hosts ==>
          var n := c.hosts[x].node; Valid(n.log) && CommitOk(cfg, net, chain, n.term, Logical(n.log), n.log.committed))
    && (forall x, en :: HandsOut(c, x, en) ==> HandedOk(cfg, net, chain, en))
  }

  lemma {:induction false} AccountRecords(cfg: Config, s: Account)
    requires Holds(cfg, s)
    ensures CommitsRecorded(cfg, s.c.net, s.chain, s.c)
  {
    hide Holds;
    forall x | x in s.c.hosts
      ensures HostOk(cfg, s.c.net, s.e, s.chain, x, s.c.hosts[x])
    {
      OneHost(cfg, s, x);
    }
    hide CommitOk;
    hide HandedOk;
    hide MessageOk;
  }

  lemma {:induction false} CommitsStayRecorded(cfg: Config, net: set<Message>, net': set<Message>, chain: Chains, chain': Chains, c: State)
    requires CommitsRecorded(cfg, net, chain, c) && net <= net' && Grows(chain, chain')
    ensures CommitsRecorded(cfg, net', chain', c)
  {
    hide CommitOk;
    hide HandedOk;
    forall x | x in c.hosts
      ensures var n := c.hosts[x].node; CommitOk(cfg, net', chain', n.term, Logical(n.log), n.log.committed)
    {
      var n := c.hosts[x].node;
      CommitGrows(cfg, net, net', chain, chain', n.term, n.term, Logical(n.log), Logical(n.log), n.log.committed);
    }
    forall x, en | HandsOut(c, x, en) ensures HandedOk(cfg, net', chain', en) { HandedGrows(cfg, net, net', chain, chain', en); }
  }

  // ----- runs -----

  lemma {:induction false} AccountStarts(cfg: Config, c: State) returns (s: Account)
    requires ValidConfig(cfg) && Init(cfg, c)
    ensures s.c == c && Holds(cfg, s)
  {
    hide VoteInv;
    hide LogInv;
    s := Account(c, Elections(map[], map[]), map[], []);
    VotesStart(cfg, c);
    LogsStart(cfg, c);
    hide HostOk;
    forall x | x in c.hosts ensures HostOk(cfg, c.net, s.e, s.chain, x, c.hosts[x]) { FreshIsOk(cfg, x, s.e); }
    assert forall x :: x in c.hosts ==> Said(c, x) == {} && Valid(c.hosts[x].node.log);
    hide Valid;
    hide Logical;
    hide HasTerm;
  }

  lemma {:induction false} FreshIsOk(cfg: Config, x: NodeId, e: Elections)
    ensures HostOk(cfg, {}, e, map[], x, FreshHost(x, cfg))
  {
    assert Pending(FreshHost(x, cfg)) == {};
  }

  lemma {:induction false} NetGrows(c: State, a: Action)
    requires Enabled(c, a)
    ensures c.net <= Perform(c, a).net
  {
    hide HostAfter;
  }

  lemma {:induction false} AccountOfRun(cfg: Config, run: seq<State>, k: nat) returns (s: Account)
    requires ValidConfig(cfg) && |cfg.voters| >= 2 && CarefulRun(cfg, run) && k < |run|
    ensures s.c == run[k] && Holds(cfg, s)
    ensures forall i :: 0 <= i <= k ==> LogsRecorded(s.chain, run[i]) && CommitsRecorded(cfg, s.c.net, s.chain, run[i])
  {
    hide Holds;
    hide LogsRecorded;
    hide CommitsRecorded;
    hide VoteInv;
    hide LogInv;
    hide CommitInv;
    if k == 0 {
      s := AccountStarts(cfg, run[0]);
    } else {
      var s0 := AccountOfRun(cfg, run, k - 1);
      var seen := run[..k];
      assert CarefulNext(run, k - 1);
      assert run[..k - 1 + 1] == seen;
      hide Intact;
      hide Clean;
      hide Careful;
      var a :| Enabled(run[k - 1], a) && Intact(run[k - 1], a) && Clean(run[k - 1], a) && Careful(seen, a) && run[k] == Perform(run[k - 1], a);
      s := ActionKeepsCommit(cfg, seen, s0, a);
      NetGrows(run[k - 1], a);
      hide Perform;
      StepGrows(s0.chain, s.chain);
      forall i | 0 <= i < k ensures LogsRecorded(s.chain, run[i]) && CommitsRecorded(cfg, s.c.net, s.chain, run[i]) {
        LogsStayRecorded(s0.chain, s.chain, run[i]);
        CommitsStayRecorded(cfg, s0.c.net, s.c.net, s0.chain, s.chain, run[i]);
      }
    }
    VotesHold(cfg, s);
    InvariantRecords(run[k], s.e, s.chain);
    AccountRecords(cfg, s);
  }

  /** Two committed logs agree as far as both reach. */
  lemma {:induction false} CommittedAgree(cfg: Config, s: Account, u: nat, k: nat, v: nat, l: nat)
    requires ValidConfig(cfg) && Holds(cfg, s) && Committed(cfg, s.c.net, s.chain, u, k) && Committed(cfg, s.c.net, s.chain, v, l) && u <= v
    ensures s.chain[u][..k] <= s.chain[v]
  {
    hide Holds;
    LeaderIsComplete(cfg, s, v);
    assert Has(s.chain, u, k, v);
  }

  lemma {:induction false} HandedAgree(cfg: Config, s: Account, a: Entry, b: Entry)
    requires ValidConfig(cfg) && Holds(cfg, s) && HandedOk(cfg, s.c.net, s.chain, a) && HandedOk(cfg, s.c.net, s.chain, b) && a.index == b.index
    ensures a == b
  {
    hide Holds;
    var u: nat, k: nat :| Committed(cfg, s.c.net, s.chain, u, k) && 1 <= a.index <= k && s.chain[u][a.index - 1] == a;
    var v: nat, l: nat :| Committed(cfg, s.c.net, s.chain, v, l) && 1 <= b.index <= l && s.chain[v][b.index - 1] == b;
    hide Backers;
    if u <= v {
      CommittedAgree(cfg, s, u, k, v, l);
      assert s.chain[u][..k][a.index - 1] == a;
    } else {
      CommittedAgree(cfg, s, v, l, u, k);
      assert s.chain[v][..l][b.index - 1] == b;
    }
  }

  lemma {:induction false} CarefulIsClean(cfg: Config, run: seq<State>)
    requires CarefulRun(cfg, run)
    ensures CleanRun(cfg, run)
  {
    hide Init;
    hide Careful;
    forall k | 0 <= k < |run| - 1 ensures CleanNext(run[k], run[k + 1]) {
      assert CarefulNext(run, k);
    }
  }

  /** State Machine Safety: no two hosts, at whatever moments, hand out different entries at one index. */
  lemma {:induction false} SameEntriesHandedOut(cfg: Config, run: seq<State>, i: nat, j: nat, x: NodeId, y: NodeId, a: Entry, b: Entry)
    requires ValidConfig(cfg) && CarefulRun(cfg, run) && i < |run| && j < |run|
    requires HandsOut(run[i], x, a) && HandsOut(run[j], y, b) && a.index == b.index
    ensures a == b
  {
    if |cfg.voters| == 1 {
      CarefulIsClean(cfg, run);
      NothingIsCommitted(cfg, run, i, x);
    } else {
      HandedOutTwice(cfg, run, i, j, x, y, a, b);
    }
  }

  lemma {:induction false} HandedOutTwice(cfg: Config, run: seq<State>, i: nat, j: nat, x: NodeId, y: NodeId, a: Entry, b: Entry)
    requires ValidConfig(cfg) && |cfg.voters| >= 2 && CarefulRun(cfg, run) && i < |run| && j < |run|
    requires HandsOut(run[i], x, a) && HandsOut(run[j], y, b) && a.index == b.index
    ensures a == b
  {
    var s := AccountOfRun(cfg, run, if i < j then j else i);
    hide Holds;
    hide LogsRecorded;
    assert CommitsRecorded(cfg, s.c.net, s.chain, run[i]) && CommitsRecorded(cfg, s.c.net, s.chain, run[j]);
    hide HandedOk;
    HandedAgree(cfg, s, a, b);
  }

  lemma {:induction false} LeaderHasCommitted(cfg: Config, s: Account, t: nat, term: nat, log: seq<Entry>, i: nat)
    requires Complete(cfg, s.c.net, s.chain, t) && CommitOk(cfg, s.c.net, s.chain, term, log, i) && term <= t && t in s.chain
    ensures i <= |s.chain[t]| && log[..Min(i, |log|)] <= s.chain[t]
  {
    CommittedWithin(cfg, s.c.net, s.chain, term, t, log, i);
    hide Complete;
    hide CommitOk;
    hide CommitKnown;
  }

  /** Leader Completeness: whoever leads a term has everything that was ever committed, on any host, in
      that term or an earlier one. */
  lemma {:induction false} LeaderCompleteness(cfg: Config, run: seq<State>, i: nat, j: nat, x: NodeId, y: NodeId, term: nat)
    requires ValidConfig(cfg) && CarefulRun(cfg, run) && i <= j < |run|
    requires x in run[i].hosts && Leads(run[j], y, term) && run[i].hosts[x].node.term <= term
    ensures Valid(run[i].hosts[x].node.log) && Valid(run[j].hosts[y].node.log)
    ensures var l, lead := run[i].hosts[x].node.log, run[j].hosts[y].node.log;
            l.committed <= LastIndex(lead) && Logical(l)[..Min(l.committed, |Logical(l)|)] <= Logical(lead)
  {
    if |cfg.voters| == 1 {
      CarefulIsClean(cfg, run);
      NothingIsCommitted(cfg, run, i, x);
      NothingIsCommitted(cfg, run, j, y);
    } else {
      LaterLeaderHasIt(cfg, run, i, j, x, y, term);
    }
  }

  lemma {:induction false} LaterLeaderHasIt(cfg: Config, run: seq<State>, i: nat, j: nat, x: NodeId, y: NodeId, term: nat)
    requires ValidConfig(cfg) && |cfg.voters| >= 2 && CarefulRun(cfg, run) && i <= j < |run|
    requires x in run[i].hosts && Leads(run[j], y, term) && run[i].hosts[x].node.term <= term
    ensures Valid(run[i].hosts[x].node.log) && Valid(run[j].hosts[y].node.log)
    ensures var l, lead := run[i].hosts[x].node.log, run[j].hosts[y].node.log;
            l.committed <= LastIndex(lead) && Logical(l)[..Min(l.committed, |Logical(l)|)] <= Logical(lead)
  {
    var s := AccountOfRun(cfg, run, j);
    OneHost(cfg, s, y);
    hide Holds;
    hide LogsRecorded;
    hide HostOk;
    hide HostVotes;
    hide KeepsClaims;
    hide CommitOk;
    hide Canonical;
    assert CommitsRecorded(cfg, s.c.net, s.chain, run[i]);
    var n := run[i].hosts[x].node;
    LeaderIsComplete(cfg, s, term);
    hide Complete;
    LeaderHasCommitted(cfg, s, term, n.term, Logical(n.log), n.log.committed);
    LogicalNumbered(run[j].hosts[y].node.log);
  }
}
