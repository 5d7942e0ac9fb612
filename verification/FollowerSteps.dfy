/** What a node does out of office keeps the invariant about commitment, if it is careful. */
module FollowerSteps {
  import opened Bytes
  import opened RaftTypes
  import opened LogSpec
  import opened LogTheorems
  import opened NodeSpec
  import opened Canon
  import opened AppendSteps
  import opened Claims
  import opened CarefulRuns
  import opened Votes
  import opened Commitment
  import opened LeaderSteps
  import opened CommitGrowth

  /** Term t's leader has everything committed up to its term. */
  ghost predicate Complete(cfg: Config, net: set<Message>, chain: Chains, t: nat) {
    t in chain ==> forall u: nat, k: nat :: Committed(cfg, net, chain, u, k) && u <= t ==> Has(chain, u, k, t)
  }

  /** Where the heartbeat's leader has a log at all, it has the same term at the index that is committed. */
  ghost predicate HeartbeatAgrees(chain: Chains, n: Node, m: Message) {
    m.commit > n.log.committed ==>
      var i := Min(m.commit, LastIndex(n.log));
      i == 0 || (m.term in chain && i <= |chain[m.term]| && chain[m.term][i - 1].term == TermAt(n.log, i))
  }

  /** The new node is in order, and so is what it has to say. */
  ghost predicate WellDone(cfg: Config, net: set<Message>, e: Elections, chain: Chains, n: Node, n': Node) {
    && NodeOk(cfg, net, e, chain, n') && n'.id == n.id
    && forall m :: m in n'.msgs ==> m in n.msgs || MaySend(cfg, net, e, chain, n', m)
  }

  lemma {:induction false} MessageRelates(e: Elections, chain: Chains, l: Log, m: Message)
    requires LogOk(chain, l) && ChainsOk(chain) && AppendOk(e, chain, m) && m.typ == MsgApp
    ensures Related(l, chain[m.term], m.index, m.logTerm, m.entries)
  {
    CanonicalLogsMatch(chain, Logical(l), chain[m.term]);
    CanonicalLogsMatch(chain, l.stored, chain[m.term]);
  }

  lemma {:induction false} CarefulParts(n: Node, m: Message)
    requires CarefulAppend(n, m)
    ensures CarefulEnd(n.log, m.index, m.logTerm, m.entries) && CarefulOf(n.log, m.index, m.logTerm, m.entries, n.log.committed)
    ensures forall g :: g in n.msgs && IsClaim(g) ==> CarefulOf(n.log, m.index, m.logTerm, m.entries, End(g))
  {
    hide ConflictPos;
    hide TermAt;
  }

  // ----- the commit index -----

  /** A commit index inside what the logs share. */
  lemma {:induction false} SharedCommit(cfg: Config, net: set<Message>, chain: Chains, t: nat, log: seq<Entry>, i: nat, c: nat)
    requires t in chain && Complete(cfg, net, chain, t) && CommitKnown(cfg, net, chain, t, c) && i <= c
    requires WithinLeader(log, chain[t], i)
    ensures CommitOk(cfg, net, chain, t, log, i)
  {
    if i != 0 {
      var u: nat, k: nat :| Committed(cfg, net, chain, u, k) && u <= t && c <= k;
      assert Has(chain, u, k, t);
      hide Committed;
      assert log[..Min(i, |log|)] <= chain[u] by {
        assert chain[u][..k] == chain[t][..k];
        var p := log[..Min(i, |log|)];
        assert p == chain[t][..|p|] == chain[t][..k][..|p|];
      }
    }
  }

  /** What the node has committed lies within any later leader's log. */
  lemma {:induction false} CommittedWithin(cfg: Config, net: set<Message>, chain: Chains, term: nat, t: nat, log: seq<Entry>, i: nat)
    requires CommitOk(cfg, net, chain, term, log, i) && term <= t && t in chain && Complete(cfg, net, chain, t)
    ensures i <= |chain[t]| && WithinLeader(log, chain[t], i) && CommitKnown(cfg, net, chain, t, i)
  {
    if i != 0 {
      var u: nat, k: nat :| Committed(cfg, net, chain, u, k) && u <= term && i <= k && log[..Min(i, |log|)] <= chain[u];
      assert Has(chain, u, k, t);
      hide Committed;
      var p := log[..Min(i, |log|)];
      assert p == chain[u][..|p|] == chain[u][..k][..|p|];
      assert chain[u][..k] == chain[t][..k];
    }
  }

  lemma {:induction false} AppendCommit(cfg: Config, net: set<Message>, e: Elections, chain: Chains, n: Node, m: Message)
    requires NodeOk(cfg, net, e, chain, n) && LogOk(chain, n.log) && ChainsOk(chain) && n.term <= m.term
    requires MessageOk(cfg, net, e, chain, m) && m.typ == MsgApp && CarefulAppend(n, m) && Complete(cfg, net, chain, m.term)
    ensures var l' := MaybeAppend(n.log, m.index, m.logTerm, m.commit, m.entries).0;
            Valid(l') && CommitOk(cfg, net, chain, m.term, Logical(l'), l'.committed)
  {
    var l, t := n.log, m.term;
    var l' := MaybeAppend(l, m.index, m.logTerm, m.commit, m.entries).0;
    MessageRelates(e, chain, l, m);
    CarefulParts(n, m);
    CommittedWithin(cfg, net, chain, n.term, t, Logical(l), l.committed);
    hide Related;
    hide CarefulAppend;
    hide CarefulEnd;
    hide CarefulOf;
    hide LogOk;
    hide CommitOk;
    hide Complete;
    CarefulWithin(l, chain[t], m.index, m.logTerm, m.commit, m.entries, l.committed);
    AcceptedAgrees(l, chain[t], m.index, m.logTerm, m.commit, m.entries);
    if l'.committed == l.committed {
      SharedCommit(cfg, net, chain, t, Logical(l'), l.committed, l.committed);
    } else {
      RaisedCommit(l, m.index, m.logTerm, m.commit, m.entries);
      hide MaybeAppend;
      assert WithinLeader(Logical(l'), chain[t], l'.committed);
      SharedCommit(cfg, net, chain, t, Logical(l'), l'.committed, m.commit);
    }
  }

  lemma {:induction false} RaisedCommit(l: Log, prev: nat, prevTerm: nat, commit: nat, es: seq<Entry>)
    requires MaybeAppend(l, prev, prevTerm, commit, es).0.committed != l.committed
    ensures var (l', ok) := MaybeAppend(l, prev, prevTerm, commit, es);
            ok && l'.committed == Min(commit, prev + |es|) && commit > l.committed
  {
    hide ConflictPos;
  }

  lemma {:induction false} HeartbeatCommit(cfg: Config, net: set<Message>, e: Elections, chain: Chains, n: Node, m: Message)
    requires NodeOk(cfg, net, e, chain, n) && LogOk(chain, n.log) && ChainsOk(chain) && n.term <= m.term
    requires MessageOk(cfg, net, e, chain, m) && m.typ == MsgHeartbeat && HeartbeatAgrees(chain, n, m) && Complete(cfg, net, chain, m.term)
    ensures CommitOk(cfg, net, chain, m.term, Logical(n.log), CommitTo(n.log, m.commit).committed)
  {
    var l, t := n.log, m.term;
    var i := CommitTo(l, m.commit).committed;
    LogicalNumbered(l);
    if i == l.committed {
      CommitGrows(cfg, net, net, chain, chain, n.term, t, Logical(l), Logical(l), i);
    } else if i != 0 {
      TermRefines(l, i);
      SameTermSamePrefix(chain, Logical(l), chain[t], i);
      hide CommitOk;
      assert WithinLeader(Logical(l), chain[t], i);
      SharedCommit(cfg, net, chain, t, Logical(l), i, m.commit);
    }
  }

  // ----- one step -----

  lemma {:induction false} ReplyMaySend(cfg: Config, net: set<Message>, e: Elections, chain: Chains, n: Node, n': Node, m: Message)
    requires MessageOk(cfg, net, e, chain, m) && m in net && m.typ == MsgApp && m.term == n.term && n'.id == n.id && n'.term == n.term
    ensures MaySend(cfg, net, e, chain, n', AppendReply(n, m))
  {
    hide MaybeAppend;
    hide CommitKnown;
    hide LastIndex;
  }

  lemma {:induction false} TakeAppend(cfg: Config, net: set<Message>, e: Elections, chain: Chains, n: Node, m: Message)
    requires NodeOk(cfg, net, e, chain, n) && LogOk(chain, n.log) && ChainsOk(chain) && n.role == Follower && m.term == n.term
    requires MessageOk(cfg, net, e, chain, m) && m in net && m.typ == MsgApp && CarefulAppend(n, m) && Complete(cfg, net, chain, m.term)
    ensures WellDone(cfg, net, e, chain, n, StepFollower(n, m))
  {
    AppendCommit(cfg, net, e, chain, n, m);
    ReplyMaySend(cfg, net, e, chain, n, StepFollower(n, m), m);
    hide MaybeAppend;
    hide AppendReply;
    hide MessageOk;
    hide CommitOk;
  }

  /** Everything a follower does with a message of its term. */
  lemma {:induction false} FollowerDoesWell(cfg: Config, net: set<Message>, e: Elections, chain: Chains, n: Node, m: Message)
    requires NodeOk(cfg, net, e, chain, n) && LogOk(chain, n.log) && ChainsOk(chain) && n.role == Follower && m.term == n.term
    requires MessageOk(cfg, net, e, chain, m) && m in net && Complete(cfg, net, chain, m.term)
    requires (m.typ == MsgApp ==> CarefulAppend(n, m)) && (m.typ == MsgHeartbeat ==> HeartbeatAgrees(chain, n, m))
    ensures WellDone(cfg, net, e, chain, n, StepFollower(n, m))
  {
    if m.typ == MsgApp {
      TakeAppend(cfg, net, e, chain, n, m);
    } else {
      if m.typ == MsgHeartbeat { HeartbeatCommit(cfg, net, e, chain, n, m); }
      hide CommitOk;
      hide GrantsVote;
      hide LogOk;
      hide CommitKnown;
    }
  }
}
