/** Every committed entry goes to the state machine once and in its turn.  Between two restarts a host
    hands out entries 1, 2, 3, ... without repeating or skipping one, in every run whose restarts read
    numbered logs. */
module Handout {
  import opened Bytes
  import opened RaftTypes
  import opened LogSpec
  import opened LogTheorems
  import WalSpec
  import opened NodeSpec
  import opened Cluster
  import opened NumberedLogs
  import opened CommitCycle

  /** The run together with the actions that make it. */
  ghost predicate Acted(cfg: Config, run: seq<State>, acts: seq<Action>) {
    && |run| == |acts| + 1
    && Init(cfg, run[0])
    && forall k :: 0 <= k < |acts| ==> Enabled(run[k], acts[k]) && run[k + 1] == Perform(run[k], acts[k])
  }

  /** Every restart of the run reads a numbered log. */
  ghost predicate ReadableRun(cfg: Config, run: seq<State>, acts: seq<Action>) {
    Acted(cfg, run, acts) && forall k :: 0 <= k < |acts| ==> Readable(run[k], acts[k])
  }

  /** Host x does not start again in the actions from i up to j. */
  ghost predicate StaysUp(acts: seq<Action>, x: NodeId, i: nat, j: nat) {
    forall k :: i <= k < j && k < |acts| ==> !(Restarts(acts[k]) && acts[k].x == x)
  }

  /** State i is one in which host x has just started. */
  ghost predicate JustStarted(acts: seq<Action>, x: NodeId, i: nat) {
    i == 0 || (i <= |acts| && Restarts(acts[i - 1]) && acts[i - 1].x == x)
  }

  /** What one action makes host x hand to its state machine. */
  ghost function HandedBy(c': State, a: Action, x: NodeId): seq<Entry> {
    if a == Poll(x) && x in c'.hosts && c'.hosts[x].phase.Polled? then c'.hosts[x].phase.rd.committed else []
  }

  /** Everything host x hands to its state machine from state i to state j, in order. */
  ghost function Handed(run: seq<State>, acts: seq<Action>, x: NodeId, i: nat, j: nat): seq<Entry>
    requires |run| == |acts| + 1 && i <= j < |run|
  {
    if i == j then [] else Handed(run, acts, x, i, j - 1) + HandedBy(run[j], acts[j - 1], x)
  }

  /** Consecutive indices from `first`. */
  ghost predicate InOrder(es: seq<Entry>, first: nat) {
    forall i :: 0 <= i < |es| ==> es[i].index == first + i
  }

  lemma {:induction false} RunHasActions(cfg: Config, run: seq<State>) returns (acts: seq<Action>)
    requires IsRun(cfg, run)
    ensures Acted(cfg, run, acts)
    decreases |run|
  {
    hide Init;
    hide Enabled;
    hide Perform;
    acts := [];
    if |run| > 1 {
      var k := |run| - 2;
      var front := run[..k + 1];
      assert IsRun(cfg, front) by {
        forall i | 0 <= i < |front| - 1 ensures Next(front[i], front[i + 1]) { assert Next(run[i], run[i + 1]); }
      }
      var rest := RunHasActions(cfg, front);
      assert Next(run[k], run[k + 1]);
      var a :| Enabled(run[k], a) && run[k + 1] == Perform(run[k], a);
      acts := rest + [a];
      forall i | 0 <= i < |acts| ensures Enabled(run[i], acts[i]) && run[i + 1] == Perform(run[i], acts[i]) {
        assert i < k ==> acts[i] == rest[i] && front[i] == run[i] && front[i + 1] == run[i + 1];
      }
    }
  }

  // ----- one host -----

  /** The host has handed out entries 1 to `done`; those of the current Ready are the last of them. */
  ghost predicate Progressed(h: Host, done: nat) {
    if h.phase.Idle? then h.node.log.applied == done && h.node.readyApplied == 0
    else
      var es := h.phase.rd.committed;
      && h.node.log.applied + |es| == done
      && InOrder(es, h.node.log.applied + 1)
      && (if es == [] then h.node.readyApplied == 0 else h.node.readyApplied == done <= h.node.log.committed)
      && (es != [] ==> done <= h.phase.rd.commit)
  }

  /** The entries that a poll of the host would read carry the indices of their places in the log. */
  ghost predicate ReadsInOrder(h: Host) { InOrder(NextCommitted(h.node.log), h.node.log.applied + 1) }

  /** However the log looks, no more is handed out than lies up to the commit index. */
  lemma {:induction false} NextIsBounded(l: Log)
    ensures NextCommitted(l) != [] ==> l.applied + |NextCommitted(l)| <= l.committed
  {
    var lo, hi := l.applied + 1, l.committed + 1;
    if lo < hi {
      assert |StoragePart(l, lo, hi, NO_LIMIT)| <= if lo < l.offset then Min(hi, l.offset) - lo else 0;
      assert |WindowPart(l, lo, hi)| <= if hi > l.offset then hi - Max(lo, l.offset) else 0;
      hide StoragePart;
      hide WindowPart;
    }
  }

  /** What there is to apply in a valid log is numbered from the applied index on. */
  lemma {:induction false} ValidReadsInOrder(h: Host)
    requires Valid(h.node.log)
    ensures ReadsInOrder(h)
  {
    hide NextCommitted;
    hide Slice;
    var l := h.node.log;
    if NextCommitted(l) != [] {
      NextIsSlice(l);
      SliceIsPrefix(l, l.applied + 1, l.committed + 1, NO_LIMIT);
      LogicalNumbered(l);
    }
  }

  lemma {:induction false} PollProgresses(h: Host, x: NodeId, done: nat)
    requires h.phase.Idle? && Progressed(h, done)
    ensures var h' := HostAfter(h, Poll(x));
            var es := h'.phase.rd.committed;
            && h'.phase.Polled? && h'.node.log == h.node.log
            && (ReadsInOrder(h) <==> InOrder(es, done + 1)) && (ReadsInOrder(h) ==> Progressed(h', done + |es|))
  {
    hide NextCommitted;
    NextIsBounded(h.node.log);
  }

  lemma {:induction false} FinishProgresses(h: Host, x: NodeId, done: nat)
    requires h.phase.Synced? && Progressed(h, done)
    ensures Progressed(HostAfter(h, Finish(x)), done) && HostAfter(h, Finish(x)).node.log.applied >= h.node.log.applied
  {
  }

  lemma {:induction false} ProposalProgresses(h: Host, data: seq<Byte>, done: nat)
    requires Progressed(h, done)
    ensures Progressed(h.(node := Propose(h.node, data)), done) && Propose(h.node, data).log.applied == h.node.log.applied
  {
    hide Sends;
    hide LastIndex;
  }

  lemma {:induction false} IdleProgresses(h: Host, n': Node, done: nat)
    requires h.phase.Idle? && Progressed(h, done) && SameCycle(h.node, n')
    ensures Progressed(h.(node := n'), done)
  {
  }

  lemma {:induction false} SaveProgresses(h: Host, x: NodeId, done: nat)
    requires h.phase.Polled? && Progressed(h, done)
    ensures Progressed(HostAfter(h, SaveEntries(x)), done) && HostAfter(h, SaveEntries(x)).node.log.applied == h.node.log.applied
  {
    hide FileAfter;
  }

  lemma {:induction false} RestartBegins(h: Host, a: Action)
    requires Restarts(a) && (a.CrashWhileSaving? ==> h.phase.Polled?) && (a.CrashWhileSavingHard? ==> h.phase.Saved?)
    ensures Progressed(HostAfter(h, a), 0)
  {
    hide WalSpec.Replay;
    hide FileAfter;
    hide HardAfter;
  }

  lemma {:induction false} HostProgresses(h: Host, a: Action, done: nat)
    requires Progressed(h, done) && !Restarts(a) && !a.Poll?
    requires (a.TimerFires? || a.Deliver? || a.PeerDown? ==> h.phase.Idle?)
    requires (a.SaveEntries? ==> h.phase.Polled?) && (a.SaveHardState? ==> h.phase.Saved?) && (a.Finish? ==> h.phase.Synced?)
    ensures Progressed(HostAfter(h, a), done) && HostAfter(h, a).node.log.applied >= h.node.log.applied
  {
    hide Timeout;
    hide Step;
    hide Propose;
    hide Persist;
    hide Advance;
    hide FileAfter;
    match a
    case TimerFires(x) => TimeoutKeepsCycle(h.node); IdleProgresses(h, Timeout(h.node), done);
    case Deliver(x, m) => StepKeepsCycle(h.node, m); IdleProgresses(h, Step(h.node, m), done);
    case PeerDown(x, peer) => IdleProgresses(h, Unreachable(h.node, peer), done);
    case ClientProposes(x, data) => ProposalProgresses(h, data, done);
    case SaveEntries(x) => SaveProgresses(h, x, done);
    case SaveHardState(x) =>
    case Finish(x) => FinishProgresses(h, x, done);
    case _ =>
  }

  /** One action of the cluster, seen from host x: what it hands out goes on in order exactly when what
      it reads is in order, and then the account goes on. */
  lemma {:induction false} ActionProgresses(c: State, a: Action, x: NodeId, done: nat)
    requires Enabled(c, a) && x in c.hosts && Progressed(c.hosts[x], done) && !(Restarts(a) && a.x == x)
    ensures var c' := Perform(c, a);
            var es := HandedBy(c', a, x);
            && x in c'.hosts && c'.hosts[x].node.log.applied >= c.hosts[x].node.log.applied
            && (InOrder(es, done + 1) <==> (a == Poll(x) ==> ReadsInOrder(c.hosts[x])))
            && (InOrder(es, done + 1) ==> Progressed(c'.hosts[x], done + |es|))
  {
    hide HostAfter;
    hide Progressed;
    hide ReadsInOrder;
    var h := c.hosts[x];
    if a == Poll(x) {
      PollProgresses(h, x, done);
    } else if !a.ClientSends? && !a.Send? && a.x == x {
      HostProgresses(h, a, done);
    }
  }

  // ----- runs -----

  lemma {:induction false} RunIsSane(cfg: Config, run: seq<State>, acts: seq<Action>, k: nat)
    requires ReadableRun(cfg, run, acts) && k < |run|
    ensures SaneInv(run[k])
  {
    hide SaneInv;
    hide Perform;
    hide Enabled;
    hide Readable;
    if k == 0 {
      InitIsSane(cfg, run[0]);
    } else {
      RunIsSane(cfg, run, acts, k - 1);
      assert Readable(run[k - 1], acts[k - 1]) && run[k - 1 + 1] == Perform(run[k - 1], acts[k - 1]);
      ActionIsSane(run[k - 1], acts[k - 1]);
    }
  }

  /** The state a host has just started in. */
  lemma {:induction false} StartProgressed(cfg: Config, run: seq<State>, acts: seq<Action>, x: NodeId, i: nat)
    requires Acted(cfg, run, acts) && i < |run| && JustStarted(acts, x, i) && x in run[i].hosts
    ensures Progressed(run[i].hosts[x], 0)
  {
    hide HostAfter;
    hide Progressed;
    if i == 0 {
      FreshProgressed(x, cfg);
    } else {
      assert Enabled(run[i - 1], acts[i - 1]) && run[i - 1 + 1] == Perform(run[i - 1], acts[i - 1]);
      RestartBegins(run[i - 1].hosts[x], acts[i - 1]);
    }
  }

  /** In every run a host that has just started follows nobody, has the term, the vote and the log that are on
      its disk, and nothing committed, applied, pending or counted. */
  lemma {:induction false} StartsAfresh(cfg: Config, run: seq<State>, acts: seq<Action>, x: NodeId, i: nat)
    requires Acted(cfg, run, acts) && i < |run| && JustStarted(acts, x, i) && x in run[i].hosts
    ensures var h := run[i].hosts[x];
            && h.phase.Idle? && h.node.role == Follower && h.node.lead == 0 && h.node.votes == [] && h.node.msgs == {} && h.node.pr == map[]
            && h.node.term == h.disk.term && h.node.vote == h.disk.vote
            && h.node.log == Log(WalSpec.Replay(h.disk.file)[1..], 0, [], 0, 0)
  {
    if i == 0 {
      WalSpec.NothingToRead();
      assert WalSpec.Replay([]) == [WalSpec.DUMMY];
    } else {
      hide WalSpec.Replay;
      hide FileAfter;
      hide HardAfter;
      assert Enabled(run[i - 1], acts[i - 1]) && run[i - 1 + 1] == Perform(run[i - 1], acts[i - 1]);
    }
  }

  lemma {:induction false} FreshProgressed(x: NodeId, cfg: Config)
    ensures Progressed(FreshHost(x, cfg), 0)
  {
  }

  /** Every poll of host x in the actions from i up to j reads entries in order. */
  ghost predicate PollsInOrder(run: seq<State>, acts: seq<Action>, x: NodeId, i: nat, j: nat)
    requires |run| == |acts| + 1 && j <= |acts|
  {
    forall k :: i <= k < j && acts[k] == Poll(x) ==> x in run[k].hosts && ReadsInOrder(run[k].hosts[x])
  }

  lemma {:induction false} JoinedInOrder(a: seq<Entry>, b: seq<Entry>, first: nat)
    ensures InOrder(a + b, first) <==> InOrder(a, first) && InOrder(b, first + |a|)
  {
    if InOrder(a + b, first) {
      forall i | 0 <= i < |a| ensures a[i].index == first + i { assert a[i] == (a + b)[i]; }
      forall i | 0 <= i < |b| ensures b[i].index == first + |a| + i { assert b[i] == (a + b)[|a| + i]; }
    }
  }

  lemma {:induction false} OnePollMore(run: seq<State>, acts: seq<Action>, x: NodeId, i: nat, j: nat)
    requires |run| == |acts| + 1 && i < j <= |acts| && x in run[j - 1].hosts
    ensures PollsInOrder(run, acts, x, i, j) <==>
            PollsInOrder(run, acts, x, i, j - 1) && (acts[j - 1] == Poll(x) ==> ReadsInOrder(run[j - 1].hosts[x]))
  {
    hide ReadsInOrder;
  }

  /** In every run: since it started, the host has handed out 1, 2, 3, ... in order exactly when every
      poll read entries in order, and then its Ready is the end of what it handed out. */
  lemma {:induction false} InTurnExactlyWhen(cfg: Config, run: seq<State>, acts: seq<Action>, x: NodeId, i: nat, j: nat)
    requires Acted(cfg, run, acts) && i <= j < |run| && x in run[i].hosts
    requires JustStarted(acts, x, i) && StaysUp(acts, x, i, j)
    ensures x in run[j].hosts
    ensures InOrder(Handed(run, acts, x, i, j), 1) <==> PollsInOrder(run, acts, x, i, j)
    ensures PollsInOrder(run, acts, x, i, j) ==> Progressed(run[j].hosts[x], |Handed(run, acts, x, i, j)|)
  {
    hide Progressed;
    hide HandedBy;
    hide Enabled;
    hide Perform;
    hide Restarts;
    hide ReadsInOrder;
    hide InOrder;
    HostStays(cfg, run, acts, x, i);
    HostStays(cfg, run, acts, x, j);
    if i == j {
      StartProgressed(cfg, run, acts, x, i);
      NoneInOrder(1);
    } else {
      InTurnExactlyWhen(cfg, run, acts, x, i, j - 1);
      var before, es := Handed(run, acts, x, i, j - 1), HandedBy(run[j], acts[j - 1], x);
      JoinedInOrder(before, es, 1);
      OnePollMore(run, acts, x, i, j);
      assert Enabled(run[j - 1], acts[j - 1]) && run[j - 1 + 1] == Perform(run[j - 1], acts[j - 1]);
      hide PollsInOrder;
      if InOrder(before, 1) { ActionProgresses(run[j - 1], acts[j - 1], x, |before|); }
    }
  }

  lemma {:induction false} NoneInOrder(first: nat)
    ensures InOrder([], first)
  {
  }

  lemma {:induction false} HostStays(cfg: Config, run: seq<State>, acts: seq<Action>, x: NodeId, i: nat)
    requires Acted(cfg, run, acts) && i < |run|
    ensures x in run[i].hosts <==> x in run[0].hosts
  {
    hide HostAfter;
    if i > 0 {
      HostStays(cfg, run, acts, x, i - 1);
      assert Enabled(run[i - 1], acts[i - 1]) && run[i - 1 + 1] == Perform(run[i - 1], acts[i - 1]);
    }
  }

  lemma {:induction false} SaneReadsInOrder(c: State, x: NodeId)
    requires SaneInv(c) && x in c.hosts
    ensures ReadsInOrder(c.hosts[x])
  {
    ValidReadsInOrder(c.hosts[x]);
  }

  lemma {:induction false} ReadablePolls(cfg: Config, run: seq<State>, acts: seq<Action>, x: NodeId, i: nat, j: nat)
    requires ReadableRun(cfg, run, acts) && i <= j < |run|
    ensures PollsInOrder(run, acts, x, i, j)
  {
    hide ReadsInOrder;
    hide SaneInv;
    hide Perform;
    hide Readable;
    forall k | i <= k < j && acts[k] == Poll(x) ensures x in run[k].hosts && ReadsInOrder(run[k].hosts[x]) {
      assert Enabled(run[k], acts[k]);
      RunIsSane(cfg, run, acts, k);
      SaneReadsInOrder(run[k], x);
    }
  }

  /** Where restarts read numbered logs, a host has handed out 1, 2, 3, ... in order since it started. */
  lemma {:induction false} HandedInTurn(cfg: Config, run: seq<State>, acts: seq<Action>, x: NodeId, i: nat, j: nat)
    requires ReadableRun(cfg, run, acts) && i <= j < |run| && x in run[i].hosts
    requires JustStarted(acts, x, i) && StaysUp(acts, x, i, j)
    ensures var es := Handed(run, acts, x, i, j);
            x in run[j].hosts && InOrder(es, 1) && Progressed(run[j].hosts[x], |es|)
  {
    hide Readable;
    hide PollsInOrder;
    hide Progressed;
    hide InOrder;
    hide Handed;
    hide Perform;
    hide Enabled;
    ReadablePolls(cfg, run, acts, x, i, j);
    InTurnExactlyWhen(cfg, run, acts, x, i, j);
  }

  // ----- two Readys of one host -----

  /** The last start of host x at or before state i. */
  lemma {:induction false} LastStart(acts: seq<Action>, x: NodeId, i: nat) returns (s: nat)
    requires i <= |acts|
    ensures s <= i && JustStarted(acts, x, s) && StaysUp(acts, x, s, i)
  {
    s := i;
    if !JustStarted(acts, x, i) { s := LastStart(acts, x, i - 1); }
  }

  lemma {:induction false} UpThroughout(acts: seq<Action>, x: NodeId, s: nat, i: nat, j: nat)
    requires s <= i <= j && StaysUp(acts, x, s, i) && StaysUp(acts, x, i, j)
    ensures StaysUp(acts, x, s, j)
  {
    hide Restarts;
  }

  /** More is handed out as the run goes on, and the applied index does not go back. */
  lemma {:induction false} HandedGrows(cfg: Config, run: seq<State>, acts: seq<Action>, x: NodeId, s: nat, i: nat, j: nat)
    requires ReadableRun(cfg, run, acts) && s <= i <= j < |run| && x in run[s].hosts
    requires JustStarted(acts, x, s) && StaysUp(acts, x, s, j)
    ensures Handed(run, acts, x, s, i) <= Handed(run, acts, x, s, j)
    ensures x in run[i].hosts && x in run[j].hosts && run[i].hosts[x].node.log.applied <= run[j].hosts[x].node.log.applied
  {
    hide Enabled;
    hide Perform;
    hide HandedBy;
    hide Progressed;
    hide JustStarted;
    hide Restarts;
    HandedInTurn(cfg, run, acts, x, s, i);
    if i < j {
      HandedGrows(cfg, run, acts, x, s, i, j - 1);
      HandedInTurn(cfg, run, acts, x, s, j - 1);
      assert Enabled(run[j - 1], acts[j - 1]) && run[j - 1 + 1] == Perform(run[j - 1], acts[j - 1]);
      ActionProgresses(run[j - 1], acts[j - 1], x, |Handed(run, acts, x, s, j - 1)|);
    }
  }

  /** An entry of the current Ready lies between what is applied and what has been handed out. */
  lemma {:induction false} InReady(c: State, x: NodeId, en: Entry, done: nat)
    requires HandsOut(c, x, en) && Progressed(c.hosts[x], done)
    ensures c.hosts[x].node.log.applied < en.index <= done
  {
  }

  lemma {:induction false} FinishApplies(c: State, c': State, x: NodeId, done: nat)
    requires Enabled(c, Finish(x)) && c' == Perform(c, Finish(x)) && Progressed(c.hosts[x], done)
    ensures x in c'.hosts && c'.hosts[x].node.log.applied == done
  {
    FinishProgresses(c.hosts[x], x, done);
    assert HostAfter(c.hosts[x], Finish(x)).phase.Idle?;
    hide HostAfter;
  }

  /** An entry handed out before the end of a Ready cycle is not handed out again behind it: indices only
      go up as long as the host stays up. */
  lemma {:induction false} HandsOutOnce(cfg: Config, run: seq<State>, acts: seq<Action>, x: NodeId, i: nat, k: nat, j: nat, en: Entry, en': Entry)
    requires ReadableRun(cfg, run, acts) && i <= k < j < |run| && acts[k] == Finish(x) && StaysUp(acts, x, i, j)
    requires HandsOut(run[i], x, en) && HandsOut(run[j], x, en')
    ensures en.index < en'.index
  {
    hide Enabled;
    hide Perform;
    hide Progressed;
    hide Restarts;
    hide JustStarted;
    hide SaneInv;
    hide Readable;
    hide Handed;
    var s := LastStart(acts, x, i);
    UpThroughout(acts, x, s, i, j);
    HostStays(cfg, run, acts, x, i);
    HostStays(cfg, run, acts, x, s);
    assert StaysUp(acts, x, s, k) && StaysUp(acts, x, s, k + 1);
    HandedInTurn(cfg, run, acts, x, s, i);
    HandedInTurn(cfg, run, acts, x, s, k);
    HandedInTurn(cfg, run, acts, x, s, j);
    HandedGrows(cfg, run, acts, x, s, i, k);
    HandedGrows(cfg, run, acts, x, s, k + 1, j);
    assert Enabled(run[k], acts[k]) && run[k + 1] == Perform(run[k], acts[k]);
    InReady(run[i], x, en, |Handed(run, acts, x, s, i)|);
    InReady(run[j], x, en', |Handed(run, acts, x, s, j)|);
    FinishApplies(run[k], run[k + 1], x, |Handed(run, acts, x, s, k)|);
  }

  /** An entry is handed out only in a Ready whose hard state has a commit index that covers it. */
  lemma {:induction false} CommitIsWrittenFirst(cfg: Config, run: seq<State>, acts: seq<Action>, x: NodeId, i: nat, en: Entry)
    requires ReadableRun(cfg, run, acts) && i < |run| && HandsOut(run[i], x, en)
    ensures 1 <= en.index <= run[i].hosts[x].phase.rd.commit
  {
    hide Enabled;
    hide Perform;
    hide Restarts;
    hide JustStarted;
    hide SaneInv;
    hide Readable;
    hide Handed;
    var s := LastStart(acts, x, i);
    HostStays(cfg, run, acts, x, i);
    HostStays(cfg, run, acts, x, s);
    HandedInTurn(cfg, run, acts, x, s, i);
    InReady(run[i], x, en, |Handed(run, acts, x, s, i)|);
  }

  /** What is handed out after state i is handed out in some state after it. */
  lemma {:induction false} HandedSomewhere(run: seq<State>, acts: seq<Action>, x: NodeId, s: nat, i: nat, j: nat, p: nat) returns (t: nat)
    requires |run| == |acts| + 1 && s <= i <= j < |run| && |Handed(run, acts, x, s, i)| <= p < |Handed(run, acts, x, s, j)|
    ensures i < t <= j && HandsOut(run[t], x, Handed(run, acts, x, s, j)[p])
  {
    t := j;
    if i < j && p < |Handed(run, acts, x, s, j - 1)| { t := HandedSomewhere(run, acts, x, s, i, j - 1, p); }
  }

  /** No index is skipped between two entries that a host hands out while it stays up. */
  lemma {:induction false} NothingIsSkipped(cfg: Config, run: seq<State>, acts: seq<Action>, x: NodeId, i: nat, j: nat, en: Entry, en': Entry, n: nat)
    returns (t: nat, e: Entry)
    requires ReadableRun(cfg, run, acts) && i <= j < |run| && StaysUp(acts, x, i, j)
    requires HandsOut(run[i], x, en) && HandsOut(run[j], x, en') && en.index <= n <= en'.index
    ensures i <= t <= j && HandsOut(run[t], x, e) && e.index == n
  {
    hide Enabled;
    hide Perform;
    hide Restarts;
    hide JustStarted;
    hide SaneInv;
    hide Readable;
    hide Handed;
    var s := LastStart(acts, x, i);
    UpThroughout(acts, x, s, i, j);
    HostStays(cfg, run, acts, x, i);
    HostStays(cfg, run, acts, x, s);
    HandedInTurn(cfg, run, acts, x, s, i);
    HandedInTurn(cfg, run, acts, x, s, j);
    InReady(run[i], x, en, |Handed(run, acts, x, s, i)|);
    InReady(run[j], x, en', |Handed(run, acts, x, s, j)|);
    if n <= |Handed(run, acts, x, s, i)| {
      t, e := i, run[i].hosts[x].phase.rd.committed[n - run[i].hosts[x].node.log.applied - 1];
    } else {
      t := HandedSomewhere(run, acts, x, s, i, j, n - 1);
      e := Handed(run, acts, x, s, j)[n - 1];
    }
  }
}
