/** What the hosts of a careful run do to their state machines: each feeds it the same commands in the same
    order, and so gives its clients the same answers. */
module AgreedHandout {
  import opened Bytes
  import opened RaftTypes
  import opened LogSpec
  import opened NodeSpec
  import opened Cluster
  import opened NumberedLogs
  import opened LoneVoter
  import opened RaftSafety
  import opened CarefulRuns
  import opened StateMachineSafety
  import opened Handout
  import opened LobSpec

  lemma {:induction false} CleanLogsAreValid(cfg: Config, run: seq<State>, k: nat, x: NodeId)
    requires ValidConfig(cfg) && CleanRun(cfg, run) && k < |run| && x in run[k].hosts
    ensures Valid(run[k].hosts[x].node.log)
  {
    if |cfg.voters| == 1 { NothingIsCommitted(cfg, run, k, x); } else { LogsEverMatch(cfg, run, k, k, x, x); }
  }

  /** Every restart of a clean run reads a numbered log. */
  lemma {:induction false} CleanIsReadable(cfg: Config, run: seq<State>, acts: seq<Action>)
    requires ValidConfig(cfg) && CleanRun(cfg, run) && Acted(cfg, run, acts)
    ensures ReadableRun(cfg, run, acts)
  {
    hide HostAfter;
    hide CleanRun;
    forall k | 0 <= k < |acts| ensures Readable(run[k], acts[k]) {
      if Restarts(acts[k]) {
        var x := acts[k].x;
        assert Enabled(run[k], acts[k]) && run[k + 1] == Perform(run[k], acts[k]);
        assert run[k + 1].hosts[x] == HostAfter(run[k].hosts[x], acts[k]);
        CleanLogsAreValid(cfg, run, k + 1, x);
      }
    }
  }

  lemma {:induction false} ExistsHandout(run: seq<State>, acts: seq<Action>, x: NodeId, i: nat, j: nat, p: nat) returns (t: nat)
    requires |run| == |acts| + 1 && i <= j < |run| && p < |Handed(run, acts, x, i, j)|
    ensures t < |run| && HandsOut(run[t], x, Handed(run, acts, x, i, j)[p])
  {
    t := HandedSomewhere(run, acts, x, i, i, j, p);
  }

  /** Two hosts, each since it last started: the one that has handed out less has handed out the same, in
      the same order, as the other one at first. */
  lemma {:induction false} SameOrderEverywhere(cfg: Config, run: seq<State>, acts: seq<Action>, x: NodeId, i: nat, j: nat, y: NodeId, k: nat, l: nat)
    requires ValidConfig(cfg) && CarefulRun(cfg, run) && Acted(cfg, run, acts) && i <= j < |run| && k <= l < |run|
    requires x in run[i].hosts && JustStarted(acts, x, i) && StaysUp(acts, x, i, j)
    requires y in run[k].hosts && JustStarted(acts, y, k) && StaysUp(acts, y, k, l)
    ensures var a, b := Handed(run, acts, x, i, j), Handed(run, acts, y, k, l); |a| <= |b| ==> a <= b
  {
    hide Acted;
    hide ReadableRun;
    hide CarefulRun;
    hide JustStarted;
    hide StaysUp;
    hide Handed;
    hide Progressed;
    hide HandsOut;
    assert |run| == |acts| + 1 by { ActionsPerRun(cfg, run, acts); }
    var a, b := Handed(run, acts, x, i, j), Handed(run, acts, y, k, l);
    CarefulIsClean(cfg, run);
    CleanIsReadable(cfg, run, acts);
    HandedInTurn(cfg, run, acts, x, i, j);
    HandedInTurn(cfg, run, acts, y, k, l);
    forall p: nat | p < |a| && p < |b| ensures a[p] == b[p] {
      var t := ExistsHandout(run, acts, x, i, j, p);
      var u := ExistsHandout(run, acts, y, k, l, p);
      SameEntriesHandedOut(cfg, run, t, u, x, y, a[p], b[p]);
    }
  }

  lemma {:induction false} ActionsPerRun(cfg: Config, run: seq<State>, acts: seq<Action>)
    requires Acted(cfg, run, acts)
    ensures |run| == |acts| + 1
  {
  }

  // ----- the state machines -----

  /** The commands in the entries. */
  function Commands(es: seq<Entry>): seq<seq<Byte>> { seq(|es|, k requires 0 <= k < |es| => es[k].data) }

  lemma {:induction false} LessIsAnsweredAlike(s: Machine, a: seq<seq<Byte>>, b: seq<seq<Byte>>)
    requires a <= b
    ensures ApplyAll(s, a).0 <= ApplyAll(s, b).0 && |ApplyAll(s, b).0| == |b|
    decreases |b|
  {
    hide Apply;
    if a == b {
      if b != [] { LessIsAnsweredAlike(s, b[..|b| - 1], b[..|b| - 1]); }
    } else {
      LessIsAnsweredAlike(s, a, b[..|b| - 1]);
    }
  }

  /** The state machines of two hosts, started alike and fed what each host hands out: the answers of the
      one that is behind are the first answers of the other, and level with each other they are equal. */
  lemma {:induction false} ReplicasAnswerAlike(cfg: Config, run: seq<State>, acts: seq<Action>, x: NodeId, i: nat, j: nat, y: NodeId, k: nat, l: nat, s: Machine)
    requires ValidConfig(cfg) && CarefulRun(cfg, run) && Acted(cfg, run, acts) && i <= j < |run| && k <= l < |run|
    requires x in run[i].hosts && JustStarted(acts, x, i) && StaysUp(acts, x, i, j)
    requires y in run[k].hosts && JustStarted(acts, y, k) && StaysUp(acts, y, k, l)
    ensures var a, b := Handed(run, acts, x, i, j), Handed(run, acts, y, k, l);
            var (answersA, endA) := ApplyAll(s, Commands(a));
            var (answersB, endB) := ApplyAll(s, Commands(b));
            && |answersA| == |a| && |answersB| == |b|
            && (|a| <= |b| ==> answersA <= answersB) && (|a| == |b| ==> answersA == answersB && endA == endB)
  {
    SameOrderEverywhere(cfg, run, acts, x, i, j, y, k, l);
    hide Handed;
    hide ApplyAll;
    var a, b := Handed(run, acts, x, i, j), Handed(run, acts, y, k, l);
    LessIsAnsweredAlike(s, Commands(a), Commands(a));
    LessIsAnsweredAlike(s, Commands(b), Commands(b));
    if |a| <= |b| {
      assert Commands(a) <= Commands(b);
      LessIsAnsweredAlike(s, Commands(a), Commands(b));
      assert |a| == |b| ==> a == b;
    }
  }
}
