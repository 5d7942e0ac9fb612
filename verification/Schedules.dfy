/** Building runs action by action, for the runs that show where a guarantee ends. */
module Schedules {
  import opened Bytes
  import opened RaftTypes
  import opened LogSpec
  import opened WalSpec
  import opened NodeSpec
  import opened Cluster
  import opened CarefulRuns

  /** Which runs are asked for: any, those that go on from a given one, intact, clean or careful ones. */
  datatype Care = Carelessly | After(past: seq<State>) | Intactly | Cleanly | Carefully

  /** Whether crashes may cost a host its hard state. */
  predicate Lossy(care: Care) { care.Carelessly? || care.After? }

  /** A careful step that looks back no further than the state it starts from. */
  ghost predicate CarefulStep(c: State, c': State) {
    exists a :: Enabled(c, a) && Intact(c, a) && Clean(c, a) && Careful([c], a) && c' == Perform(c, a)
  }

  ghost predicate CarefulSteps(cfg: Config, run: seq<State>) {
    |run| >= 1 && Init(cfg, run[0]) && forall k :: 0 <= k < |run| - 1 ==> CarefulStep(run[k], run[k + 1])
  }

  lemma {:induction false} LooksBack(run: seq<State>, a: Action)
    requires |run| >= 1 && Enabled(run[|run| - 1], a) && Careful([run[|run| - 1]], a)
    ensures Careful(run, a)
  {
    hide CarefulAppend;
    hide LeaderHolds;
    if a.Deliver? && a.m.typ == MsgHeartbeat {
      var n, m := run[|run| - 1].hosts[a.x].node, a.m;
      var i := Min(m.commit, LastIndex(n.log));
      if FromLeader(n, m) && m.commit > n.log.committed && i > 0 {
        var j, y :| 0 <= j < |[run[|run| - 1]]| && LeaderHolds([run[|run| - 1]][j], y, m.term, i, TermAt(n.log, i));
        assert LeaderHolds(run[|run| - 1], y, m.term, i, TermAt(n.log, i));
      }
    }
  }

  lemma {:induction false} CarefulStepsAreCareful(cfg: Config, run: seq<State>)
    requires CarefulSteps(cfg, run)
    ensures CarefulRun(cfg, run)
  {
    hide Init;
    hide Careful;
    hide Intact;
    hide Clean;
    forall k: nat | k + 1 < |run| ensures CarefulNext(run, k) {
      assert CarefulStep(run[k], run[k + 1]);
      var a :| Enabled(run[k], a) && Intact(run[k], a) && Clean(run[k], a) && Careful([run[k]], a) && run[k + 1] == Perform(run[k], a);
      assert run[..k + 1][k] == run[k];
      LooksBack(run[..k + 1], a);
    }
  }

  ghost predicate RunWith(cfg: Config, run: seq<State>, care: Care) {
    match care
    case Carelessly => IsRun(cfg, run)
    case After(past) => IsRun(cfg, run) && past <= run
    case Intactly => IntactRun(cfg, run)
    case Cleanly => CleanRun(cfg, run)
    case Carefully => CarefulSteps(cfg, run)
  }

  ghost predicate NextWith(c: State, c': State, care: Care) {
    match care
    case Carelessly => Next(c, c')
    case After(_) => Next(c, c')
    case Intactly => IntactNext(c, c')
    case Cleanly => CleanNext(c, c')
    case Carefully => CarefulStep(c, c')
  }

  lemma {:induction false} RunSteps(cfg: Config, run: seq<State>, care: Care)
    ensures RunWith(cfg, run, care) <==>
            && |run| >= 1 && Init(cfg, run[0]) && (care.After? ==> care.past <= run)
            && forall k :: 0 <= k < |run| - 1 ==> NextWith(run[k], run[k + 1], care)
  {
    hide Next;
    hide IntactNext;
    hide CleanNext;
    hide CarefulStep;
    hide Init;
  }

  ghost predicate EndsIn(cfg: Config, run: seq<State>, c: State, care: Care) {
    RunWith(cfg, run, care) && run != [] && run[|run| - 1] == c
  }

  /** Some such run ends in c. */
  ghost predicate Reached(cfg: Config, c: State, care: Care) { exists run :: EndsIn(cfg, run, c, care) }

  lemma {:induction false} Starts(cfg: Config, c: State, care: Care)
    requires Init(cfg, c) && !care.After?
    ensures Reached(cfg, c, care)
  {
    RunSteps(cfg, [c], care);
    assert EndsIn(cfg, [c], c, care);
  }

  lemma {:induction false} Longer(run: seq<State>, c': State)
    requires |run| >= 1
    ensures var run' := run + [c'];
            && run <= run' && run'[0] == run[0] && run'[|run'| - 2] == run[|run| - 1] && run'[|run'| - 1] == c'
            && forall k :: 0 <= k < |run| ==> run'[k] == run[k]
  {
  }

  lemma {:induction false} Then(cfg: Config, c: State, a: Action, care: Care)
    requires Reached(cfg, c, care) && Enabled(c, a)
    requires (!Lossy(care) ==> Intact(c, a)) && (care == Cleanly || care == Carefully ==> Clean(c, a))
    requires care == Carefully ==> Careful([c], a)
    ensures Reached(cfg, Perform(c, a), care)
  {
    var c' := Perform(c, a);
    assert NextWith(c, c', care);
    hide NextWith;
    hide Init;
    hide RunWith;
    var run :| EndsIn(cfg, run, c, care);
    Longer(run, c');
    var run' := run + [c'];
    RunSteps(cfg, run, care);
    RunSteps(cfg, run', care);
    forall k | 0 <= k < |run'| - 1 ensures NextWith(run'[k], run'[k + 1], care) {
      if k < |run| - 1 { assert run'[k] == run[k] && run'[k + 1] == run[k + 1]; }
    }
    assert EndsIn(cfg, run', c', care);
  }

  /** Whether a host standing as h may take the action that names it. */
  ghost predicate MayAct(h: Host, a: Action, net: set<Message>) {
    match a
    case TimerFires(_) => h.phase.Idle?
    case Deliver(x, m) => h.phase.Idle? && m in net && m.to == x
    case PeerDown(_, _) => h.phase.Idle?
    case ClientProposes(_, _) => true
    case Poll(_) => h.phase.Idle?
    case SaveEntries(_) => h.phase.Polled?
    case SaveHardState(_) => h.phase.Saved?
    case Finish(_) => h.phase.Synced?
    case Crash(_) => true
    case CrashWhileSaving(_, kept) => h.phase.Polled? && CutsTheWrite(h, h.phase.rd.entries, kept)
    case CrashWhileSavingHard(_, _) => h.phase.Saved? && WritesHard(h.phase.rd)
    case _ => false
  }

  /** One host acts, in a state in which it stands as h. */
  lemma {:induction false} Acts(cfg: Config, c: State, x: NodeId, h: Host, a: Action, care: Care)
    requires x in c.hosts && Reached(cfg, c.(hosts := c.hosts[x := h]), care)
    requires MayAct(h, a, c.net) && !a.ClientSends? && a.x == x
    requires !Lossy(care) ==> !a.CrashWhileSavingHard?
    requires care == Cleanly || care == Carefully ==> !a.CrashWhileSaving? && (a.SaveEntries? ==> CleanWrite(h, h.phase.rd.entries))
    requires care == Carefully ==> !a.Deliver? || Careful([c.(hosts := c.hosts[x := h])], a)
    ensures Reached(cfg, c.(hosts := c.hosts[x := HostAfter(h, a)]), care)
  {
    hide Reached;
    var c1 := c.(hosts := c.hosts[x := h]);
    Then(cfg, c1, a, care);
    hide HostAfter;
    assert c1.hosts[x := HostAfter(h, a)] == c.hosts[x := HostAfter(h, a)];
  }

  lemma {:induction false} Unchanged(c: State, x: NodeId)
    requires x in c.hosts
    ensures c.(hosts := c.hosts[x := c.hosts[x]]) == c
  {
    assert c.hosts[x := c.hosts[x]] == c.hosts;
  }

  /** The host after polling, writing its entries and crashing. */
  ghost function CrashedAfterWrite(x: NodeId, h: Host): Host {
    HostAfter(HostAfter(HostAfter(h, Poll(x)), SaveEntries(x)), Crash(x))
  }

  /** It starts again with what a replay of the written file yields. */
  lemma {:induction false} CrashedLog(x: NodeId, h: Host)
    requires h.phase.Idle?
    ensures CrashedAfterWrite(x, h).node.log ==
            Log(Replay(AppendedFile(h.disk.file, Vector(h.node.log), h.node.log.window))[1..], 0, [], 0, 0)
  {
    hide Replay;
    hide AppendedFile;
    hide Persist;
  }

  /** The same where the write is cut: it starts again with what the file then yields. */
  lemma {:induction false} CutLog(x: NodeId, h: Host, kept: nat)
    requires h.phase.Idle?
    ensures var h1 := HostAfter(h, Poll(x));
            var full := AppendedFile(h.disk.file, Vector(h.node.log), h.node.log.window);
            var disk := h.disk.(file := full[..Min(kept, |full|)]);
            && h1.phase.Polled? && h1.phase.rd.entries == h.node.log.window && h1.disk == h.disk && h1.node.log == h.node.log
            && HostAfter(h1, CrashWhileSaving(x, kept)) == Restarted(h, disk)
  {
    hide Replay;
    hide AppendedFile;
  }

  lemma {:induction false} WritesAndCrashes(cfg: Config, c: State, x: NodeId, h: Host, care: Care)
    requires x in c.hosts && h.phase.Idle? && Reached(cfg, c.(hosts := c.hosts[x := h]), care) && care != Cleanly && care != Carefully
    ensures Reached(cfg, c.(hosts := c.hosts[x := CrashedAfterWrite(x, h)]), care)
  {
    hide Reached;
    var h1 := HostAfter(h, Poll(x));
    assert h1.phase.Polled?;
    hide HostAfter;
    Acts(cfg, c, x, h, Poll(x), care);
    Acts(cfg, c, x, h1, SaveEntries(x), care);
    Acts(cfg, c, x, HostAfter(h1, SaveEntries(x)), Crash(x), care);
  }

  /** The host after polling, writing its entries and writing its hard state. */
  ghost function Synchronised(x: NodeId, h: Host): Host {
    HostAfter(HostAfter(HostAfter(h, Poll(x)), SaveEntries(x)), SaveHardState(x))
  }

  /** One Ready cycle up to the sending of one message. */
  lemma {:induction false} SendsOne(cfg: Config, c: State, x: NodeId, m: Message, care: Care)
    requires Reached(cfg, c, care) && x in c.hosts && c.hosts[x].phase.Idle? && m in c.hosts[x].node.msgs
    requires care == Cleanly || care == Carefully ==> CleanWrite(c.hosts[x], c.hosts[x].node.log.window)
    ensures Reached(cfg, State(c.hosts[x := Synchronised(x, c.hosts[x])], c.net + {m}), care)
  {
    hide Reached;
    hide FileAfter;
    hide Persist;
    var h0 := c.hosts[x];
    var h1 := HostAfter(h0, Poll(x));
    var h2 := HostAfter(h1, SaveEntries(x));
    var h3 := HostAfter(h2, SaveHardState(x));
    assert h1.phase.Polled? && h2.phase.Saved? && h3.phase.Synced? && m in h3.phase.rd.msgs;
    assert h1.phase.rd.entries == h0.node.log.window && h1.node.log == h0.node.log && h1.disk == h0.disk;
    hide HostAfter;
    Then(cfg, c, Poll(x), care);
    var c1 := Perform(c, Poll(x));
    Then(cfg, c1, SaveEntries(x), care);
    var c2 := Perform(c1, SaveEntries(x));
    Then(cfg, c2, SaveHardState(x), care);
    var c3 := Perform(c2, SaveHardState(x));
    Then(cfg, c3, Send(x, m), care);
    assert c3.hosts == c.hosts[x := h3];
  }

  /** Nothing to write but the hard state, and nothing to apply. */
  ghost predicate AtRest(h: Host) {
    && h.phase.Idle? && h.node.log.window == [] && h.node.log.committed <= h.node.log.applied
    && h.node.readyLast == 0 && h.node.readyApplied == 0 && h.node.term >= 1
  }

  function Rested(h: Host): Host {
    Host(h.node.(msgs := {}), h.disk.(term := h.node.term, vote := h.node.vote), Idle)
  }

  lemma {:induction false} CycleAtRest(x: NodeId, h: Host)
    requires AtRest(h)
    ensures Synchronised(x, h).phase.Synced? && HostAfter(Synchronised(x, h), Finish(x)) == Rested(h)
  {
  }

  /** A whole cycle of a host at rest that sends one message. */
  lemma {:induction false} Speaks(cfg: Config, c: State, x: NodeId, m: Message, care: Care)
    requires Reached(cfg, c, care) && x in c.hosts && AtRest(c.hosts[x]) && m in c.hosts[x].node.msgs
    ensures Reached(cfg, State(c.hosts[x := Rested(c.hosts[x])], c.net + {m}), care)
  {
    SendsOne(cfg, c, x, m, care);
    CycleAtRest(x, c.hosts[x]);
    hide Reached;
    hide Synchronised;
    hide HostAfter;
    hide Rested;
    var c1 := State(c.hosts[x := Synchronised(x, c.hosts[x])], c.net + {m});
    Then(cfg, c1, Finish(x), care);
    assert c1.hosts[x := Rested(c.hosts[x])] == c.hosts[x := Rested(c.hosts[x])];
  }
}
