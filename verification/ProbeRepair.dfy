/** A leader repairs a follower: it probes ever earlier places until one is accepted, and the
    follower's log then agrees with the leader's as far as the accepted append reaches. */
module ProbeRepair {
  import opened Bytes
  import opened RaftTypes
  import opened LogSpec
  import opened LogTheorems
  import opened ProgressSpec
  import opened NodeSpec

  /** n leads and has one probe to f outstanding. */
  ghost predicate Probing(n: Node, f: NodeId) {
    && n.role == Leader && Valid(n.log)
    && f in n.pr && f != n.id
    && n.pr[f].state == Probe && n.pr[f].paused && 1 <= n.pr[f].nextIndex <= LastIndex(n.log) + 1
  }

  ghost predicate LogRepairable(leaderLog: seq<Entry>, l: Log) {
    && Valid(l) && l.window == [] && LogsMatch(l.stored, leaderLog)
    && l.committed <= |l.stored| && l.committed <= |leaderLog|
    && l.stored[..l.committed] == leaderLog[..l.committed]
  }

  /** g follows in the same term with everything persisted, its log matches the leader's wherever
      they share a term, and what it has committed is in the leader's log. */
  ghost predicate Repairable(n: Node, g: Node) {
    g.role == Follower && g.term == n.term && Valid(n.log) && LogRepairable(Logical(n.log), g.log)
  }

  function OutstandingProbe(n: Node, f: NodeId): Message
    requires f in n.pr && n.pr[f].nextIndex >= 1
  {
    AppendTo(n, f, n.pr[f])
  }

  ghost predicate Rejects(g: Node, m: Message) { TermAt(g.log, m.index) != m.logTerm }

  /** A run of the log from index `next` is what a leader may send behind index next - 1. */
  lemma {:induction false} RunIsLeaderMessage(l: Log, next: nat, es: seq<Entry>)
    requires Valid(l) && 1 <= next <= LastIndex(l) + 1 && RunFrom(es, Logical(l), next)
    ensures LeaderMessage(next - 1, TermAt(l, next - 1), es)
    ensures next - 1 + |es| <= |Logical(l)| && es == Logical(l)[next - 1..next - 1 + |es|]
    ensures next > 1 ==> TermAt(l, next - 1) == Logical(l)[next - 2].term && TermAt(l, next - 1) >= 1
  {
    LogicalNumbered(l);
    if next > 1 { TermRefines(l, next - 1); }
    var log := Logical(l);
    assert es == [] ==> log[next - 1..next - 1] == [];
  }

  lemma {:induction false} ProbeCarriesRun(n: Node, f: NodeId)
    requires Probing(n, f)
    ensures var m, log := OutstandingProbe(n, f), Logical(n.log);
            && m.typ == MsgApp && LeaderMessage(m.index, m.logTerm, m.entries)
            && m.index + |m.entries| <= |log| && m.entries == log[m.index..m.index + |m.entries|]
            && (m.index > 0 ==> m.logTerm == log[m.index - 1].term && m.logTerm >= 1)
  {
    hide Slice;
    hide LeaderMessage;
    hide TermAt;
    var next := n.pr[f].nextIndex;
    SliceIsPrefix(n.log, next, LastIndex(n.log) + 1, n.cfg.maxSize);
    RunIsLeaderMessage(n.log, next, Batch(n, n.pr[f]));
  }

  /** A rejected probe leaves the follower's log alone and is followed by one behind the follower's last
      index, or by the one before it if that is earlier. */
  lemma {:induction false} RejectedProbeBacksUp(n: Node, g: Node)
    requires Probing(n, g.id) && Repairable(n, g)
    requires Rejects(g, OutstandingProbe(n, g.id))
    ensures var m := OutstandingProbe(n, g.id);
            var g' := StepFollower(g, m);
            var n' := StepLeader(n, AppendReply(g, m));
            && g'.log == g.log
            && n'.log == n.log && n'.term == n.term
            && Probing(n', g.id) && Repairable(n', g')
            && n'.pr[g.id].nextIndex == Min(LastIndex(g.log), n.pr[g.id].nextIndex - 2) + 1
            && n'.pr[g.id].matchIndex == n.pr[g.id].matchIndex
            && g'.id == g.id
            && OutstandingProbe(n', g.id) in n'.msgs
  {
    hide LogRepairable;
    hide StepLeader;
    hide StepFollower;
    hide Logical;
    var m := OutstandingProbe(n, g.id);
    assert m.index >= 1 && m.from == n.id;
    ProbeIsRefused(g, m);
    hide AppendReply;
    LeaderBacksUp(n, g.id, LastIndex(g.log), AppendReply(g, m));
  }

  /** What the follower does with it. */
  lemma {:induction false} ProbeIsRefused(g: Node, m: Message)
    requires g.role == Follower && m.typ == MsgApp && Rejects(g, m)
    ensures var g' := StepFollower(g, m);
            && g'.log == g.log && g'.id == g.id && g'.role == Follower && g'.term == g.term
            && AppendReply(g, m) == Message(MsgAppResp, m.from, g.id, g.term, reject := true, index := m.index, rejectHint := LastIndex(g.log))
  {
    hide Reconcile;
  }

  /** What the leader does with the answer. */
  lemma {:induction false} LeaderBacksUp(n: Node, f: NodeId, hint: nat, r: Message)
    requires Probing(n, f) && n.pr[f].nextIndex >= 2
    requires r.typ == MsgAppResp && r.from == f && r.reject && r.index == n.pr[f].nextIndex - 1 && r.rejectHint == hint
    ensures var n' := StepLeader(n, r);
            && n' == n.(pr := n'.pr, msgs := n'.msgs) && Probing(n', f)
            && n'.pr[f].nextIndex == Min(hint, n.pr[f].nextIndex - 2) + 1 && n'.pr[f].matchIndex == n.pr[f].matchIndex
            && OutstandingProbe(n', f) in n'.msgs
  {
    hide Valid;
    hide LastIndex;
    hide SendAppend;
    var p := BecomeProbe(MaybeDecr(n.pr[f], r.index, hint));
    assert 1 <= p.nextIndex == Min(hint, n.pr[f].nextIndex - 2) + 1 <= LastIndex(n.log) + 1;
    var n1 := n.(pr := n.pr[f := p]);
    assert StepLeader(n, r) == SendAppend(n1, f);
    ProbeGoesOut(n1, f);
    hide OutstandingProbe;
  }

  /** A peer that may be probed is. */
  lemma {:induction false} ProbeGoesOut(n: Node, f: NodeId)
    requires Valid(n.log) && f in n.pr && n.pr[f].state == Probe && !n.pr[f].paused && 1 <= n.pr[f].nextIndex <= LastIndex(n.log) + 1
    ensures var n' := SendAppend(n, f);
            && n' == n.(pr := n.pr[f := n.pr[f].(paused := true)], msgs := n'.msgs) && OutstandingProbe(n', f) in n'.msgs
  {
    hide Slice;
    hide TermAt;
    hide LastIndex;
    hide Valid;
    hide Logical;
    hide RunFrom;
    SliceIsPrefix(n.log, n.pr[f].nextIndex, LastIndex(n.log) + 1, n.cfg.maxSize);
    assert Sends(n, n.pr[f]) && AfterSend(n, n.pr[f]) == n.pr[f].(paused := true);
    hide Sends;
    hide AfterSend;
    assert OutstandingProbe(SendAppend(n, f), f) == AppendTo(n, f, n.pr[f]);
  }

  /** Up to the first mismatch the follower already has the leader's entries, and the mismatch is
      above what the follower has committed. */
  lemma {:induction false} AgreesToMismatch(leaderLog: seq<Entry>, l: Log, prev: nat, es: seq<Entry>, k: nat)
    requires LogRepairable(leaderLog, l) && prev + |es| <= |leaderLog|
    requires es == leaderLog[prev..prev + |es|]
    requires prev > 0 ==> prev <= |l.stored| && l.stored[prev - 1].term == leaderLog[prev - 1].term
    requires FirstMismatch(l.stored, prev, es, k)
    ensures prev + k <= |l.stored| && l.stored[..prev + k] == leaderLog[..prev + k]
    ensures k < |es| ==> prev + k + 1 > l.committed
  {
    var a, c := l.stored, prev + k;
    assert k > 0 ==> Agrees(a, prev, es, k - 1);
    if c > 0 {
      assert a[c - 1].term == leaderLog[c - 1].term;
      assert a[..(c - 1) + 1] == leaderLog[..(c - 1) + 1];
    }
    assert c < l.committed ==> a[c] == a[..l.committed][c] && leaderLog[c] == leaderLog[..l.committed][c];
  }

  lemma {:induction false} SpliceIsPrefix(a: seq<Entry>, b: seq<Entry>, prev: nat, es: seq<Entry>, k: nat)
    requires k <= |es| && prev + |es| <= |b| && es == b[prev..prev + |es|]
    requires prev + k <= |a| && a[..prev + k] == b[..prev + k]
    ensures a[..prev + k] + es[k..] == b[..prev + |es|]
  {
  }

  lemma {:induction false} AcceptedAppendAgrees(leaderLog: seq<Entry>, l: Log, prev: nat, prevTerm: nat, commit: nat, es: seq<Entry>)
    requires LogRepairable(leaderLog, l) && LeaderMessage(prev, prevTerm, es)
    requires prev + |es| <= |leaderLog| && es == leaderLog[prev..prev + |es|]
    requires TermAt(l, prev) == prevTerm && (prev > 0 ==> prevTerm == leaderLog[prev - 1].term && prevTerm >= 1)
    ensures var l' := MaybeAppend(l, prev, prevTerm, commit, es).0;
            Valid(l') && prev + |es| <= |Logical(l')| && Logical(l')[..prev + |es|] == leaderLog[..prev + |es|]
  {
    hide MaybeAppend;
    var k := MismatchPos(l.stored, prev, es, 0);
    FollowerAppend(l, prev, prevTerm, commit, es, k);
    AgreesToMismatch(leaderLog, l, prev, es, k);
    SpliceIsPrefix(l.stored, leaderLog, prev, es, k);
  }

  /** After an accepted probe the follower agrees with the leader through the last index sent. */
  lemma {:induction false} AcceptedProbeAgrees(n: Node, g: Node)
    requires Probing(n, g.id) && Repairable(n, g)
    requires !Rejects(g, OutstandingProbe(n, g.id))
    ensures AgreesWithLeader(n, StepFollower(g, OutstandingProbe(n, g.id)), OutstandingProbe(n, g.id))
  {
    hide MaybeAppend;
    hide AppendTo;
    var m := OutstandingProbe(n, g.id);
    ProbeCarriesRun(n, g.id);
    AcceptedAppendAgrees(Logical(n.log), g.log, m.index, m.logTerm, m.commit, m.entries);
  }

  /** The follower's log holds the leader's entries through the last index of m. */
  ghost predicate AgreesWithLeader(n: Node, g: Node, m: Message) {
    var sent := m.index + |m.entries|;
    && Valid(n.log) && Valid(g.log)
    && sent <= |Logical(g.log)| && sent <= |Logical(n.log)|
    && Logical(g.log)[..sent] == Logical(n.log)[..sent]
  }

  lemma {:induction false} AfterSendKeeps(n: Node, p: Progress)
    ensures AfterSend(n, p).matchIndex == p.matchIndex && AfterSend(n, p).state == p.state
  {
  }

  /** The leader then streams to the follower and knows how far it agrees. */
  lemma {:induction false} AcceptedProbeCounts(n: Node, g: Node)
    requires Probing(n, g.id) && !Rejects(g, OutstandingProbe(n, g.id))
    ensures var m := OutstandingProbe(n, g.id);
            var n' := StepLeader(n, AppendReply(g, m));
            && g.id in n'.pr && n'.pr[g.id].state == Replicate
            && n'.pr[g.id].matchIndex == Max(n.pr[g.id].matchIndex, m.index + |m.entries|)
  {
    hide Sends;
    hide AfterSend;
    hide AppendTo;
    hide MaybeAppend;
    var m := OutstandingProbe(n, g.id);
    var r := AppendReply(g, m);
    assert !r.reject && r.index == m.index + |m.entries| && r.from == g.id by { AcceptedReply(g, m); }
    var p := BecomeReplicate(Update(n.pr[g.id], r.index));
    var n1 := n.(pr := n.pr[g.id := p]);
    var n2 := if Commits(n1) then BroadcastAppend(MaybeCommit(n1)) else n1;
    AfterSendKeeps(MaybeCommit(n1), p);
    AfterSendKeeps(n2, n2.pr[g.id]);
  }

  lemma {:induction false} AcceptedReply(g: Node, m: Message)
    requires !Rejects(g, m)
    ensures var r := AppendReply(g, m); !r.reject && r.index == m.index + |m.entries| && r.from == g.id && r.typ == MsgAppResp
  {
  }

  /** Finds the first entry of the message that the log does not hold in the same term. */
  ghost function MismatchPos(log: seq<Entry>, prev: nat, es: seq<Entry>, from: nat): (k: nat)
    requires from <= |es| && forall j :: 0 <= j < from ==> Agrees(log, prev, es, j)
    ensures FirstMismatch(log, prev, es, k)
    decreases |es| - from
  {
    if from == |es| || !Agrees(log, prev, es, from) then from else MismatchPos(log, prev, es, from + 1)
  }

  // ----- the whole exchange -----

  /** Leader and follower after the probes that follow from the outstanding one, the number of
      rounds it took, and the probe that was accepted. */
  ghost function Repaired(n: Node, g: Node): (Node, Node, nat, Message)
    requires Probing(n, g.id) && Repairable(n, g)
    decreases n.pr[g.id].nextIndex
  {
    var m := OutstandingProbe(n, g.id);
    if Rejects(g, m) then
      RejectedProbeBacksUp(n, g);
      var (n', g', rounds, accepted) := Repaired(StepLeader(n, AppendReply(g, m)), StepFollower(g, m));
      (n', g', rounds + 1, accepted)
    else
      (StepLeader(n, AppendReply(g, m)), StepFollower(g, m), 1, m)
  }

  /** The logs hold the same term at index k; nothing is in front of index 1. */
  predicate SameTermAt(a: seq<Entry>, b: seq<Entry>, k: nat)
    requires k <= |a| && k <= |b|
  {
    k == 0 || a[k - 1].term == b[k - 1].term
  }

  /** k is the last index up to `bound` at which they do. */
  ghost predicate LastAgreement(a: seq<Entry>, b: seq<Entry>, bound: nat, k: nat) {
    && k <= bound && k <= |a| && k <= |b| && SameTermAt(a, b, k)
    && forall j :: k < j <= bound && j <= |a| && j <= |b| ==> !SameTermAt(a, b, j)
  }

  /** A rejection rules out its own place and those behind the follower's log, and no other. */
  lemma {:induction false} RejectionNarrows(a: seq<Entry>, b: seq<Entry>, bound: nat, k: nat)
    requires 1 <= bound <= |a| && (bound <= |b| ==> !SameTermAt(a, b, bound))
    requires LastAgreement(a, b, Min(|b|, bound - 1), k)
    ensures LastAgreement(a, b, bound, k)
  {
  }

  lemma {:induction false} RejectedWhere(n: Node, g: Node)
    requires Probing(n, g.id) && Repairable(n, g) && Rejects(g, OutstandingProbe(n, g.id))
    ensures var prev := n.pr[g.id].nextIndex - 1;
            && 1 <= prev <= |Logical(n.log)| && LastIndex(g.log) == |Logical(g.log)|
            && (prev <= |Logical(g.log)| ==> !SameTermAt(Logical(n.log), Logical(g.log), prev))
  {
    ProbeCarriesRun(n, g.id);
    LogicalNumbered(n.log);
    hide Slice;
    hide Batch;
  }

  lemma {:induction false} AcceptedWhere(n: Node, g: Node)
    requires Probing(n, g.id) && Repairable(n, g) && !Rejects(g, OutstandingProbe(n, g.id))
    ensures LastAgreement(Logical(n.log), Logical(g.log), n.pr[g.id].nextIndex - 1, OutstandingProbe(n, g.id).index)
  {
    ProbeCarriesRun(n, g.id);
    LogicalNumbered(n.log);
    hide Slice;
    hide Batch;
  }

  lemma {:induction false} AgreesByLog(n: Node, n': Node, g: Node, m: Message)
    requires n.log == n'.log
    ensures AgreesWithLeader(n, g, m) <==> AgreesWithLeader(n', g, m)
  {
  }

  /** The rounds it takes: one for a first probe beyond the follower's log, and one for each index from
      there, or from the first probe, down to the last agreement. */
  function Rounds(bound: nat, last: nat, k: nat): int { Min(bound, last) - k + if bound > last then 2 else 1 }

  /** The accepted probe is behind the last index, up to the first probe's, at which the two logs hold the
      same term; the follower then agrees with the leader through the last index of that append, and the
      leader has recorded exactly that. */
  lemma {:induction false} RepairConverges(n: Node, g: Node)
    requires Probing(n, g.id) && Repairable(n, g)
    ensures var (n', g', rounds, m) := Repaired(n, g);
            && LastAgreement(Logical(n.log), Logical(g.log), n.pr[g.id].nextIndex - 1, m.index)
            && rounds == Rounds(n.pr[g.id].nextIndex - 1, LastIndex(g.log), m.index)
            && AgreesWithLeader(n, g', m)
            && g.id in n'.pr && n'.pr[g.id].state == Replicate
            && n'.pr[g.id].matchIndex == Max(n.pr[g.id].matchIndex, m.index + |m.entries|)
    decreases n.pr[g.id].nextIndex
  {
    hide StepLeader;
    hide StepFollower;
    hide Rejects;
    hide OutstandingProbe;
    hide AppendReply;
    hide AgreesWithLeader;
    hide LastIndex;
    hide LastAgreement;
    hide Logical;
    assert Valid(g.log);
    hide LogRepairable;
    var m := OutstandingProbe(n, g.id);
    if Rejects(g, m) {
      RejectedProbeBacksUp(n, g);
      RejectedWhere(n, g);
      var n1, g1 := StepLeader(n, AppendReply(g, m)), StepFollower(g, m);
      RepairConverges(n1, g1);
      RejectionNarrows(Logical(n.log), Logical(g.log), n.pr[g.id].nextIndex - 1, Repaired(n1, g1).3.index);
      AgreesByLog(n, n1, Repaired(n1, g1).1, Repaired(n1, g1).3);
    } else {
      AcceptedProbeAgrees(n, g);
      AcceptedProbeCounts(n, g);
      AcceptedWhere(n, g);
      AcceptedInside(n, g);
    }
  }

  lemma {:induction false} AcceptedInside(n: Node, g: Node)
    requires Probing(n, g.id) && Repairable(n, g) && !Rejects(g, OutstandingProbe(n, g.id))
    ensures OutstandingProbe(n, g.id).index == n.pr[g.id].nextIndex - 1 <= LastIndex(g.log)
  {
    ProbeCarriesRun(n, g.id);
    hide Slice;
    hide Batch;
  }
}
