/** What a node operation can do to the parts of the node that the cluster invariants speak about:
    `Silent` for votes, `Quiet` for logs. */
module NodeEffects {
  import opened Bytes
  import opened RaftTypes
  import opened LogSpec
  import opened LogTheorems
  import opened ProgressSpec
  import opened NodeSpec
  import opened Canon
  import opened Votes

  ghost predicate SameOffice(n: Node, n': Node) {
    && n'.id == n.id && n'.cfg == n.cfg
    && n'.term == n.term && n'.vote == n.vote && n'.role == n.role && n'.votes == n.votes
  }

  /** Same office, and no new vote request or grant. */
  ghost predicate Silent(n: Node, n': Node) {
    && SameOffice(n, n')
    && forall m :: m in n'.msgs && ElectionMsg(m) ==> m in n.msgs
  }

  ghost predicate SameEntries(l: Log, l': Log) {
    l'.stored == l.stored && l'.offset == l.offset && l'.window == l.window
  }

  /** An append that only a leader sends, and only with its own entries. */
  ghost predicate OwnAppend(n: Node, m: Message)
    requires Valid(n.log)
  {
    m.typ == MsgApp ==> n.role == Leader && m.term == n.term && RunOf(Logical(n.log), m.index, m.logTerm, m.entries)
  }

  /** Same entries, nobody takes office, and new appends carry the leader's own entries. */
  ghost predicate Quiet(n: Node, n': Node)
    requires Valid(n.log)
  {
    && n'.readyLast == n.readyLast
    && SameEntries(n.log, n'.log)
    && (n'.role == Leader ==> n.role == Leader && n'.term == n.term)
    && forall m :: m in n'.msgs ==> m in n.msgs || OwnAppend(n, m)
  }

  /** The two together, for what a leader does in office; a valid log is needed only for the logs. */
  ghost predicate Routine(n: Node, n': Node) {
    Silent(n, n') && (Valid(n.log) ==> Quiet(n, n'))
  }

  lemma {:induction false} RoutineTwice(n: Node, n1: Node, n2: Node)
    requires Routine(n, n1) && Routine(n1, n2)
    ensures Routine(n, n2)
  {
    if Valid(n.log) { assert forall m :: OwnAppend(n1, m) ==> OwnAppend(n, m); }
  }

  /** A run of the log from index `next`, with the term in front of it, is a run of that log. */
  lemma {:induction false} RunWithPreviousTerm(l: Log, next: nat, es: seq<Entry>)
    requires Valid(l) && next >= 1 && RunFrom(es, Logical(l), next)
    ensures RunOf(Logical(l), next - 1, TermAt(l, next - 1), es)
  {
    if es != [] {
      LogicalNumbered(l);
      if next > 1 { TermRefines(l, next - 1); }
    }
  }

  lemma {:induction false} BatchIsRun(n: Node, to: NodeId, p: Progress)
    requires Valid(n.log) && Sends(n, p)
    ensures var m := AppendTo(n, to, p); RunOf(Logical(n.log), m.index, m.logTerm, m.entries)
  {
    hide Slice;
    SliceIsPrefix(n.log, p.nextIndex, LastIndex(n.log) + 1, n.cfg.maxSize);
    RunWithPreviousTerm(n.log, p.nextIndex, Batch(n, p));
  }

  lemma {:induction false} SendAppendIsRoutine(n: Node, to: NodeId)
    requires n.role == Leader
    ensures Routine(n, SendAppend(n, to))
  {
    if Valid(n.log) && to in n.pr && Sends(n, n.pr[to]) { BatchIsRun(n, to, n.pr[to]); }
  }

  lemma {:induction false} BroadcastAppendIsRoutine(n: Node)
    requires n.role == Leader
    ensures Routine(n, BroadcastAppend(n))
  {
    if Valid(n.log) {
      forall id | id in n.pr && id != n.id && Sends(n, n.pr[id]) ensures OwnAppend(n, AppendTo(n, id, n.pr[id])) {
        BatchIsRun(n, id, n.pr[id]);
      }
    }
  }

  lemma {:induction false} AppendAcceptedIsRoutine(n: Node, m: Message)
    requires n.role == Leader && m.from in n.pr
    ensures Routine(n, AppendAccepted(n, m))
  {
    var p := Update(n.pr[m.from], m.index);
    var n1 := n.(pr := n.pr[m.from := if p.state == Probe then BecomeReplicate(p) else p]);
    var n2 := if Commits(n1) then BroadcastAppend(MaybeCommit(n1)) else n1;
    assert Routine(n, n1);
    assert Routine(n1, n2) by {
      if Commits(n1) {
        var c := MaybeCommit(n1);
        BroadcastAppendIsRoutine(c);
        assert Routine(n1, c);
        RoutineTwice(n1, c, n2);
      }
    }
    RoutineTwice(n, n1, n2);
    SendAppendIsRoutine(n2, m.from);
    RoutineTwice(n, n2, SendAppend(n2, m.from));
  }

  lemma {:induction false} AppendRejectedIsRoutine(n: Node, m: Message)
    requires n.role == Leader && m.from in n.pr
    ensures Routine(n, AppendRejected(n, m))
  {
    var n1 := n.(pr := n.pr[m.from := BecomeProbe(MaybeDecr(n.pr[m.from], m.index, m.rejectHint))]);
    assert Routine(n, n1);
    SendAppendIsRoutine(n1, m.from);
    RoutineTwice(n, n1, SendAppend(n1, m.from));
  }

  /** Everything a leader does with a message, other than taking a proposal. */
  lemma {:induction false} StepLeaderIsRoutine(n: Node, m: Message)
    requires n.role == Leader && m.typ != MsgPropose
    ensures Routine(n, StepLeader(n, m))
  {
    if m.typ == MsgAppResp && m.from in n.pr {
      if m.reject { AppendRejectedIsRoutine(n, m); } else { AppendAcceptedIsRoutine(n, m); }
    } else if m.typ == MsgHeartbeatResp {
      SendAppendIsRoutine(n, m.from);
    }
  }

  lemma {:induction false} StaleReplyIsRoutine(n: Node, m: Message)
    ensures Routine(n, StaleReply(n, m))
  {
  }

  // ----- the leader's own append -----

  /** The log refused the entry, or has it at its end and the commit index inside; storage and the
      window's front are untouched. */
  ghost predicate AppendedOwn(l: Log, l': Log, e: Entry)
    requires Valid(l)
  {
    || l' == l
    || (&& Valid(l') && l'.stored == l.stored && Logical(l') == Logical(l) + [e]
        && l'.window == l.window + [e] && (l.window != [] ==> l'.offset == l.offset)
        && l.committed == l'.committed <= LastIndex(l))
  }

  lemma {:induction false} AppendOwnAppends(l: Log, e: Entry)
    requires Valid(l) && e.index == LastIndex(l) + 1 && e.term >= 1
    ensures AppendedOwn(l, Append(l, [e]), e)
  {
    var l' := Append(l, [e]);
    if l' != l && l.window != [] {
      assert l'.window == l.window + [e];
    }
  }

  lemma {:induction false} AppendOwnOnlyAppends(n: Node, data: seq<Byte>)
    requires Valid(n.log) && n.term >= 1 && n.id in n.pr
    ensures var n1 := AppendOwn(n, data);
            && n1 == n.(log := n1.log, pr := n1.pr)
            && AppendedOwn(n.log, n1.log, Entry(n.term, LastIndex(n.log) + 1, 0, data))
  {
    AppendOwnAppends(n.log, Entry(n.term, LastIndex(n.log) + 1, 0, data));
  }
}
