/** A careful append, log by log: what it leaves of the entries that were claimed, stored or committed. */
module AppendSteps {
  import opened Bytes
  import opened RaftTypes
  import opened LogSpec
  import opened LogTheorems
  import opened Acceptance

  /** What the two logs and the message have to do with each other. */
  ghost predicate Related(l: Log, leaderLog: seq<Entry>, prev: nat, prevTerm: nat, es: seq<Entry>) {
    && Valid(l) && LogsMatch(Logical(l), leaderLog) && LogsMatch(l.stored, leaderLog) && Numbered(leaderLog, 1)
    && RunFull(leaderLog, prev, prevTerm, es)
  }

  /** An accepted append conflicts above the commit index, or the log reaches to its end. */
  ghost predicate CarefulEnd(l: Log, prev: nat, prevTerm: nat, es: seq<Entry>) {
    TermAt(l, prev) == prevTerm ==>
      var k := ConflictPos(l, es);
      if k < |es| then es[k].index > l.committed else prev + |es| <= LastIndex(l)
  }

  /** ... and does not cut the window below index i. */
  ghost predicate CarefulOf(l: Log, prev: nat, prevTerm: nat, es: seq<Entry>, i: nat) {
    TermAt(l, prev) == prevTerm && ConflictPos(l, es) == |es| && prev + |es| < LastIndex(l) ==> KeepsIndex(l, prev + |es|, i)
  }

  /** What the log agreed on with the leader it still agrees on, and an acceptance is true. */
  lemma {:induction false} CarefulAgrees(l: Log, leaderLog: seq<Entry>, prev: nat, prevTerm: nat, commit: nat, es: seq<Entry>, i: nat)
    requires Related(l, leaderLog, prev, prevTerm, es) && CarefulEnd(l, prev, prevTerm, es) && CarefulOf(l, prev, prevTerm, es, i)
    requires AgreesThrough(l, leaderLog, i)
    ensures var (l', ok) := MaybeAppend(l, prev, prevTerm, commit, es);
            Valid(l') && AgreesThrough(l', leaderLog, i) && (ok ==> AgreesThrough(l', leaderLog, prev + |es|))
  {
    if TermAt(l, prev) == prevTerm {
      AcceptanceIsTrueExactlyWhen(l, leaderLog, prev, commit, es, i);
      hide LogsMatch;
      hide MaybeAppend;
      var l' := MaybeAppend(l, prev, prevTerm, commit, es).0;
      assert Sound(l, leaderLog, prev, es, i);
      AgreesLess(l', leaderLog, Max(i, prev + |es|), i);
      AgreesLess(l', leaderLog, Max(i, prev + |es|), prev + |es|);
    }
  }

  lemma {:induction false} AcceptedAgrees(l: Log, leaderLog: seq<Entry>, prev: nat, prevTerm: nat, commit: nat, es: seq<Entry>)
    requires Related(l, leaderLog, prev, prevTerm, es) && CarefulEnd(l, prev, prevTerm, es)
    ensures var (l', ok) := MaybeAppend(l, prev, prevTerm, commit, es);
            Valid(l') && (ok ==> AgreesThrough(l', leaderLog, prev + |es|))
  {
    hide MaybeAppend;
    assert AgreesThrough(l, leaderLog, 0);
    assert CarefulOf(l, prev, prevTerm, es, 0);
    CarefulAgrees(l, leaderLog, prev, prevTerm, commit, es, 0);
  }

  lemma {:induction false} OverwriteBeyond(l: Log, leaderLog: seq<Entry>, prev: nat, es: seq<Entry>, k: nat)
    requires Related(l, leaderLog, prev, TermAt(l, prev), es) && AgreesThrough(l, leaderLog, k) && (l.window == [] || l.offset > k)
    requires ConflictPos(l, es) < |es|
    ensures var l' := TruncateAndAppend(l, es[ConflictPos(l, es)..]); l'.stored == l.stored && l'.offset > k
  {
    hide LogsMatch;
    hide Numbered;
    hide Logical;
    hide TruncateAndAppend;
    hide ConflictPos;
    hide TermAt;
    ConflictBeyond(l, leaderLog, prev, es, k);
    OverwriteAgrees(l, leaderLog, prev, es);
  }

  /** Storage is untouched, and the window stays beyond what storage shares with the leader. */
  lemma {:induction false} WindowStaysBeyond(l: Log, leaderLog: seq<Entry>, prev: nat, prevTerm: nat, commit: nat, es: seq<Entry>, k: nat)
    requires Related(l, leaderLog, prev, prevTerm, es) && AgreesThrough(l, leaderLog, k) && (l.window == [] || l.offset > k)
    ensures var l' := MaybeAppend(l, prev, prevTerm, commit, es).0;
            l'.stored == l.stored && (l'.window == [] || l'.offset > k)
  {
    hide Related;
    hide AgreesThrough;
    hide ConflictPos;
    hide TruncateAndAppend;
    hide TermAt;
    if TermAt(l, prev) == prevTerm && ConflictPos(l, es) < |es| { OverwriteBeyond(l, leaderLog, prev, es, k); }
  }

  /** The log, as far as index i reaches, is the leader's. */
  ghost predicate WithinLeader(log: seq<Entry>, leaderLog: seq<Entry>, i: nat) { log[..Min(i, |log|)] <= leaderLog }

  /** A log that ends below i and is all the leader's stays within it, or is not cut. */
  lemma {:induction false} ShortStaysWithin(l: Log, leaderLog: seq<Entry>, prev: nat, es: seq<Entry>, i: nat)
    requires Related(l, leaderLog, prev, TermAt(l, prev), es) && CarefulOf(l, prev, TermAt(l, prev), es, i)
    requires Logical(l) <= leaderLog && i > LastIndex(l)
    ensures Valid(Reconcile(l, prev, es)) && Logical(Reconcile(l, prev, es)) <= leaderLog
  {
    LogicalNumbered(l);
    if ConflictPos(l, es) < |es| {
      OverwriteAgrees(l, leaderLog, prev, es);
      hide TruncateAndAppend;
      hide ConflictPos;
      hide LogsMatch;
    } else {
      hide ConflictPos;
      hide LogsMatch;
    }
  }

  lemma {:induction false} LongStaysWithin(l: Log, leaderLog: seq<Entry>, prev: nat, prevTerm: nat, commit: nat, es: seq<Entry>, i: nat)
    requires Related(l, leaderLog, prev, prevTerm, es) && CarefulEnd(l, prev, prevTerm, es) && CarefulOf(l, prev, prevTerm, es, i)
    requires i <= |leaderLog| && WithinLeader(Logical(l), leaderLog, i) && i <= LastIndex(l)
    ensures var l' := MaybeAppend(l, prev, prevTerm, commit, es).0;
            Valid(l') && WithinLeader(Logical(l'), leaderLog, i)
  {
    LogicalNumbered(l);
    assert AgreesThrough(l, leaderLog, i);
    hide Related;
    hide CarefulEnd;
    hide CarefulOf;
    hide MaybeAppend;
    hide Logical;
    CarefulAgrees(l, leaderLog, prev, prevTerm, commit, es, i);
  }

  lemma {:induction false} CarefulWithin(l: Log, leaderLog: seq<Entry>, prev: nat, prevTerm: nat, commit: nat, es: seq<Entry>, i: nat)
    requires Related(l, leaderLog, prev, prevTerm, es) && CarefulEnd(l, prev, prevTerm, es) && CarefulOf(l, prev, prevTerm, es, i)
    requires i <= |leaderLog| && WithinLeader(Logical(l), leaderLog, i)
    ensures var l' := MaybeAppend(l, prev, prevTerm, commit, es).0;
            Valid(l') && WithinLeader(Logical(l'), leaderLog, i)
  {
    hide LogsMatch;
    hide Numbered;
    hide ConflictPos;
    hide TermAt;
    hide Reconcile;
    if i <= LastIndex(l) {
      LongStaysWithin(l, leaderLog, prev, prevTerm, commit, es, i);
    } else {
      LogicalNumbered(l);
      assert Logical(l)[..|Logical(l)|] == Logical(l);
      if TermAt(l, prev) == prevTerm { ShortStaysWithin(l, leaderLog, prev, es, i); }
      hide Logical;
    }
  }
}
