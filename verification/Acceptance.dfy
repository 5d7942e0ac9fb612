/** What accepting an append is worth.  A follower that accepts promises to agree with the leader
    through the last index of the message; it may have promised more in replies that have not left
    yet.  The promise is true exactly under conditions that the follower could check. */
module Acceptance {
  import opened Bytes
  import opened RaftTypes
  import opened LogSpec
  import opened LogTheorems

  /** The log agrees with the leader's through index i. */
  ghost predicate AgreesThrough(l: Log, leaderLog: seq<Entry>, i: nat)
    requires Valid(l)
  {
    i <= |leaderLog| && leaderLog[..i] <= Logical(l)
  }

  /** A run of the leader's log with the true previous term, also if it is empty. */
  ghost predicate RunFull(leaderLog: seq<Entry>, prev: nat, prevTerm: nat, es: seq<Entry>) {
    && prev + |es| <= |leaderLog| && es == leaderLog[prev..prev + |es|]
    && prevTerm == if prev == 0 then 0 else leaderLog[prev - 1].term
  }

  /** The window is not cut below index i by a message that ends at `last`. */
  predicate KeepsIndex(l: Log, last: nat, i: nat) {
    l.window == [] || i < l.offset || i <= last
  }

  /** The cut brings the stored tail back, and that holds the leader's entry at i as well. */
  ghost predicate TailServes(l: Log, leaderLog: seq<Entry>, last: nat, i: nat) {
    last < l.offset && 1 <= i <= |l.stored| && i <= |leaderLog| && l.stored[i - 1].term == leaderLog[i - 1].term
  }

  /** The conditions: a conflict lies above the commit index; without one, the log itself reaches to the
      end of the message, and nothing promised is cut off. */
  ghost predicate Sound(l: Log, leaderLog: seq<Entry>, prev: nat, es: seq<Entry>, promised: nat) {
    var k, last := ConflictPos(l, es), prev + |es|;
    if k < |es| then es[k].index > l.committed
    else last <= LastIndex(l) &&
         (last < LastIndex(l) ==> KeepsIndex(l, last, promised) || TailServes(l, leaderLog, last, promised))
  }

  /** Terms are confirmed in front of the first conflict, and not at it. */
  lemma {:induction false} ConflictPosSplits(l: Log, es: seq<Entry>)
    ensures forall j :: 0 <= j < ConflictPos(l, es) ==> TermAt(l, es[j].index) == es[j].term
    ensures var k := ConflictPos(l, es); k < |es| ==> TermAt(l, es[k].index) != es[k].term
  {
    if es != [] && TermAt(l, es[0].index) == es[0].term {
      ConflictPosSplits(l, es[1..]);
      forall j | 0 <= j < ConflictPos(l, es) ensures TermAt(l, es[j].index) == es[j].term {
        if j > 0 { assert es[j] == es[1..][j - 1]; }
      }
    }
  }

  /** Where the log confirms the leader's term at index i, one of its layers holds the leader's prefix. */
  lemma {:induction false} ConfirmedMatch(l: Log, leaderLog: seq<Entry>, i: nat)
    requires Valid(l) && LogsMatch(Logical(l), leaderLog) && LogsMatch(l.stored, leaderLog) && Numbered(leaderLog, 1)
    requires i <= |leaderLog| && (i > 0 ==> TermAt(l, i) == leaderLog[i - 1].term)
    ensures if i <= LastIndex(l) then AgreesThrough(l, leaderLog, i)
            else i <= |l.stored| && l.stored[..i] == leaderLog[..i]
  {
    if i > 0 {
      if i <= LastIndex(l) {
        TermRefines(l, i);
        assert Logical(l)[i - 1].term == leaderLog[i - 1].term;
        assert Logical(l)[..i] == leaderLog[..i];
      } else {
        assert l.stored[i - 1].term == leaderLog[i - 1].term;
      }
    }
  }

  lemma {:induction false} AgreedTerm(l: Log, leaderLog: seq<Entry>, i: nat, j: nat)
    requires Valid(l) && AgreesThrough(l, leaderLog, i) && 1 <= j <= i
    ensures TermAt(l, j) == leaderLog[j - 1].term
  {
    LogicalNumbered(l);
    TermRefines(l, j);
    assert leaderLog[..i][j - 1] == Logical(l)[j - 1];
  }

  lemma {:induction false} AgreesLess(l: Log, leaderLog: seq<Entry>, i: nat, j: nat)
    requires Valid(l) && AgreesThrough(l, leaderLog, i) && j <= i
    ensures AgreesThrough(l, leaderLog, j)
  {
    assert leaderLog[..j] == leaderLog[..i][..j];
  }

  // ----- a conflict -----

  /** A conflict lies beyond everything the log agrees on. */
  lemma {:induction false} ConflictBeyond(l: Log, leaderLog: seq<Entry>, prev: nat, es: seq<Entry>, i: nat)
    requires Valid(l) && Numbered(leaderLog, 1) && AgreesThrough(l, leaderLog, i)
    requires RunFull(leaderLog, prev, TermAt(l, prev), es) && ConflictPos(l, es) < |es|
    ensures var k := ConflictPos(l, es); es[k].index == prev + k + 1 > i && TermAt(l, prev + k + 1) != leaderLog[prev + k].term
  {
    var k := ConflictPos(l, es);
    ConflictPosSplits(l, es);
    assert es[k] == leaderLog[prev + k];
    if prev + k + 1 <= i { AgreedTerm(l, leaderLog, i, prev + k + 1); }
  }

  /** The entry in front of a conflict is confirmed. */
  lemma {:induction false} FrontConfirmed(l: Log, leaderLog: seq<Entry>, prev: nat, es: seq<Entry>)
    requires Numbered(leaderLog, 1) && RunFull(leaderLog, prev, TermAt(l, prev), es)
    ensures var c := prev + ConflictPos(l, es); c > 0 ==> TermAt(l, c) == leaderLog[c - 1].term
  {
    var k := ConflictPos(l, es);
    ConflictPosSplits(l, es);
    if k > 0 { assert es[k - 1] == leaderLog[prev + k - 1] && es[k - 1].index == prev + k; }
  }

  /** Where the window is replaced, and where the entries are spliced in. */
  lemma {:induction false} Replaced(l: Log, leaderLog: seq<Entry>, c: nat, es: seq<Entry>)
    requires Valid(l) && es != [] && Numbered(es, c + 1) && c + |es| <= |leaderLog| && es == leaderLog[c..c + |es|]
    requires c <= |l.stored| && l.stored[..c] == leaderLog[..c]
    ensures var l' := l.(offset := c + 1, window := es); Valid(l') && Logical(l') == leaderLog[..c + |es|]
  {
    assert leaderLog[..c] + es == leaderLog[..c + |es|];
  }

  lemma {:induction false} Spliced(l: Log, leaderLog: seq<Entry>, c: nat, es: seq<Entry>)
    requires Valid(l) && es != [] && Numbered(es, c + 1) && l.window != [] && l.offset <= c <= LastIndex(l)
    requires AgreesThrough(l, leaderLog, c) && c + |es| <= |leaderLog| && es == leaderLog[c..c + |es|]
    ensures var l' := l.(window := l.window[..c + 1 - l.offset] + es); Valid(l') && Logical(l') == leaderLog[..c + |es|]
  {
    var l' := l.(window := l.window[..c + 1 - l.offset] + es);
    assert Logical(l') == Logical(l)[..c] + es;
    assert leaderLog[..c] + es == leaderLog[..c + |es|];
  }

  /** Overwriting behind an index that one of the layers agrees on. */
  lemma {:induction false} OverwriteAt(l: Log, leaderLog: seq<Entry>, c: nat, es: seq<Entry>)
    requires Valid(l) && es != [] && Numbered(es, c + 1) && c + |es| <= |leaderLog| && es == leaderLog[c..c + |es|]
    requires if c <= LastIndex(l) then AgreesThrough(l, leaderLog, c) else c <= |l.stored| && l.stored[..c] == leaderLog[..c]
    ensures var l' := TruncateAndAppend(l, es);
            && Valid(l') && l' == l.(offset := l'.offset, window := l'.window) && Logical(l') == leaderLog[..c + |es|]
            && l'.window != [] && l'.offset >= if l.window == [] then c + 1 else Min(l.offset, c + 1)
  {
    if l.window == [] || c + 1 <= l.offset || c + 1 > l.offset + |l.window| {
      StoredFront(l, leaderLog, c);
      Replaced(l, leaderLog, c, es);
    } else {
      Spliced(l, leaderLog, c, es);
    }
    hide Logical;
    hide Numbered;
  }

  lemma {:induction false} RestOfRun(leaderLog: seq<Entry>, prev: nat, es: seq<Entry>, k: nat)
    requires Numbered(leaderLog, 1) && prev + |es| <= |leaderLog| && es == leaderLog[prev..prev + |es|] && k < |es|
    ensures var c, rest := prev + k, es[k..];
            rest != [] && Numbered(rest, c + 1) && c + |rest| == prev + |es| && rest == leaderLog[c..c + |rest|]
  {
  }

  /** A conflict that is overwritten. */
  lemma {:induction false} OverwriteAgrees(l: Log, leaderLog: seq<Entry>, prev: nat, es: seq<Entry>)
    requires Valid(l) && LogsMatch(Logical(l), leaderLog) && LogsMatch(l.stored, leaderLog) && Numbered(leaderLog, 1)
    requires RunFull(leaderLog, prev, TermAt(l, prev), es) && ConflictPos(l, es) < |es|
    ensures var k := ConflictPos(l, es);
            var l' := TruncateAndAppend(l, es[k..]);
            && Valid(l') && l' == l.(offset := l'.offset, window := l'.window) && Logical(l') == leaderLog[..prev + |es|]
            && l'.window != [] && l'.offset >= if l.window == [] then prev + k + 1 else Min(l.offset, prev + k + 1)
  {
    hide LogsMatch;
    hide ConflictPos;
    hide TruncateAndAppend;
    hide TermAt;
    hide Numbered;
    var k := ConflictPos(l, es);
    FrontConfirmed(l, leaderLog, prev, es);
    RestOfRun(leaderLog, prev, es, k);
    ConfirmedMatch(l, leaderLog, prev + k);
    hide Logical;
    OverwriteAt(l, leaderLog, prev + k, es[k..]);
  }

  /** Outside the window, storage is what the log agrees with. */
  lemma {:induction false} StoredFront(l: Log, leaderLog: seq<Entry>, c: nat)
    requires Valid(l) && c <= |leaderLog| && (l.window == [] || c < l.offset || c >= l.offset + |l.window|)
    requires if c <= LastIndex(l) then AgreesThrough(l, leaderLog, c) else c <= |l.stored| && l.stored[..c] == leaderLog[..c]
    ensures c <= |l.stored| && l.stored[..c] == leaderLog[..c]
  {
    LogicalNumbered(l);
    if c <= LastIndex(l) { assert Logical(l)[..c] == leaderLog[..c]; }
  }

  /** A conflict that stays keeps the logs apart. */
  lemma {:induction false} UnresolvedConflict(l: Log, leaderLog: seq<Entry>, last: nat, i: nat)
    requires Valid(l) && 1 <= i <= last <= |leaderLog| && TermAt(l, i) != leaderLog[i - 1].term
    ensures !AgreesThrough(l, leaderLog, last)
  {
    if AgreesThrough(l, leaderLog, last) { AgreedTerm(l, leaderLog, last, i); }
  }

  // ----- no conflict -----

  /** Without a conflict the log confirms the last entry of the message. */
  lemma {:induction false} LastConfirmed(l: Log, leaderLog: seq<Entry>, prev: nat, es: seq<Entry>)
    requires Numbered(leaderLog, 1) && RunFull(leaderLog, prev, TermAt(l, prev), es) && ConflictPos(l, es) == |es|
    ensures prev + |es| > 0 ==> TermAt(l, prev + |es|) == leaderLog[prev + |es| - 1].term
  {
    FrontConfirmed(l, leaderLog, prev, es);
  }

  /** What the cut leaves. */
  lemma {:induction false} CutAgrees(l: Log, leaderLog: seq<Entry>, last: nat, promised: nat)
    requires Valid(l) && LogsMatch(l.stored, leaderLog) && last < LastIndex(l)
    requires AgreesThrough(l, leaderLog, last) && AgreesThrough(l, leaderLog, promised)
    ensures var l' := TruncateFrom(l, last + 1);
            Valid(l') && (AgreesThrough(l', leaderLog, Max(promised, last)) <==>
                          KeepsIndex(l, last, promised) || TailServes(l, leaderLog, last, promised))
  {
    TruncationOutcome(l, last);
    var l' := TruncateFrom(l, last + 1);
    LogicalNumbered(l);
    LogicalNumbered(l');
    if l.window != [] && last < l.offset {
      assert l.stored[..l.offset - 1] == Logical(l)[..l.offset - 1];
      if TailServes(l, leaderLog, last, promised) {
        assert l.stored[..promised] == leaderLog[..promised];
      }
      assert promised >= 1 && promised <= |leaderLog| && leaderLog[..promised] <= l.stored
             ==> leaderLog[..promised][promised - 1] == l.stored[promised - 1];
    }
  }

  // ----- the condition -----

  /** An accepted append leaves the follower agreeing with the leader, through the last index of the
      message and through an index promised before, exactly under those conditions. */
  lemma {:induction false} AcceptanceIsTrueExactlyWhen(l: Log, leaderLog: seq<Entry>, prev: nat, commit: nat, es: seq<Entry>, promised: nat)
    requires Valid(l) && LogsMatch(Logical(l), leaderLog) && LogsMatch(l.stored, leaderLog) && Numbered(leaderLog, 1)
    requires RunFull(leaderLog, prev, TermAt(l, prev), es) && AgreesThrough(l, leaderLog, promised)
    ensures var (l', ok) := MaybeAppend(l, prev, TermAt(l, prev), commit, es);
            && ok && Valid(l')
            && (AgreesThrough(l', leaderLog, Max(promised, prev + |es|)) <==> Sound(l, leaderLog, prev, es, promised))
  {
    var last := prev + |es|;
    ReconcileAgrees(l, leaderLog, prev, es, promised);
    hide Reconcile;
    hide Sound;
  }

  lemma {:induction false} ConflictCase(l: Log, leaderLog: seq<Entry>, prev: nat, es: seq<Entry>, promised: nat)
    requires Valid(l) && LogsMatch(Logical(l), leaderLog) && LogsMatch(l.stored, leaderLog) && Numbered(leaderLog, 1)
    requires RunFull(leaderLog, prev, TermAt(l, prev), es) && AgreesThrough(l, leaderLog, promised)
    requires ConflictPos(l, es) < |es|
    ensures var l' := Reconcile(l, prev, es);
            && Valid(l') && Max(promised, prev + |es|) == prev + |es|
            && (AgreesThrough(l', leaderLog, prev + |es|) <==> es[ConflictPos(l, es)].index > l.committed)
  {
    hide LogsMatch;
    hide ConflictPos;
    hide TruncateAndAppend;
    hide TermAt;
    hide Numbered;
    hide Logical;
    var k, last := ConflictPos(l, es), prev + |es|;
    ConflictBeyond(l, leaderLog, prev, es, promised);
    OverwriteAgrees(l, leaderLog, prev, es);
    UnresolvedConflict(l, leaderLog, last, prev + k + 1);
  }

  lemma {:induction false} NoConflictCase(l: Log, leaderLog: seq<Entry>, prev: nat, es: seq<Entry>, promised: nat)
    requires Valid(l) && LogsMatch(Logical(l), leaderLog) && LogsMatch(l.stored, leaderLog) && Numbered(leaderLog, 1)
    requires RunFull(leaderLog, prev, TermAt(l, prev), es) && AgreesThrough(l, leaderLog, promised)
    requires ConflictPos(l, es) == |es|
    ensures var l', last := Reconcile(l, prev, es), prev + |es|;
            && Valid(l')
            && (AgreesThrough(l', leaderLog, Max(promised, last)) <==>
                last <= LastIndex(l) &&
                (last < LastIndex(l) ==> KeepsIndex(l, last, promised) || TailServes(l, leaderLog, last, promised)))
  {
    hide LogsMatch;
    hide ConflictPos;
    hide TermAt;
    hide Numbered;
    hide TruncateFrom;
    var last := prev + |es|;
    LogicalNumbered(l);
    LastConfirmed(l, leaderLog, prev, es);
    ConfirmedMatch(l, leaderLog, last);
    if last < LastIndex(l) { CutAgrees(l, leaderLog, last, promised); }
    hide Logical;
  }

  lemma {:induction false} ReconcileAgrees(l: Log, leaderLog: seq<Entry>, prev: nat, es: seq<Entry>, promised: nat)
    requires Valid(l) && LogsMatch(Logical(l), leaderLog) && LogsMatch(l.stored, leaderLog) && Numbered(leaderLog, 1)
    requires RunFull(leaderLog, prev, TermAt(l, prev), es) && AgreesThrough(l, leaderLog, promised)
    ensures var l' := Reconcile(l, prev, es);
            && Valid(l')
            && (AgreesThrough(l', leaderLog, Max(promised, prev + |es|)) <==> Sound(l, leaderLog, prev, es, promised))
  {
    if ConflictPos(l, es) < |es| {
      ConflictCase(l, leaderLog, prev, es, promised);
    } else {
      NoConflictCase(l, leaderLog, prev, es, promised);
    }
    hide Reconcile;
    hide Valid;
    hide AgreesThrough;
  }
}
