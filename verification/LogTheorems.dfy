/** The two layers behave as one log: slices, the Ready cycle and the follower's append. */
module LogTheorems {
  import opened Bytes
  import opened RaftTypes
  import opened LogSpec

  /** Appending to the logical log keeps numbering. */
  lemma {:induction false} LogicalNumbered(l: Log)
    requires Valid(l)
    ensures Numbered(Logical(l), 1) && |Logical(l)| == LastIndex(l)
  {
  }

  // ----- slices -----

  /** r is the run of `log` that starts at index lo. */
  ghost predicate RunFrom(r: seq<Entry>, log: seq<Entry>, lo: nat)
    requires lo >= 1
  {
    r == [] || (lo - 1 + |r| <= |log| && r == log[lo - 1..lo - 1 + |r|])
  }

  lemma {:induction false} PrefixOfRun(p: seq<Entry>, r: seq<Entry>, log: seq<Entry>, lo: nat)
    requires lo >= 1 && RunFrom(r, log, lo) && p <= r
    ensures RunFrom(p, log, lo)
  {
  }

  lemma {:induction false} JoinedRuns(a: seq<Entry>, b: seq<Entry>, log: seq<Entry>, lo: nat)
    requires lo >= 1 && RunFrom(a, log, lo) && RunFrom(b, log, lo + |a|)
    ensures RunFrom(a + b, log, lo)
  {
  }

  lemma {:induction false} StorageRun(l: Log, lo: nat, hi: nat, maxSize: nat)
    requires Valid(l) && 1 <= lo < hi <= LastIndex(l) + 1
    ensures lo < l.offset ==> Min(hi, l.offset) <= |l.stored| + 1
    ensures var r := StoragePart(l, lo, hi, maxSize);
            RunFrom(r, Logical(l), lo) && (lo < l.offset ==> |r| <= Min(hi, l.offset) - lo)
  {
  }

  lemma {:induction false} WindowRun(l: Log, lo: nat, hi: nat)
    requires Valid(l) && 1 <= lo < hi <= LastIndex(l) + 1
    ensures var r := WindowPart(l, lo, hi);
            RunFrom(r, Logical(l), Max(lo, l.offset)) && (r != [] ==> |r| == hi - Max(lo, l.offset))
  {
  }

  /** Within bounds a slice never throws and is a contiguous run of the logical log from `lo`. */
  lemma {:induction false} SliceIsPrefix(l: Log, lo: nat, hi: nat, maxSize: nat)
    requires Valid(l) && 1 <= lo && hi <= LastIndex(l) + 1
    ensures Slice(l, lo, hi, maxSize).Some?
    ensures RunFrom(Slice(l, lo, hi, maxSize).value, Logical(l), lo)
    ensures lo < hi ==> |Slice(l, lo, hi, maxSize).value| <= hi - lo
  {
    if lo < hi {
      StorageRun(l, lo, hi, maxSize);
      WindowRun(l, lo, hi);
      var a, b := StoragePart(l, lo, hi, maxSize), WindowPart(l, lo, hi);
      if lo >= l.offset || |a| == Min(hi, l.offset) - lo {
        JoinedRuns(a, b, Logical(l), lo);
        PrefixOfRun(Cut(a + b, maxSize), a + b, Logical(l), lo);
      }
    }
  }

  lemma {:induction false} SliceLength(l: Log, lo: nat, hi: nat)
    requires Valid(l) && 1 <= lo < hi <= LastIndex(l) + 1 && Slice(l, lo, hi, NO_LIMIT).Some?
    ensures |Slice(l, lo, hi, NO_LIMIT).value| == hi - lo <==> l.window != [] || hi <= l.offset
  {
    var a, b := StoragePart(l, lo, hi, NO_LIMIT), WindowPart(l, lo, hi);
    assert |a| == if lo < l.offset then Min(hi, l.offset) - lo else 0;
    assert |b| == if l.window != [] && hi > l.offset then hi - Max(lo, l.offset) else 0;
    hide StoragePart;
    hide WindowPart;
  }

  /** Without a size limit the whole range comes back exactly when the window is in use or the
      range ends at or below the window's (possibly stale) offset. */
  lemma {:induction false} SliceIsComplete(l: Log, lo: nat, hi: nat)
    requires Valid(l) && 1 <= lo < hi <= LastIndex(l) + 1
    ensures Slice(l, lo, hi, NO_LIMIT) == Some(Logical(l)[lo - 1..hi - 1])
            <==> l.window != [] || hi <= l.offset
  {
    SliceIsPrefix(l, lo, hi, NO_LIMIT);
    SliceLength(l, lo, hi);
    hide Slice;
    var r := Slice(l, lo, hi, NO_LIMIT).value;
    assert |r| == hi - lo ==> r == Logical(l)[lo - 1..hi - 1];
  }

  /** A freshly started node hands out nothing to apply, however much is stored and committed,
      until its window has been used once. */
  lemma {:induction false} RestartAppliesNothing(stored: seq<Entry>, committed: nat)
    ensures NextCommitted(Log(stored, 0, [], committed, 0)) == []
  {
  }

  /** With everything confirmed, there is something to apply exactly when the commit index is ahead, is
      inside the log, and the next entry lies below the place where the window last stood. */
  lemma {:induction false} AppliesExactlyWhen(l: Log)
    requires Valid(l) && l.window == []
    ensures NextCommitted(l) != [] <==> l.applied < l.committed <= |l.stored| && l.applied + 1 < l.offset
  {
    var lo, hi := l.applied + 1, l.committed + 1;
    if l.applied < l.committed <= |l.stored| && lo < l.offset {
      assert |StoragePart(l, lo, hi, NO_LIMIT)| == Min(hi, l.offset) - lo > 0;
    }
  }

  // ----- the Ready cycle -----

  /** A leader's append reaches the log exactly when the commit index is inside it. */
  lemma {:induction false} AppendExtendsIffCommitInside(l: Log, e: Entry)
    requires Valid(l) && e.index == LastIndex(l) + 1 && e.term >= 1
    ensures var l' := Append(l, [e]);
            Valid(l') && (Logical(l') == Logical(l) + [e] <==> l.committed <= LastIndex(l))
  {
    var l' := Append(l, [e]);
    LogicalNumbered(l);
    if l.committed > LastIndex(l) {
      assert |Logical(l')| != |Logical(l) + [e]|;
    } else if l.window != [] {
      assert l'.window == l.window + [e];
    }
  }

  /** How the commit index gets outside: two entries arrive, a heartbeat commits both, and an empty append
      behind the first one cuts the window there.  The next proposal is dropped. */
  lemma {:induction false} ProposalDropped(data: seq<Byte>)
    ensures var e1, e2 := Entry(1, 1, 0, []), Entry(1, 2, 0, []);
            var l1 := CommitTo(MaybeAppend(Log([], 0, [], 0, 0), 0, 0, 0, [e1, e2]).0, 2);
            var (l2, ok) := MaybeAppend(l1, 1, 1, 0, []);
            && Logical(l1) == [e1, e2] && ok && Logical(l2) == [e1] && l2.committed == 2
            && Append(l2, [Entry(2, 2, 0, data)]) == l2
  {
    var e1, e2 := Entry(1, 1, 0, []), Entry(1, 2, 0, []);
    var l := Log([], 0, [], 0, 0);
    assert ConflictPos(l, [e1, e2]) == 0 && [e1, e2][0..] == [e1, e2];
    var l1 := CommitTo(MaybeAppend(l, 0, 0, 0, [e1, e2]).0, 2);
    assert l1 == Log([], 1, [e1, e2], 2, 0) && [] + [e1, e2] == [e1, e2];
    var l2 := MaybeAppend(l1, 1, 1, 0, []).0;
    assert [e1, e2][..1] == [e1];
    assert l2 == Log([], 1, [e1], 2, 0) && [] + [e1] == [e1];
  }

  /** Proposals arriving one at a time. */
  function AppendAll(l: Log, es: seq<Entry>): Log
    decreases |es|
  {
    if es == [] then l else AppendAll(Append(l, [es[0]]), es[1..])
  }

  lemma {:induction false} AppendAllExtends(l: Log, es: seq<Entry>)
    requires Valid(l) && Numbered(es, LastIndex(l) + 1) && l.committed <= LastIndex(l)
    ensures var l' := AppendAll(l, es);
            && Valid(l') && l'.stored == l.stored && l'.committed == l.committed
            && l'.window == l.window + es
            && l'.offset == if l.window == [] && es != [] then |l.stored| + 1 else l.offset
    decreases |es|
  {
    if es != [] {
      var l1 := Append(l, [es[0]]);
      assert l1.window == l.window + [es[0]];
      assert LastIndex(l1) == LastIndex(l) + 1;
      AppendAllExtends(l1, es[1..]);
      assert l.window + [es[0]] + es[1..] == l.window + es;
    }
  }

  lemma {:induction false} ProposalsExtend(l: Log, es: seq<Entry>)
    requires Valid(l) && Numbered(es, LastIndex(l) + 1) && l.committed <= LastIndex(l)
    ensures var l' := AppendAll(l, es);
            && Valid(l') && Logical(l') == Logical(l) + es && LastIndex(l') == LastIndex(l) + |es|
            && l'.stored == l.stored && l'.window == l.window + es && l'.committed == l.committed
  {
    AppendAllExtends(l, es);
    hide AppendAll;
  }

  function LastOf(es: seq<Entry>): nat { if es == [] then 0 else es[|es| - 1].index }

  /** The batch is at the front of the window and at the end of storage. */
  ghost predicate WrittenThrough(log: Log, es: seq<Entry>) {
    es != [] ==> && es <= log.window && log.offset >= 1
                 && log.offset - 1 + |es| == |log.stored| && log.stored[log.offset - 1..] == es
  }

  /** Writing the frozen batch, and confirming it, leave the logical log as it is. */
  lemma {:induction false} PersistWritesThrough(l: Log, es: seq<Entry>)
    requires Valid(l) && es <= l.window
    ensures var l' := Persist(l, es);
            && Valid(l') && Logical(l') == Logical(l) && l'.window == l.window && l'.offset == l.offset
            && l'.committed == l.committed && (es != [] ==> l'.stored == l.stored[..l.offset - 1] + es)
            && WrittenThrough(l', es) && (l'.stored == l.stored || l'.stored <= Logical(l))
  {
    var l' := Persist(l, es);
    if es != [] {
      assert l'.stored == l.stored[..l.offset - 1] + es;
      assert Logical(l') == Logical(l);
    }
  }

  lemma {:induction false} LayersJoin(stored: seq<Entry>, k: nat, window: seq<Entry>, es: seq<Entry>)
    requires k <= |stored| && es <= window && stored[k..] == es
    ensures stored[..k] + window == stored + window[|es|..]
  {
    assert stored == stored[..k] + es && window == es + window[|es|..];
  }

  lemma {:induction false} StableDrops(l: Log, es: seq<Entry>)
    requires Valid(l) && es != [] && es <= l.window
    ensures LastOf(es) > 0 && StableTo(l, LastOf(es)) == l.(window := l.window[|es|..], offset := l.offset + |es|)
  {
    assert l.window[|es| - 1].index == LastOf(es) == l.offset + |es| - 1;
  }

  /** Confirming a written batch drops it from the window and nothing else. */
  lemma {:induction false} StableKeepsLogical(l: Log, es: seq<Entry>)
    requires Valid(l) && WrittenThrough(l, es)
    ensures var l' := if LastOf(es) > 0 then StableTo(l, LastOf(es)) else l;
            && Valid(l') && Logical(l') == Logical(l) && l'.stored == l.stored
            && (es != [] ==> l'.window == l.window[|es|..])
  {
    if es != [] {
      StableDrops(l, es);
      hide StableTo;
      hide LastOf;
      LayersJoin(l.stored, l.offset - 1, l.window, es);
      assert l.stored[..|l.stored|] == l.stored;
    }
  }

  /** The first half: what was polled is stored, in front of the proposals. */
  lemma {:induction false} PolledIsStored(l: Log, a: seq<Entry>)
    requires Valid(l) && l.window != [] && l.committed <= LastIndex(l) && Numbered(a, LastIndex(l) + 1)
    ensures var written := Persist(AppendAll(l, a), l.window);
            && Valid(written) && Logical(written) == Logical(l) + a && LastIndex(written) == LastIndex(l) + |a|
            && written.stored == Logical(l) && written.window == l.window + a && written.committed == l.committed
            && WrittenThrough(written, l.window)
  {
    AppendAllExtends(l, a);
    hide AppendAll;
    var before := AppendAll(l, a);
    assert l.window <= before.window;
    PersistWritesThrough(before, l.window);
    hide Persist;
    hide WrittenThrough;
    hide Numbered;
  }

  /** The second half: more proposals, then the confirmation. */
  lemma {:induction false} ConfirmedIsDropped(w: Log, polled: seq<Entry>, b: seq<Entry>)
    requires Valid(w) && polled != [] && polled <= w.window && WrittenThrough(w, polled)
    requires w.committed <= LastIndex(w) && Numbered(b, LastIndex(w) + 1)
    ensures var advanced := StableTo(AppendAll(w, b), LastOf(polled));
            && Valid(advanced) && Logical(advanced) == Logical(w) + b
            && advanced.stored == w.stored && advanced.window == w.window[|polled|..] + b
  {
    AppendAllExtends(w, b);
    hide AppendAll;
    var after := AppendAll(w, b);
    assert Logical(after) == Logical(w) + b;
    assert after.window[|polled|..] == w.window[|polled|..] + b;
    assert LastOf(polled) == w.window[|polled| - 1].index > 0;
    assert polled <= after.window;
    StableKeepsLogical(after, polled);
    hide StableTo;
    hide Numbered;
    hide WrittenThrough;
  }

  /** poll, write, advance, with proposals `a` arriving before the write and `b` after it: the
      logical log is what it was plus the proposals, what was polled is stored, and what is left in
      the window is the proposals. */
  lemma {:induction false} ReadyCycle(l: Log, a: seq<Entry>, b: seq<Entry>)
    requires Valid(l) && l.committed <= LastIndex(l)
    requires Numbered(a, LastIndex(l) + 1) && Numbered(b, LastIndex(l) + 1 + |a|)
    ensures var polled := l.window;
            var written := Persist(AppendAll(l, a), polled);
            var after := AppendAll(written, b);
            var advanced := if LastOf(polled) > 0 then StableTo(after, LastOf(polled)) else after;
            && Valid(written) && Logical(written) == Logical(l) + a
            && Valid(advanced) && Logical(advanced) == Logical(l) + a + b
            && advanced.stored == Logical(l) && advanced.window == a + b
  {
    if l.window == [] {
      IdleCycle(l, a, b);
    } else {
      PolledIsStored(l, a);
      var polled := l.window;
      assert LastOf(polled) > 0;
      var written := Persist(AppendAll(l, a), polled);
      hide Persist;
      hide WrittenThrough;
      hide Logical;
      hide Numbered;
      ConfirmedIsDropped(written, polled, b);
      assert written.window[|polled|..] == a;
    }
  }

  /** A cycle that polls nothing. */
  lemma {:induction false} IdleCycle(l: Log, a: seq<Entry>, b: seq<Entry>)
    requires Valid(l) && l.window == [] && l.committed <= LastIndex(l)
    requires Numbered(a, LastIndex(l) + 1) && Numbered(b, LastIndex(l) + 1 + |a|)
    ensures var written := AppendAll(l, a);
            var after := AppendAll(written, b);
            && Valid(written) && Logical(written) == Logical(l) + a
            && Valid(after) && Logical(after) == Logical(l) + a + b && after.stored == l.stored && after.window == a + b
  {
    ProposalsExtend(l, a);
    var written := AppendAll(l, a);
    ProposalsExtend(written, b);
    hide *;
    assert [] + a == a;
  }

  // ----- the follower's append -----

  /** Entry j of the message sits in the log with the same term. */
  ghost predicate Agrees(log: seq<Entry>, prev: nat, es: seq<Entry>, j: nat)
    requires j < |es|
  {
    prev + j < |log| && log[prev + j].term == es[j].term
  }

  /** The first k entries of the message agree with the log, and the next one, if any, does not. */
  ghost predicate FirstMismatch(log: seq<Entry>, prev: nat, es: seq<Entry>, k: nat) {
    && k <= |es|
    && (forall j :: 0 <= j < k ==> Agrees(log, prev, es, j))
    && (k < |es| ==> !Agrees(log, prev, es, k))
  }

  /** What a leader may send: numbered from prev + 1, and entries only behind a real previous term. */
  ghost predicate LeaderMessage(prev: nat, prevTerm: nat, es: seq<Entry>) {
    Numbered(es, prev + 1) && (es != [] ==> prev == 0 || prevTerm >= 1)
  }

  lemma {:induction false} ConflictPosIsFirstMismatch(l: Log, prev: nat, es: seq<Entry>, k: nat)
    requires Valid(l) && l.window == [] && Numbered(es, prev + 1) && FirstMismatch(l.stored, prev, es, k)
    ensures ConflictPos(l, es) == k
    decreases |es|
  {
    if es != [] {
      assert Agrees(l.stored, prev, es, 0) <==> k > 0;
      if k > 0 {
        var next, rest := prev + 1, es[1..];
        forall j | 0 <= j < k - 1 ensures Agrees(l.stored, next, rest, j) {
          assert Agrees(l.stored, prev, es, j + 1);
        }
        assert k < |es| ==> !Agrees(l.stored, prev, es, k);
        ConflictPosIsFirstMismatch(l, next, rest, k - 1);
      }
    }
  }

  /** An accepted message with a mismatch: what is in front of the mismatch is in the log. */
  lemma {:induction false} MismatchInReach(l: Log, prev: nat, prevTerm: nat, es: seq<Entry>, k: nat)
    requires Valid(l) && l.window == [] && LeaderMessage(prev, prevTerm, es) && FirstMismatch(l.stored, prev, es, k)
    requires k < |es| && TermAt(l, prev) == prevTerm
    ensures prev + k <= |l.stored| && es[k].index == prev + k + 1
  {
    assert k > 0 ==> Agrees(l.stored, prev, es, k - 1);
  }

  /** With everything persisted, a follower's append leaves the log alone unless there is a real
      mismatch above the commit index, and then replaces it exactly from that mismatch on. */
  lemma {:induction false} FollowerAppend(l: Log, prev: nat, prevTerm: nat, commit: nat, es: seq<Entry>, k: nat)
    requires Valid(l) && l.window == [] && LeaderMessage(prev, prevTerm, es)
    requires FirstMismatch(l.stored, prev, es, k)
    ensures var (l', ok) := MaybeAppend(l, prev, prevTerm, commit, es);
            && Valid(l') && l'.stored == l.stored
            && (ok <==> TermAt(l, prev) == prevTerm)
            && (!ok ==> l' == l)
            && (ok && (k == |es| || prev + k + 1 <= l.committed) ==> Logical(l') == Logical(l))
            && (ok && k < |es| && prev + k + 1 > l.committed ==>
                  prev + k <= |l.stored| && Logical(l') == l.stored[..prev + k] + es[k..])
            && (ok && commit <= l.committed ==> l'.committed == l.committed)
            && (ok && commit > l.committed ==> l'.committed == Min(commit, prev + |es|))
  {
    hide ConflictPos;
    ConflictPosIsFirstMismatch(l, prev, es, k);
    if TermAt(l, prev) == prevTerm && k < |es| { MismatchInReach(l, prev, prevTerm, es, k); }
  }

  /** In particular nothing at or below the commit index changes. */
  lemma {:induction false} CommittedEntriesStay(l: Log, prev: nat, prevTerm: nat, commit: nat, es: seq<Entry>, k: nat, i: nat)
    requires Valid(l) && l.window == [] && LeaderMessage(prev, prevTerm, es)
    requires FirstMismatch(l.stored, prev, es, k)
    requires 1 <= i <= l.committed && i <= |l.stored|
    ensures var l' := MaybeAppend(l, prev, prevTerm, commit, es).0;
            Valid(l') && i <= |Logical(l')| && Logical(l')[i - 1] == Logical(l)[i - 1]
  {
    hide MaybeAppend;
    FollowerAppend(l, prev, prevTerm, commit, es, k);
  }

  /** The state after the appended entries have been written and confirmed. */
  function Flushed(l: Log): Log {
    if l.window == [] then l else StableTo(Persist(l, l.window), LastIndex(l))
  }

  lemma {:induction false} FlushedStores(l: Log)
    requires Valid(l)
    ensures var f := Flushed(l); Valid(f) && f.window == [] && f.stored == Logical(l) && f.committed == l.committed
  {
  }

  /** A second delivery of the same append, after the first was persisted, changes no entry. */
  lemma {:induction false} RedeliveryChangesNothing(l: Log, prev: nat, prevTerm: nat, commit: nat, es: seq<Entry>, k: nat)
    requires Valid(l) && l.window == [] && LeaderMessage(prev, prevTerm, es)
    requires FirstMismatch(l.stored, prev, es, k)
    ensures var once := Flushed(MaybeAppend(l, prev, prevTerm, commit, es).0);
            var twice := MaybeAppend(once, prev, prevTerm, commit, es).0;
            Valid(once) && Valid(twice) && Logical(twice) == Logical(once)
  {
    hide MaybeAppend;
    hide Flushed;
    var (l1, ok) := MaybeAppend(l, prev, prevTerm, commit, es);
    FollowerAppend(l, prev, prevTerm, commit, es, k);
    FlushedStores(l1);
    var once := Flushed(l1);
    if ok && k < |es| && prev + k + 1 > l.committed {
      forall j | 0 <= j < |es| ensures Agrees(once.stored, prev, es, j) {
        assert j < k ==> Agrees(l.stored, prev, es, j);
        assert j >= k ==> es[j] == es[k..][j - k];
      }
      FollowerAppend(once, prev, prevTerm, commit, es, |es|);
    } else {
      FollowerAppend(once, prev, prevTerm, commit, es, k);
    }
  }

  /** A message without a mismatch that ends inside the log cuts the window at its end; when that
      empties the window, the log falls back to everything that is stored.  Otherwise nothing is cut. */
  lemma {:induction false} TruncationOutcome(l: Log, lastNew: nat)
    requires Valid(l)
    ensures var l' := TruncateFrom(l, lastNew + 1);
            Valid(l') && Logical(l') == if l.window == [] || lastNew >= LastIndex(l) then Logical(l)
                                        else if lastNew >= l.offset then Logical(l)[..lastNew]
                                        else l.stored
  {
    if l.window != [] && l.offset <= lastNew < LastIndex(l) {
      var l' := TruncateFrom(l, lastNew + 1);
      assert l'.window == l.window[..lastNew + 1 - l.offset];
    }
  }

  /** So an overwritten stored tail can come back.  A follower stores the first entry of one leader, takes
      the entry that a later leader put in its place, and then that leader's first, empty probe, which was
      delayed: the old entry is its log again. */
  lemma {:induction false} OverwrittenTailReturns(first: Entry, recent: Entry)
    requires first.index == 1 && recent.index == 1 && 1 <= first.term < recent.term
    ensures var l1 := Flushed(MaybeAppend(Log([], 0, [], 0, 0), 0, 0, 0, [first]).0);
            var l2 := MaybeAppend(l1, 0, 0, 0, [recent]).0;
            var (l3, ok) := MaybeAppend(l2, 0, 0, 0, []);
            && Valid(l1) && Valid(l2) && Valid(l3) && ok
            && Logical(l1) == [first] && Logical(l2) == [recent] && Logical(l3) == [first]
  {
    assert [first][0..] == [first] && [recent][0..] == [recent] && [] + [first] == [first];
    assert MaybeAppend(Log([], 0, [], 0, 0), 0, 0, 0, [first]).0 == Log([], 1, [first], 0, 0);
    assert Flushed(Log([], 1, [first], 0, 0)) == Log([first], 2, [], 0, 0);
    assert MaybeAppend(Log([first], 2, [], 0, 0), 0, 0, 0, [recent]).0 == Log([first], 1, [recent], 0, 0);
    assert MaybeAppend(Log([first], 1, [recent], 0, 0), 0, 0, 0, []) == (Log([first], 1, [], 0, 0), true);
    assert [first][..0] + [recent] == [recent];
  }

  /** An accepted append lowers the commit index exactly when the leader is ahead but the message ends below it. */
  lemma {:induction false} CommitFallsExactlyWhen(l: Log, prev: nat, prevTerm: nat, commit: nat, es: seq<Entry>)
    requires TermAt(l, prev) == prevTerm
    ensures MaybeAppend(l, prev, prevTerm, commit, es).0.committed < l.committed
            <==> commit > l.committed > prev + |es|
  {
  }

  /** Two entries, committed and stored: an append that its size limit ends after the first of them, from a
      leader that has committed three, takes the commit index back to 1. */
  lemma {:induction false} CommitFallsBack(e: Entry, e': Entry)
    requires e.index == 1 && e'.index == 2 && e.term >= 1 && e'.term >= 1
    ensures var l1 := Flushed(MaybeAppend(Log([], 0, [], 0, 0), 0, 0, 2, [e, e']).0);
            var (l2, ok) := MaybeAppend(l1, 0, 0, 3, [e]);
            l1.stored == [e, e'] && l1.window == [] && l1.committed == 2 && ok && l2.committed == 1
  {
    var es := [e, e'];
    assert ConflictPos(Log([], 0, [], 0, 0), es) == 0 && es[0..] == es;
    assert MaybeAppend(Log([], 0, [], 0, 0), 0, 0, 2, es).0 == Log([], 1, es, 2, 0);
    assert [] + es == es;
  }
}
