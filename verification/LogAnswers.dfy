/** What the two-layer log answers and does in every case, also where its layers do not stand for one log:
    terms beyond its end, ranges out of bounds, what is next to apply, and any append. */
module LogAnswers {
  import opened Bytes
  import opened RaftTypes
  import opened LogSpec
  import opened LogTheorems

  /** The log as `term` sees it: behind its end, what storage still holds there. */
  function Seen(l: Log): seq<Entry>
    requires l.window != [] ==> 1 <= l.offset <= |l.stored| + 1
  {
    Logical(l) + if |l.stored| > |Logical(l)| then l.stored[|Logical(l)|..] else []
  }

  /** The term at any index whatever. */
  lemma {:induction false} TermIsSeen(l: Log, i: nat)
    requires Valid(l)
    ensures TermAt(l, i) == if 1 <= i <= |Seen(l)| then Seen(l)[i - 1].term else 0
  {
  }

  /** A range is refused exactly if it is not empty and does not lie inside the log. */
  lemma {:induction false} SliceThrowsExactlyWhen(l: Log, lo: nat, hi: nat, maxSize: nat)
    requires Valid(l)
    ensures Slice(l, lo, hi, maxSize) == None <==> lo < hi && (lo == 0 || hi > |Logical(l)| + 1)
  {
    LogicalNumbered(l);
    if 1 <= lo && hi <= LastIndex(l) + 1 { SliceIsPrefix(l, lo, hi, maxSize); }
  }

  /** What is next to apply: all that is committed and not applied, as far as the log and, with an empty
      window, the place where the window last stood go. */
  lemma {:induction false} NextIsExactly(l: Log)
    requires Valid(l)
    ensures NextCommitted(l) ==
            if l.applied >= l.committed || l.committed > |Logical(l)| then []
            else if l.window != [] then Logical(l)[l.applied..l.committed]
            else if l.applied + 1 < l.offset then l.stored[l.applied..Min(l.committed, l.offset - 1)]
            else []
  {
    hide Slice;
    hide Logical;
    hide Numbered;
    LogicalNumbered(l);
    var lo, hi := l.applied + 1, l.committed + 1;
    if l.committed > |Logical(l)| { SliceThrowsExactlyWhen(l, lo, hi, NO_LIMIT); }
    if l.applied < l.committed <= |Logical(l)| {
      if l.window != [] { SliceIsComplete(l, lo, hi); } else { BelowWindow(l, lo, hi); }
    }
  }

  lemma {:induction false} BelowWindow(l: Log, lo: nat, hi: nat)
    requires Valid(l) && l.window == [] && 1 <= lo < hi <= |l.stored| + 1
    ensures Slice(l, lo, hi, NO_LIMIT) == Some(if lo < l.offset then l.stored[lo - 1..Min(hi, l.offset) - 1] else [])
    ensures Logical(l) == l.stored
  {
    assert StoragePart(l, lo, hi, NO_LIMIT) == if lo < l.offset then l.stored[lo - 1..Min(hi, l.offset) - 1] else [];
    assert WindowPart(l, lo, hi) == [];
    hide StoragePart;
    hide WindowPart;
    hide Slice;
    EmptySlice(l, lo, hi);
  }

  lemma {:induction false} EmptySlice(l: Log, lo: nat, hi: nat)
    requires WindowPart(l, lo, hi) == [] && 1 <= lo < hi <= LastIndex(l) + 1 && (lo < l.offset ==> Min(hi, l.offset) <= |l.stored| + 1)
    ensures Slice(l, lo, hi, NO_LIMIT) == Some(StoragePart(l, lo, hi, NO_LIMIT))
  {
    hide StoragePart;
    hide WindowPart;
    var a := StoragePart(l, lo, hi, NO_LIMIT);
    assert a + [] == a;
  }

  // ----- any append -----

  /** What an overwrite behind index c builds on: the log up to there, or storage alone if the log ends
      before it. */
  function Front(l: Log, c: nat): seq<Entry>
    requires l.window != [] ==> 1 <= l.offset <= |l.stored| + 1
    requires c <= |Seen(l)|
  {
    if c <= |Logical(l)| then Logical(l)[..c] else l.stored[..c]
  }

  lemma {:induction false} ConflictIsMismatch(l: Log, prev: nat, es: seq<Entry>, k: nat)
    requires Valid(l) && Numbered(es, prev + 1) && FirstMismatch(Seen(l), prev, es, k)
    ensures ConflictPos(l, es) == k
    decreases |es|
  {
    hide TermAt;
    hide Logical;
    if es != [] {
      var seen := Seen(l);
      TermIsSeen(l, prev + 1);
      assert Agrees(seen, prev, es, 0) <==> k > 0;
      if k > 0 {
        var next, rest := prev + 1, es[1..];
        forall j | 0 <= j < k - 1 ensures Agrees(seen, next, rest, j) { assert Agrees(seen, prev, es, j + 1); }
        assert k < |es| ==> !Agrees(seen, prev, es, k);
        hide Seen;
        ConflictIsMismatch(l, next, rest, k - 1);
      }
    }
  }

  lemma {:induction false} OverwriteBuilds(l: Log, es: seq<Entry>)
    requires Valid(l) && es != [] && es[0].index >= 1 && Numbered(es, es[0].index) && es[0].index - 1 <= |Seen(l)|
    ensures var l' := TruncateAndAppend(l, es);
            Valid(l') && Logical(l') == Front(l, es[0].index - 1) + es && l' == l.(offset := l'.offset, window := l'.window)
  {
    var c, l' := es[0].index - 1, TruncateAndAppend(l, es);
    if l.window != [] && l.offset <= c <= LastIndex(l) {
      var kept := l.window[..c + 1 - l.offset];
      assert l'.window == kept + es;
      assert Logical(l)[..c] == l.stored[..l.offset - 1] + kept;
      Associative(l.stored[..l.offset - 1], kept, es);
    } else {
      assert l' == l.(offset := c + 1, window := es);
      assert c <= |Logical(l)| ==> Logical(l)[..c] == l.stored[..c];
    }
  }

  /** In front of the first mismatch everything is there. */
  lemma {:induction false} MismatchIsInReach(l: Log, prev: nat, es: seq<Entry>, k: nat)
    requires Valid(l) && Numbered(es, prev + 1) && FirstMismatch(Seen(l), prev, es, k) && k < |es|
    requires prev > 0 ==> TermAt(l, prev) >= 1
    ensures prev + k <= |Seen(l)| && es[k..] != [] && es[k..][0].index == prev + k + 1 && Numbered(es[k..], prev + k + 1)
  {
    TermIsSeen(l, prev);
    hide TermAt;
    hide Seen;
    assert k > 0 ==> Agrees(Seen(l), prev, es, k - 1);
  }

  /** A follower's append to any valid log.  It is accepted exactly if the log, or the tail in storage behind
      it, has the previous term.  A mismatch above the commit index is overwritten, together with all
      behind it; one at or below changes nothing; without one the window is cut at the end of the message,
      and if that empties it, storage is the log. */
  lemma {:induction false} AppendOutcome(l: Log, prev: nat, prevTerm: nat, commit: nat, es: seq<Entry>, k: nat)
    requires Valid(l) && LeaderMessage(prev, prevTerm, es) && FirstMismatch(Seen(l), prev, es, k)
    ensures var (l', ok) := MaybeAppend(l, prev, prevTerm, commit, es);
            var last := prev + |es|;
            && Valid(l') && l'.stored == l.stored && l'.applied == l.applied
            && (ok <==> (if 1 <= prev <= |Seen(l)| then Seen(l)[prev - 1].term else 0) == prevTerm)
            && (!ok ==> l' == l)
            && (ok ==> l'.committed == if commit > l.committed then Min(commit, last) else l.committed)
            && (ok && k < |es| && prev + k + 1 <= l.committed ==> Logical(l') == Logical(l))
            && (ok && k < |es| && prev + k + 1 > l.committed ==>
                  prev + k <= |Seen(l)| && Logical(l') == Front(l, prev + k) + es[k..])
            && (ok && k == |es| ==>
                  Logical(l') == if l.window == [] || last >= |Logical(l)| then Logical(l)
                                 else if last >= l.offset then Logical(l)[..last] else l.stored)
  {
    hide TermAt;
    hide ConflictPos;
    hide TruncateFrom;
    hide TruncateAndAppend;
    hide Seen;
    hide Front;
    hide Numbered;
    hide Logical;
    hide FirstMismatch;
    TermIsSeen(l, prev);
    ConflictIsMismatch(l, prev, es, k);
    LogicalNumbered(l);
    TruncationOutcome(l, prev + |es|);
    TruncationKeepsRest(l, prev + |es| + 1);
    if TermAt(l, prev) == prevTerm && k < |es| {
      MismatchIsInReach(l, prev, es, k);
      OverwriteBuilds(l, es[k..]);
    }
    MismatchInside(Seen(l), prev, es, k);
    RelayedCommit(l, prev, prevTerm, commit, es);
    SameEntriesSameLog(Reconcile(l, prev, es), MaybeAppend(l, prev, prevTerm, commit, es).0.committed);
  }

  lemma {:induction false} SameEntriesSameLog(l: Log, committed: nat)
    ensures Valid(l) ==> Valid(l.(committed := committed)) && Logical(l.(committed := committed)) == Logical(l)
  {
  }

  lemma {:induction false} MismatchInside(log: seq<Entry>, prev: nat, es: seq<Entry>, k: nat)
    requires FirstMismatch(log, prev, es, k)
    ensures k <= |es|
  {
  }

  lemma {:induction false} TruncationKeepsRest(l: Log, from: nat)
    ensures var l' := TruncateFrom(l, from);
            l'.stored == l.stored && l'.committed == l.committed && l'.applied == l.applied
  {
  }

  lemma {:induction false} RelayedCommit(l: Log, prev: nat, prevTerm: nat, commit: nat, es: seq<Entry>)
    ensures var (l', ok) := MaybeAppend(l, prev, prevTerm, commit, es);
            (ok <==> TermAt(l, prev) == prevTerm) && (!ok ==> l' == l)
            && (ok ==> l' == Reconcile(l, prev, es).(committed := l'.committed)
                       && l'.committed == if commit > l.committed then Min(commit, prev + |es|) else l.committed)
  {
    assert Reconcile(l, prev, es).committed == l.committed by { hide ConflictPos; }
    hide Reconcile;
  }
}
