/** The Raft log: a window of unpersisted entries over the write-ahead log, with commit and apply
    positions.  View() is the value the specification speaks about.  The pending-snapshot field of
    the window is never set, because no snapshot is ever sent, and is not kept. */
module RaftLog {
  import opened Bytes
  import opened RaftTypes
  import opened LogSpec
  import opened WriteAheadLog

  /** In-memory entries that are not yet confirmed as persisted; entries[0] has index `offset`. */
  class LogUnstable {
    var entries: seq<Entry>
    var offset: nat

    constructor ()
      ensures entries == [] && offset == 0
    {
      entries, offset := [], 0;
    }

    function MaybeLastIndex(): Option<nat>
      reads this
    {
      if entries != [] then Some(offset + |entries| - 1) else None
    }

    function MaybeTerm(i: nat): Option<nat>
      reads this
    {
      if i < offset then None
      else
        match MaybeLastIndex()
        case None => None
        case Some(last) => if i > last then None else Some(entries[i - offset].term)
    }

    function Slice(lo: nat, hi: nat): seq<Entry>
      reads this
    {
      if lo < offset || hi > offset + |entries| || lo > hi then [] else entries[lo - offset..hi - offset]
    }

    method StableTo(i: nat)
      modifies this
      ensures offset == if old(entries) == [] || i < old(offset) then old(offset) else i + 1
      ensures entries == if old(entries) == [] || i < old(offset) then old(entries)
                         else if i + 1 - old(offset) >= |old(entries)| then []
                         else old(entries)[i + 1 - old(offset)..]
    {
      if entries == [] || i < offset { return; }
      var drop := i + 1 - offset;
      if drop >= |entries| { entries := []; } else { entries := entries[drop..]; }
      offset := i + 1;
    }

    method TruncateFrom(from: nat)
      modifies this`entries
      ensures entries == if old(entries) != [] && from < offset then []
                         else if old(entries) != [] && from - offset < |old(entries)| then old(entries)[..from - offset]
                         else old(entries)
    {
      if entries == [] { return; }
      if from < offset {
        entries := [];
        return;
      }
      var cut := from - offset;
      if cut < |entries| { entries := entries[..cut]; }
    }

    method TruncateAndAppend(es: seq<Entry>)
      modifies this
      ensures es == [] ==> entries == old(entries) && offset == old(offset)
      ensures es != [] ==>
                var first := es[0].index;
                if old(entries) != [] && old(offset) < first <= old(offset) + |old(entries)|
                then offset == old(offset) && entries == old(entries)[..first - old(offset)] + es
                else offset == first && entries == es
    {
      if es == [] { return; }
      var first := es[0].index;
      if entries == [] {
        offset, entries := first, es;
        return;
      }
      var ourLast := offset + |entries| - 1;
      if first <= offset {
        offset, entries := first, es;
        return;
      }
      if first > ourLast + 1 {
        offset, entries := first, es;
        return;
      }
      var cut := first - offset;
      entries := entries[..cut] + es;
    }
  }

  class RaftLog {
    const storage: Wal
    const unstable: LogUnstable
    var committed: nat
    var applied: nat

    ghost predicate Valid()
      reads this, storage, unstable
    {
      storage.Valid()
    }

    /** The log as a value. */
    ghost function View(): Log
      requires Valid()
      reads this, storage, unstable
    {
      Log(storage.Stored(), unstable.offset, unstable.entries, committed, applied)
    }

    constructor (storage: Wal)
      requires storage.Valid()
      ensures this.storage == storage && fresh(unstable)
      ensures Valid() && View() == Log(storage.Stored(), 0, [], 0, 0)
    {
      this.storage := storage;
      unstable := new LogUnstable();
      committed, applied := 0, 0;
    }

    function Term(i: nat): (t: nat)
      requires Valid()
      reads this, storage, unstable
      ensures t == TermAt(View(), i)
    {
      if i == 0 then 0
      else
        match unstable.MaybeTerm(i)
        case Some(t) => t
        case None => match storage.Term(i) case Some(t) => t case None => 0
    }

    function LastIndex(): (i: nat)
      requires Valid()
      reads this, storage, unstable
      ensures i == LogSpec.LastIndex(View())
    {
      match unstable.MaybeLastIndex()
      case Some(i) => i
      case None => storage.LastIndex()
    }

    function LastTerm(): (t: nat)
      requires Valid()
      reads this, storage, unstable
      ensures t == LogSpec.LastTerm(View())
    {
      Term(LastIndex())
    }

    // ----- commit and apply positions -----

    method MaybeCommit(index: nat, t: nat) returns (moved: bool)
      requires Valid()
      modifies this`committed
      ensures Valid() && moved == (index > old(committed) && TermAt(old(View()), index) == t)
      ensures View() == if moved then old(View()).(committed := index) else old(View())
    {
      if index > committed && Term(index) == t {
        committed := index;
        return true;
      }
      return false;
    }

    method CommitTo(index: nat)
      requires Valid()
      modifies this`committed
      ensures Valid() && View() == LogSpec.CommitTo(old(View()), index)
    {
      if index > committed {
        committed := Min(index, LastIndex());
      }
    }

    method AppliedTo(i: nat)
      requires Valid()
      modifies this`applied
      ensures Valid() && View() == LogSpec.AppliedTo(old(View()), i)
    {
      if i < applied || i > committed { return; }
      applied := i;
    }

    method NextCommittedEntries() returns (es: seq<Entry>)
      requires Valid()
      ensures es == NextCommitted(View())
    {
      hide LogSpec.Slice;
      if committed <= applied { return []; }
      var r := Slice(applied + 1, committed + 1, NO_LIMIT);
      es := if r.Some? then r.value else [];
    }

    // ----- appends -----

    /** The index of the first entry whose term the log does not confirm, or 0. */
    method FindConflict(es: seq<Entry>) returns (index: nat)
      requires Valid()
      ensures var k := ConflictPos(View(), es); index == if k < |es| then es[k].index else 0
    {
      for i := 0 to |es|
        invariant ConflictPos(View(), es) == i + ConflictPos(View(), es[i..])
      {
        if Term(es[i].index) != es[i].term {
          return es[i].index;
        }
        assert es[i..][1..] == es[i + 1..];
      }
      return 0;
    }

    /** Finds the first conflict, and cuts or replaces the tail. */
    method Reconcile(prevLogIndex: nat, es: seq<Entry>)
      requires Valid()
      requires forall i :: 0 <= i < |es| ==> es[i].index == prevLogIndex + 1 + i
      modifies unstable
      ensures Valid() && View() == LogSpec.Reconcile(old(View()), prevLogIndex, es)
    {
      var lastNewIndex := prevLogIndex + |es|;
      var conflict := FindConflict(es);
      hide ConflictPos;
      hide LogSpec.TruncateFrom;
      hide LogSpec.TruncateAndAppend;
      if conflict == 0 {
        if lastNewIndex < LastIndex() {
          unstable.TruncateFrom(lastNewIndex + 1);
        }
      } else if conflict <= committed {
        // accepted without a change
      } else {
        unstable.TruncateAndAppend(es[conflict - prevLogIndex - 1..]);
      }
    }

    /** The follower's append; the caller sends consecutive indices behind prevLogIndex. */
    method MaybeAppend(prevLogIndex: nat, prevLogTerm: nat, leaderCommit: nat, es: seq<Entry>) returns (ok: bool)
      requires Valid()
      requires forall i :: 0 <= i < |es| ==> es[i].index == prevLogIndex + 1 + i
      modifies this, unstable
      ensures Valid()
      ensures (View(), ok) == LogSpec.MaybeAppend(old(View()), prevLogIndex, prevLogTerm, leaderCommit, es)
    {
      hide LogSpec.Reconcile;
      hide TermAt;
      if Term(prevLogIndex) != prevLogTerm { return false; }
      var lastNewIndex := prevLogIndex + |es|;
      Reconcile(prevLogIndex, es);
      if leaderCommit > committed {
        committed := Min(leaderCommit, lastNewIndex);
      }
      return true;
    }

    /** The leader's append; never below the commit index. */
    method Append(es: seq<Entry>)
      requires Valid()
      modifies unstable
      ensures Valid() && View() == LogSpec.Append(old(View()), es)
    {
      if es == [] { return; }
      var after := Preceding(es[0].index);
      if after < committed { return; }
      unstable.TruncateAndAppend(es);
    }

    method StableTo(i: nat)
      requires Valid()
      modifies unstable
      ensures Valid() && View() == LogSpec.StableTo(old(View()), i)
    {
      unstable.StableTo(i);
    }

    // ----- slices -----

    /** Entries [lo, hi) of the two layers, bounded by maxSize; None where the source throws. */
    method Slice(lo: nat, hi: nat, maxSize: nat) returns (r: Option<seq<Entry>>)
      requires Valid()
      ensures r == LogSpec.Slice(View(), lo, hi, maxSize)
    {
      hide Fit;
      hide StorageTake;
      if lo >= hi { return Some([]); }
      if lo < 1 { return None; }
      if hi > LastIndex() + 1 { return None; }
      ghost var l := View();
      var es: seq<Entry> := [];
      var offset := unstable.offset;
      if lo < offset {
        var storageHi := Min(hi, offset);
        var stored := storage.Entries(lo, storageHi, maxSize);
        if stored.None? { return None; }
        es := stored.value;
        if |es| < storageHi - lo { return Some(es); }
      }
      assert es == StoragePart(l, lo, hi, maxSize);
      if hi > offset {
        es := es + unstable.Slice(Max(lo, offset), hi);
      }
      assert es == StoragePart(l, lo, hi, maxSize) + WindowPart(l, lo, hi);
      es := CutTo(es, maxSize);
      return Some(es);
    }
  }

  /** The final cut of a slice. */
  method CutTo(es: seq<Entry>, maxSize: nat) returns (r: seq<Entry>)
    ensures r == Cut(es, maxSize)
  {
    r := es;
    if maxSize != NO_LIMIT && |es| > 1 {
      var n := CountWithin(es, maxSize);
      r := es[..n];
    }
  }

  /** How many entries a size-limited slice keeps: the first, and the others while they fit. */
  method CountWithin(es: seq<Entry>, maxSize: nat) returns (n: nat)
    requires |es| > 1
    ensures n == 1 + Fit(es[1..], Cost(es[0]), maxSize)
  {
    var size: nat := Cost(es[0]);
    for i := 1 to |es|
      invariant Fit(es[1..], Cost(es[0]), maxSize) == i - 1 + Fit(es[i..], size, maxSize)
    {
      size := size + |es[i].data| + ENTRY_SIZE;
      if size > maxSize { return i; }
      assert es[i..][1..] == es[i + 1..];
    }
    return |es|;
  }
}
