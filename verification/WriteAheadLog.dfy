/** The write-ahead log: the in-memory vector (with its dummy entry at index 0), the bytes of
    log.bin, and the hard state.  Nothing is ever compacted, so the first index is 1. */
module WriteAheadLog {
  import opened Bytes
  import opened RaftTypes
  import opened LogSpec
  import opened WalSpec

  /** Reads one record; false where the stream runs dry on the way. */
  method ReadEntry(bs: seq<Byte>) returns (ok: bool, e: Entry, rest: seq<Byte>)
    ensures ok <==> ReadRecord(bs).Some?
    ensures ok ==> ReadRecord(bs) == Some((e, rest))
  {
    ok, e, rest := false, DUMMY, bs;
    if |bs| < 8 { return; }
    var term := UnLE(bs[..8]);
    if |bs| < 16 { return; }
    var index := UnLE(bs[8..16]);
    if |bs| < 17 { return; }
    var kind := bs[16];
    if |bs| < 21 { return; }
    var len := UnLE(bs[17..21]);
    if len > 0 && |bs| < 21 + len { return; }
    ok, e, rest := true, Entry(term, index, kind, bs[21..21 + len]), bs[21 + len..];
  }

  /** Writes one record behind what the file holds. */
  method WriteEntry(file: seq<Byte>, e: Entry) returns (out: seq<Byte>)
    ensures out == file + Record(e)
  {
    out := file + LE(e.term, 8);
    out := out + LE(e.index, 8);
    out := out + [e.kind];
    out := out + LE(|e.data|, 4);
    if e.data != [] { out := out + e.data; }
  }

  lemma {:induction false} RecordsPush(es: seq<Entry>, i: nat)
    requires i < |es|
    ensures Records(es[..i + 1]) == Records(es[..i]) + Record(es[i]) && es[..i + 1] == es[..i] + [es[i]]
  {
    assert es[..i + 1] == es[..i] + [es[i]];
    RecordsAppend(es[..i], [es[i]]);
    assert [es[i]][1..] == [];
  }

  method WriteAll(file: seq<Byte>, es: seq<Entry>) returns (out: seq<Byte>)
    ensures out == file + Records(es)
  {
    hide Record;
    out := file;
    for i := 0 to |es|
      invariant out == file + Records(es[..i])
    {
      RecordsPush(es, i);
      out := WriteEntry(out, es[i]);
    }
    assert es[..|es|] == es;
  }

  // ----- the size limit of a read -----

  predicate Limited(maxSize: nat) { maxSize != 0 && maxSize != NO_LIMIT }

  /** The first k entries of the range went through and cost `size`. */
  ghost predicate TakenSoFar(range: seq<Entry>, k: nat, size: nat, maxSize: nat) {
    && k <= |range| && (k == 0 ==> size == 0)
    && (k > 0 && Limited(maxSize) ==> Fit(range[1..], Cost(range[0]), maxSize) == k - 1 + Fit(range[k..], size, maxSize))
  }

  lemma {:induction false} OneMoreFits(range: seq<Entry>, k: nat, size: nat, maxSize: nat)
    requires k < |range| && TakenSoFar(range, k, size, maxSize)
    requires !(Limited(maxSize) && k > 0 && size + Cost(range[k]) > maxSize)
    ensures TakenSoFar(range, k + 1, size + Cost(range[k]), maxSize)
  {
    assert range[k..][1..] == range[k + 1..];
  }

  lemma {:induction false} NoMoreFits(range: seq<Entry>, k: nat, size: nat, maxSize: nat)
    requires 0 < k < |range| && TakenSoFar(range, k, size, maxSize)
    requires Limited(maxSize) && size + Cost(range[k]) > maxSize
    ensures StorageTake(range, maxSize) == range[..k]
  {
  }

  lemma {:induction false} AllFit(range: seq<Entry>, size: nat, maxSize: nat)
    requires TakenSoFar(range, |range|, size, maxSize)
    ensures StorageTake(range, maxSize) == range
  {
  }

  lemma {:induction false} SliceOfTail(entries: seq<Entry>, lo: nat, hi: nat)
    requires 1 <= lo <= hi <= |entries|
    ensures entries[1..][lo - 1..hi - 1] == entries[lo..hi]
  {
  }

  /** Collects entries[lo..hi] until the limit. */
  method TakeRange(entries: seq<Entry>, lo: nat, hi: nat, maxSize: nat) returns (result: seq<Entry>)
    requires lo < hi <= |entries|
    ensures result == StorageTake(entries[lo..hi], maxSize)
  {
    hide StorageTake;
    result := [];
    var size: nat := 0;
    ghost var range := entries[lo..hi];
    assert TakenSoFar(range, 0, 0, maxSize);
    hide TakenSoFar;
    for k := 0 to hi - lo
      invariant result == range[..k] && TakenSoFar(range, k, size, maxSize)
    {
      var e := entries[lo + k];
      PrefixGrows(range, k);
      if Limited(maxSize) && size + Cost(e) > maxSize && k > 0 {
        NoMoreFits(range, k, size, maxSize);
        return;
      }
      OneMoreFits(range, k, size, maxSize);
      size := size + Cost(e);
      result := result + [e];
    }
    AllFit(range, size, maxSize);
    PrefixGrows(range, 0);
  }

  lemma {:induction false} PrefixGrows<T>(s: seq<T>, k: nat)
    ensures k < |s| ==> s[..k] + [s[k]] == s[..k + 1]
    ensures s[..|s|] == s
  {
  }

  lemma {:induction false} RecordsOfNone()
    ensures Records([]) == []
  {
  }

  class Wal {
    var logFile: seq<Byte>
    var entries: seq<Entry>
    var hardFile: seq<Byte>
    var hardState: HardState

    ghost predicate Valid()
      reads this
    {
      |entries| >= 1
    }

    /** What the Raft log sees: index i at position i - 1. */
    function Stored(): seq<Entry>
      requires Valid()
      reads this
    {
      entries[1..]
    }

    /** Opens an existing file and replays it. */
    constructor (file: seq<Byte>, hardFile: seq<Byte>)
      ensures Valid() && logFile == file && this.hardFile == hardFile
      ensures entries == Replay(file) && hardState == ReadHardState(hardFile)
    {
      logFile := file;
      this.hardFile := hardFile;
      hardState := ReadHardState(hardFile);
      entries := [DUMMY];
      new;
      var rest := file;
      var ok, e, after := ReadEntry(rest);
      while ok
        invariant |entries| >= 1 && logFile == file && this.hardFile == hardFile && hardState == ReadHardState(hardFile)
        invariant ok <==> ReadRecord(rest).Some?
        invariant ok ==> ReadRecord(rest) == Some((e, after))
        invariant Replay(file) == ReplayFrom(entries, rest)
        decreases |rest|
      {
        ghost var before := entries;
        while |entries| <= e.index
          invariant |entries| >= 1 && logFile == file && this.hardFile == hardFile && hardState == ReadHardState(hardFile)
          invariant entries == before || (|before| <= |entries| <= e.index + 1
                                          && entries == before + seq(|entries| - |before|, _ => DUMMY))
          decreases e.index + 1 - |entries|
        {
          entries := entries + [DUMMY];
        }
        entries := entries[e.index := e];
        assert entries == Place(before, e);
        rest := after;
        ok, e, after := ReadEntry(rest);
      }
    }

    function LastIndex(): nat
      requires Valid()
      reads this
    {
      |entries| - 1
    }

    /** None where the source throws. */
    function Term(i: nat): Option<nat>
      requires Valid()
      reads this
    {
      if i < 1 || i > LastIndex() then None else Some(entries[i].term)
    }

    /** Entries [lo, hi) bounded by maxSize, at least one; None where the source throws. */
    method Entries(lo: nat, hi: nat, maxSize: nat) returns (r: Option<seq<Entry>>)
      requires Valid()
      ensures r == if lo < 1 || hi > |Stored()| + 1 then None
                   else if lo >= hi then Some([])
                   else Some(StorageTake(Stored()[lo - 1..hi - 1], maxSize))
    {
      hide StorageTake;
      if lo < 1 || hi > LastIndex() + 1 { return None; }
      if lo >= hi { return Some([]); }
      SliceOfTail(entries, lo, hi);
      var result := TakeRange(entries, lo, hi, maxSize);
      return Some(result);
    }

    /** Writes and keeps a batch behind what is there. */
    method PushAll(es: seq<Entry>)
      modifies this`entries, this`logFile
      ensures entries == old(entries) + es && logFile == old(logFile) + Records(es)
    {
      hide Record;
      hide Records;
      RecordsOfNone();
      for i := 0 to |es|
        invariant entries == old(entries) + es[..i] && logFile == old(logFile) + Records(es[..i])
      {
        RecordsPush(es, i);
        logFile := WriteEntry(logFile, es[i]);
        entries := entries + [es[i]];
      }
      assert es[..|es|] == es;
    }

    /** Appends a contiguous batch to memory and file; a batch that starts inside the log cuts it
        there first and rewrites the file. */
    method AppendNoSync(es: seq<Entry>)
      requires Valid()
      modifies this`entries, this`logFile
      ensures Valid()
      ensures entries == AppendedEntries(old(entries), es)
      ensures logFile == AppendedFile(old(logFile), old(entries), es)
      ensures Recovers(old(logFile), old(entries)) && Continues(old(entries), es) && WritesCleanly(old(logFile), old(entries), es)
              ==> Replay(logFile) == entries
    {
      hide Records;
      if Recovers(logFile, entries) && Continues(entries, es) && WritesCleanly(logFile, entries, es) {
        CleanAppendRecovers(logFile, entries, es);
        RecoversReplays(AppendedFile(logFile, entries, es), AppendedEntries(entries, es));
      }
      hide Recovers;
      hide Continues;
      hide WritesCleanly;
      hide Replay;
      if es == [] { return; }
      var first := es[0].index;
      if first <= LastIndex() {
        ghost var kept := entries[1..Max(1, first)];
        entries := entries[..first];
        var left := if first == 0 then [] else entries[1..];
        assert left == kept;
        logFile := WriteAll([], left);
        assert [] + Records(kept) == Records(kept);
      }
      PushAll(es);
    }

    /** The next start reads back what was saved. */
    method SaveHardState(hs: HardState)
      modifies this`hardState, this`hardFile
      ensures hardState == hs && hardFile == HardBytes(hs)
      ensures HardFits(hs) ==> ReadHardState(hardFile) == hs
    {
      hardFile := LE(hs.term, 8);
      hardFile := hardFile + LE(hs.vote, 8);
      hardFile := hardFile + LE(hs.commit, 8);
      hardState := hs;
      if HardFits(hs) { HardStateReadsBack(hs); }
    }
  }
}
