/** Any bytes as a log file: which records they hold, and what the vector is that they replay to. */
module ReplayRecords {
  import opened Bytes
  import opened RaftTypes
  import opened WalSpec

  /** A record is read exactly if the bytes start with one, and it is that one. */
  lemma {:induction false} ReadsExactlyWhen(bs: seq<Byte>)
    ensures ReadRecord(bs).Some? ==> var (e, rest) := ReadRecord(bs).value; Fits(e) && bs == Record(e) + rest
    ensures ReadRecord(bs) == None ==> forall e, rest :: Fits(e) ==> bs != Record(e) + rest
  {
    if ReadRecord(bs).Some? {
      RecordIsThere(bs);
    } else {
      forall e, rest | Fits(e) ensures bs != Record(e) + rest { ReadWritten(e, rest); }
    }
  }

  lemma {:induction false} RecordIsThere(bs: seq<Byte>)
    requires ReadRecord(bs).Some?
    ensures var (e, rest) := ReadRecord(bs).value; Fits(e) && bs == Record(e) + rest
  {
    UnLERoundTrip(bs[..8]);
    UnLERoundTrip(bs[8..16]);
    UnLERoundTrip(bs[17..21]);
    PowersOf256();
    hide LE;
    hide UnLE;
    hide Pow256;
    var len := UnLE(bs[17..21]);
    PartsJoin(bs, len);
  }

  lemma {:induction false} PartsJoin(bs: seq<Byte>, len: nat)
    requires 21 + len <= |bs|
    ensures bs == bs[..8] + bs[8..16] + [bs[16]] + bs[17..21] + bs[21..21 + len] + bs[21 + len..]
  {
  }

  /** The records that a file holds, in file order. */
  function RecordsIn(bs: seq<Byte>): seq<Entry>
    decreases |bs|
  {
    match ReadRecord(bs)
    case None => []
    case Some((e, rest)) => [e] + RecordsIn(rest)
  }

  /** A file is its records and an unread rest that does not start with one. */
  lemma {:induction false} FileSplits(bs: seq<Byte>)
    ensures bs == Records(RecordsIn(bs)) + Unread(bs) && ReadRecord(Unread(bs)) == None
    ensures forall k :: 0 <= k < |RecordsIn(bs)| ==> Fits(RecordsIn(bs)[k])
    decreases |bs|
  {
    if ReadRecord(bs).Some? {
      RecordIsThere(bs);
      var (e, rest) := ReadRecord(bs).value;
      assert |rest| < |bs|;
      hide ReadRecord;
      hide Record;
      FileSplits(rest);
      assert ([e] + RecordsIn(rest))[1..] == RecordsIn(rest);
      Associative(Record(e), Records(RecordsIn(rest)), Unread(rest));
    }
  }

  ghost predicate Writes(es: seq<Entry>, i: nat) { exists k :: 0 <= k < |es| && es[k].index == i }

  /** e is the last entry of that index. */
  ghost predicate IsLast(es: seq<Entry>, i: nat, e: Entry) {
    exists k :: 0 <= k < |es| && es[k] == e && e.index == i && forall j :: k < j < |es| ==> es[j].index != i
  }

  /** The slots of the vector after replaying `es` over `entries`. */
  ghost predicate LastWins(entries: seq<Entry>, es: seq<Entry>, r: seq<Entry>) {
    && |r| >= |entries| && (forall k :: 0 <= k < |es| ==> es[k].index < |r|)
    && (|r| == |entries| || Writes(es, |r| - 1))
    && (forall i :: 0 <= i < |r| && Writes(es, i) ==> IsLast(es, i, r[i]))
    && (forall i :: 0 <= i < |r| && !Writes(es, i) ==> r[i] == if i < |entries| then entries[i] else DUMMY)
  }

  lemma {:induction false} OneMoreWrite(e: Entry, rest: seq<Entry>, i: nat)
    ensures Writes([e] + rest, i) <==> e.index == i || Writes(rest, i)
  {
    var es := [e] + rest;
    if e.index == i { assert es[0].index == i; }
    if Writes(rest, i) {
      var k :| 0 <= k < |rest| && rest[k].index == i;
      assert es[k + 1].index == i;
    }
  }

  lemma {:induction false} LastOfMore(e: Entry, rest: seq<Entry>, i: nat, x: Entry)
    ensures IsLast(rest, i, x) ==> IsLast([e] + rest, i, x)
    ensures e.index == i && !Writes(rest, i) ==> IsLast([e] + rest, i, e)
  {
    var es := [e] + rest;
    if IsLast(rest, i, x) {
      var k :| 0 <= k < |rest| && rest[k] == x && x.index == i && forall j :: k < j < |rest| ==> rest[j].index != i;
      assert es[k + 1] == x;
      forall j | k + 1 < j < |es| ensures es[j].index != i { assert es[j] == rest[j - 1]; }
    }
    if e.index == i && !Writes(rest, i) {
      assert es[0] == e;
      forall j | 0 < j < |es| ensures es[j].index != i { assert es[j] == rest[j - 1]; }
    }
  }

  lemma {:induction false} PlaceThenRest(entries: seq<Entry>, e: Entry, rest: seq<Entry>, r: seq<Entry>)
    requires LastWins(Place(entries, e), rest, r)
    ensures LastWins(entries, [e] + rest, r)
  {
    var es, placed := [e] + rest, Place(entries, e);
    hide IsLast;
    forall k | 0 <= k < |es| ensures es[k].index < |r| { assert k > 0 ==> es[k] == rest[k - 1]; }
    OneMoreWrite(e, rest, |r| - 1);
    forall i | 0 <= i < |r|
      ensures Writes(es, i) ==> IsLast(es, i, r[i])
      ensures !Writes(es, i) ==> r[i] == if i < |entries| then entries[i] else DUMMY
    {
      OneMoreWrite(e, rest, i);
      LastOfMore(e, rest, i, r[i]);
    }
  }

  lemma {:induction false} ReplayFromIs(entries: seq<Entry>, bs: seq<Byte>)
    ensures LastWins(entries, RecordsIn(bs), ReplayFrom(entries, bs))
    decreases |bs|
  {
    if ReadRecord(bs).Some? {
      var (e, rest) := ReadRecord(bs).value;
      assert |rest| < |bs|;
      hide ReadRecord;
      hide Place;
      hide LastWins;
      ReplayFromIs(Place(entries, e), rest);
      PlaceThenRest(entries, e, RecordsIn(rest), ReplayFrom(Place(entries, e), rest));
    }
  }

  /** Replaying any bytes: every index that a record names holds the last such record, every other slot is
      blank, and the vector ends at the highest index. */
  lemma {:induction false} ReplayIs(bs: seq<Byte>, i: nat)
    requires i < |Replay(bs)|
    ensures var es, r := RecordsIn(bs), Replay(bs);
            && (forall k :: 0 <= k < |es| ==> es[k].index < |r|) && (|r| == 1 || Writes(es, |r| - 1))
            && (if Writes(es, i) then IsLast(es, i, r[i]) else r[i] == Entry(0, 0, 0, []))
  {
    ReplayFromIs([DUMMY], bs);
  }

  // ----- after an append -----

  ghost predicate AllFit(es: seq<Entry>) { forall k :: 0 <= k < |es| ==> Fits(es[k]) }

  /** Bytes behind whole records are read as they would be alone. */
  lemma {:induction false} RecordsThenRest(es: seq<Entry>, rest: seq<Byte>)
    requires AllFit(es)
    ensures RecordsIn(Records(es) + rest) == es + RecordsIn(rest) && Unread(Records(es) + rest) == Unread(rest)
    decreases |es|
  {
    if es == [] {
      assert Records(es) + rest == rest;
    } else {
      var e, more := es[0], es[1..];
      assert Fits(e);
      ReadWritten(e, Records(more) + rest);
      Associative(Record(e), Records(more), rest);
      hide ReadRecord;
      hide Record;
      RecordsThenRest(more, rest);
      Associative([e], more, RecordsIn(rest));
      assert [e] + more == es;
    }
  }

  lemma {:induction false} RecordsAlone(es: seq<Entry>)
    requires AllFit(es)
    ensures RecordsIn(Records(es)) == es && Unread(Records(es)) == []
  {
    RecordsThenRest(es, []);
    NothingToRead();
    assert Records(es) + [] == Records(es) && es + [] == es;
  }

  /** A batch that overlaps what is in memory, wherever it starts: the file is rewritten and holds what memory
      holds in front of the batch, and the batch. */
  lemma {:induction false} OverlapIsRewritten(file: seq<Byte>, entries: seq<Entry>, es: seq<Entry>)
    requires es != [] && es[0].index < |entries| && AllFit(entries) && AllFit(es)
    ensures var file', i := AppendedFile(file, entries, es), es[0].index;
            && AppendedEntries(entries, es) == entries[..i] + es && Unread(file') == []
            && RecordsIn(file') == (if i == 0 then [] else entries[1..i]) + es
  {
    var i := es[0].index;
    var front := entries[1..Max(1, i)];
    assert i == 0 ==> front == [];
    RecordsAppend(front, es);
    RecordsAlone(front + es);
  }

  /** Any other batch is written behind what the file holds, and read again if that ends with a whole record. */
  lemma {:induction false} BatchIsAdded(file: seq<Byte>, entries: seq<Entry>, es: seq<Entry>)
    requires es != [] && es[0].index >= |entries| && AllFit(es) && Unread(file) == []
    ensures var file' := AppendedFile(file, entries, es);
            AppendedEntries(entries, es) == entries + es && Unread(file') == [] && RecordsIn(file') == RecordsIn(file) + es
  {
    FileSplits(file);
    assert file == Records(RecordsIn(file)) + [] == Records(RecordsIn(file));
    RecordsThenRest(RecordsIn(file), Records(es));
    RecordsAlone(es);
  }
}
